/**
 A PostgreSQL server as far as the reversible writes can see it: the catalogue of tables
 and indexes, postgresql.auto.conf, and the settings view.

 Statements arrive as text. They go through the lexer of module Sql and the parser here,
 so quoting, case folding and name resolution are the server's own. Index definitions are
 printed back the way `pg_get_indexdef` does it, names quoted only where needed.
 */
module Server {
  import opened Common
  import opened Sql

  // (schema, name)
  type RelName = (string, string)

  // `body` is everything after the table name: access method, columns, predicate.
  datatype Rel = Table | Index(unique: bool, table: RelName, body: seq<Token>)

  // One line of pg_settings.
  datatype Setting = Setting(value: string, context: string, pendingRestart: bool, sourcefile: string)

  // `accepted` says which parameter values the server takes, and how it displays them.
  // `upkeep` lists the maintenance statements that ran; `sessions` maps a backend's pid to
  // whether it is running a query.
  datatype Server = Server(
    rels: map<RelName, Rel>,
    path: seq<string>,
    reserved: set<string>,
    autoConf: map<string, string>,
    view: map<string, Setting>,
    accepted: map<(string, string), string>,
    sessions: map<int, bool>,
    upkeep: seq<string>
  )

  // ── names ───────────────────────────────────────────────────────────────

  datatype Name = Name(schema: Option<string>, name: string)

  function Ident(t: Token, reserved: set<string>): Option<string> {
    match t
    case Word(w) => if w in reserved then None else Some(w)
    case Quoted(n) => if n == "" then None else Some(n)
    case _ => None
  }

  function ReadName(ts: seq<Token>, reserved: set<string>): Option<(Name, seq<Token>)> {
    if ts == [] then None
    else
      match Ident(ts[0], reserved)
      case None => None
      case Some(a) =>
        if |ts| >= 2 && ts[1] == Punct('.') then
          if |ts| == 2 then None
          else
            match Ident(ts[2], reserved)
            case None => None
            case Some(b) => Some((Name(Some(a), b), ts[3..]))
        else Some((Name(None, a), ts[1..]))
  }

  function FindIn(rels: map<RelName, Rel>, path: seq<string>, name: string): (r: Option<RelName>)
    ensures r.Some? ==> r.value in rels && r.value.1 == name && r.value.0 in path
    ensures r.None? ==> forall sc :: sc in path ==> (sc, name) !in rels
  {
    if path == [] then None
    else if (path[0], name) in rels then Some((path[0], name))
    else FindIn(rels, path[1..], name)
  }

  function Find(s: Server, n: Name): (r: Option<RelName>)
    ensures r.Some? ==> r.value in s.rels && r.value.1 == n.name
  {
    match n.schema
    case Some(sc) => if (sc, n.name) in s.rels then Some((sc, n.name)) else None
    case None => FindIn(s.rels, s.path, n.name)
  }

  // `to_regclass(text)`: reads the text as a name of its own, so unquoted parts are folded.
  // It is not the grammar that reads it, so no word is reserved here.
  function RegClass(s: Server, text: string): Option<RelName> {
    match ReadName(Lex(text), {})
    case Some((n, rest)) => if rest == [] then Find(s, n) else None
    case None => None
  }

  predicate IsIndex(s: Server, k: RelName) {
    k in s.rels && s.rels[k].Index?
  }

  // ── statements ──────────────────────────────────────────────────────────

  datatype Stmt =
    | CreateIndex(unique: bool, ifNotExists: bool, name: string, table: Name, body: seq<Token>)
    | DropIndex(which: Name)
    | AlterSet(param: string, value: string)
    | AlterReset(param: string)

  predicate At(ts: seq<Token>, word: string) {
    ts != [] && ts[0] == Word(word)
  }

  function Opt(ts: seq<Token>, word: string): seq<Token> {
    if At(ts, word) then ts[1..] else ts
  }

  predicate Guarded(ts: seq<Token>) {
    At(ts, "if") && At(ts[1..], "not") && At(ts[2..], "exists")
  }

  function Unguarded(ts: seq<Token>): seq<Token> {
    if Guarded(ts) then ts[3..] else ts
  }

  // After CREATE [UNIQUE] INDEX [CONCURRENTLY] [IF NOT EXISTS].
  function ParseTarget(ts: seq<Token>, unique: bool, ifNotExists: bool, reserved: set<string>): Option<Stmt> {
    if ts == [] || Ident(ts[0], reserved).None? || !At(ts[1..], "on") then None
    else
      match ReadName(Opt(ts[2..], "only"), reserved)
      case None => None
      case Some((table, body)) =>
        if body == [] then None
        else Some(CreateIndex(unique, ifNotExists, Ident(ts[0], reserved).value, table, body))
  }

  // After CREATE.
  function ParseCreate(ts: seq<Token>, reserved: set<string>): Option<Stmt> {
    var unique := At(ts, "unique");
    var rest := Opt(ts, "unique");
    if !At(rest, "index") then None
    else
      var named := Opt(rest[1..], "concurrently");
      ParseTarget(Unguarded(named), unique, Guarded(named), reserved)
  }

  // After DROP INDEX.
  function ParseDrop(ts: seq<Token>, reserved: set<string>): Option<Stmt> {
    match ReadName(Opt(ts, "concurrently"), reserved)
    case Some((n, rest)) => if rest == [] then Some(DropIndex(n)) else None
    case None => None
  }

  // A parameter name: words joined by dots.
  function ReadParam(ts: seq<Token>, reserved: set<string>): Option<(string, seq<Token>)> {
    if ts == [] || !ts[0].Word? || ts[0].text in reserved then None
    else if |ts| >= 2 && ts[1] == Punct('.') then
      match ReadParam(ts[2..], reserved)
      case None => None
      case Some((p, rest)) => Some((ts[0].text + "." + p, rest))
    else Some((ts[0].text, ts[1..]))
  }

  // After ALTER SYSTEM.
  function ParseAlter(ts: seq<Token>, reserved: set<string>): Option<Stmt> {
    if ts == [] then None
    else
      match ReadParam(ts[1..], reserved)
      case None => None
      case Some((p, rest)) =>
        if At(ts, "reset") && rest == [] then Some(AlterReset(p))
        else if At(ts, "set") && |rest| == 2 && rest[0] == Punct('=') && rest[1].Literal?
        then Some(AlterSet(p, rest[1].value))
        else None
  }

  function Parse(ts: seq<Token>, reserved: set<string>): Option<Stmt> {
    if Broken in ts then None
    else if At(ts, "create") then ParseCreate(ts[1..], reserved)
    else if At(ts, "drop") && At(ts[1..], "index") then ParseDrop(ts[2..], reserved)
    else if At(ts, "alter") && At(ts[1..], "system") then ParseAlter(ts[2..], reserved)
    else None
  }

  // ── canonical index bodies ──────────────────────────────────────────────

  // `quote_identifier`
  predicate Bare(n: string, reserved: set<string>) {
    && n != "" && (IsLower(n[0]) || n[0] == '_') && n !in reserved
    && forall i :: 0 <= i < |n| ==> IsLower(n[i]) || IsDigit(n[i]) || n[i] == '_'
  }

  function NameToken(n: string, reserved: set<string>): Token {
    if Bare(n, reserved) then Word(n) else Quoted(n)
  }

  function Plainer(t: Token, reserved: set<string>): Token {
    if t.Quoted? then NameToken(t.name, reserved) else t
  }

  function PlainerAll(ts: seq<Token>, reserved: set<string>): (out: seq<Token>)
    ensures |out| == |ts|
    ensures forall i :: 0 <= i < |ts| ==> out[i] == Plainer(ts[i], reserved)
  {
    if ts == [] then [] else [Plainer(ts[0], reserved)] + PlainerAll(ts[1..], reserved)
  }

  // What the catalogue keeps of a body: the method spelled out, names quoted as needed.
  function Canon(body: seq<Token>, reserved: set<string>): seq<Token> {
    var plain := PlainerAll(body, reserved);
    if At(plain, "using") then plain else [Word("using"), Word("btree")] + plain
  }

  lemma CanonTwice(body: seq<Token>, reserved: set<string>)
    ensures Canon(Canon(body, reserved), reserved) == Canon(body, reserved)
  {
    var once := Canon(body, reserved);
    assert PlainerAll(once, reserved) == once;
  }

  predicate AllReadable(ts: seq<Token>) {
    forall i :: 0 <= i < |ts| ==> Readable(ts[i])
  }

  lemma {:induction false} FoldOfLower(n: string)
    requires forall i :: 0 <= i < |n| ==> !IsUpper(n[i])
    ensures Fold(n) == n
  {
  }

  lemma NameTokenReads(n: string, reserved: set<string>)
    requires n != ""
    ensures Readable(NameToken(n, reserved))
    ensures Ident(NameToken(n, reserved), reserved) == Some(n)
  {
    if Bare(n, reserved) {
      FoldOfLower(n);
    }
  }

  lemma PlainerKeepsReadable(ts: seq<Token>, reserved: set<string>)
    requires AllReadable(ts)
    ensures AllReadable(PlainerAll(ts, reserved))
  {
    forall i | 0 <= i < |ts| ensures Readable(PlainerAll(ts, reserved)[i]) {
      assert Readable(ts[i]);
      if ts[i].Quoted? && ts[i].name != "" {
        NameTokenReads(ts[i].name, reserved);
      }
    }
  }

  predicate AllLower(w: string) {
    forall i :: 0 <= i < |w| ==> IsLower(w[i])
  }

  lemma LowerWordReads(w: string)
    requires w != "" && AllLower(w)
    ensures Readable(Word(w))
  {
    FoldOfLower(w);
  }

  lemma DefaultMethodReads()
    ensures AllReadable([Word("using"), Word("btree")])
  {
    assert AllLower("using") && AllLower("btree");
    LowerWordReads("using");
    LowerWordReads("btree");
  }

  lemma ConcatReadable(a: seq<Token>, b: seq<Token>)
    requires AllReadable(a) && AllReadable(b)
    ensures AllReadable(a + b)
  {
  }

  lemma CanonIsReadable(body: seq<Token>, reserved: set<string>)
    requires AllReadable(body)
    ensures AllReadable(Canon(body, reserved))
  {
    PlainerKeepsReadable(body, reserved);
    DefaultMethodReads();
    ConcatReadable([Word("using"), Word("btree")], PlainerAll(body, reserved));
  }

  // ── execution ───────────────────────────────────────────────────────────

  predicate Known(s: Server, param: string) {
    exists k :: k in s.accepted && k.0 == param
  }

  // The server after a statement, and whether it took it.
  function Exec(s: Server, st: Stmt): (Server, bool) {
    match st
    case CreateIndex(unique, ifNotExists, name, table, body) =>
      (match Find(s, table)
       case None => (s, false)
       case Some(t) =>
         if s.rels[t].Index? then (s, false)
         else if (t.0, name) in s.rels then (s, ifNotExists)
         else (s.(rels := s.rels[(t.0, name) := Index(unique, t, Canon(body, s.reserved))]), true))
    case DropIndex(n) =>
      (match Find(s, n)
       case None => (s, false)
       case Some(k) => if s.rels[k].Index? then (s.(rels := s.rels - {k}), true) else (s, false))
    case AlterSet(p, v) =>
      if (p, v) in s.accepted then (s.(autoConf := s.autoConf[p := v]), true) else (s, false)
    case AlterReset(p) =>
      if Known(s, p) then (s.(autoConf := s.autoConf - {p}), true) else (s, false)
  }

  function Submit(s: Server, text: string): (Server, bool) {
    match Parse(Lex(text), s.reserved)
    case None => (s, false)
    case Some(st) => Exec(s, st)
  }

  // ── what every statement keeps ──────────────────────────────────────────

  // The grammar's own words are reserved, as they are in the server.
  predicate GrammarReserved(reserved: set<string>) {
    && "on" in reserved && "unique" in reserved && "concurrently" in reserved
    && "only" in reserved && "not" in reserved && "using" in reserved
  }

  predicate GoodIndex(s: Server, k: RelName)
    requires IsIndex(s, k)
  {
    var r := s.rels[k];
    && r.table in s.rels && s.rels[r.table].Table? && r.table.0 == k.0
    && AllReadable(r.body) && Canon(r.body, s.reserved) == r.body
  }

  ghost predicate Sane(s: Server) {
    && GrammarReserved(s.reserved)
    && (forall k :: k in s.rels ==> k.0 != "" && k.1 != "")
    && (forall k :: IsIndex(s, k) ==> GoodIndex(s, k))
  }

  lemma UnbrokenIsReadable(text: string)
    requires Broken !in Lex(text)
    ensures AllReadable(Lex(text))
  {
    LexedIsReadable(text);
    forall i | 0 <= i < |Lex(text)| ensures Readable(Lex(text)[i]) {
      assert Lex(text)[i] in Lex(text);
    }
  }

  lemma ReadNameKeepsReadable(ts: seq<Token>, reserved: set<string>)
    requires AllReadable(ts)
    ensures ReadName(ts, reserved).Some? ==> AllReadable(ReadName(ts, reserved).value.1)
  {
  }

  lemma DropKeepsReadable(ts: seq<Token>, n: nat)
    requires AllReadable(ts) && n <= |ts|
    ensures AllReadable(ts[n..])
  {
  }

  lemma OptKeepsReadable(ts: seq<Token>, word: string)
    requires AllReadable(ts)
    ensures AllReadable(Opt(ts, word))
  {
    if At(ts, word) {
      DropKeepsReadable(ts, 1);
    }
  }

  lemma UnguardedKeepsReadable(ts: seq<Token>)
    requires AllReadable(ts)
    ensures AllReadable(Unguarded(ts))
  {
    if Guarded(ts) {
      DropKeepsReadable(ts, 3);
    }
  }

  lemma CreateBodyIsReadable(ts: seq<Token>, reserved: set<string>)
    requires AllReadable(ts)
    ensures var st := ParseCreate(ts, reserved);
            st.Some? ==> st.value.CreateIndex? && AllReadable(st.value.body) && st.value.name != ""
  {
    var rest := Opt(ts, "unique");
    OptKeepsReadable(ts, "unique");
    if At(rest, "index") {
      DropKeepsReadable(rest, 1);
      OptKeepsReadable(rest[1..], "concurrently");
      var named := Opt(rest[1..], "concurrently");
      UnguardedKeepsReadable(named);
      TargetKeepsReadable(Unguarded(named), At(ts, "unique"), Guarded(named), reserved);
    }
  }

  lemma TargetKeepsReadable(ts: seq<Token>, unique: bool, ifNotExists: bool, reserved: set<string>)
    requires AllReadable(ts)
    ensures var st := ParseTarget(ts, unique, ifNotExists, reserved);
            st.Some? ==> st.value.CreateIndex? && AllReadable(st.value.body) && st.value.name != ""
  {
    if ts != [] && Ident(ts[0], reserved).Some? && At(ts[1..], "on") {
      assert Readable(ts[0]);
      ReadNameKeepsReadable(Opt(ts[2..], "only"), reserved);
    }
  }

  lemma CreateKeepsSane(s: Server, st: Stmt)
    requires Sane(s) && st.CreateIndex? && st.name != "" && AllReadable(st.body)
    ensures Sane(Exec(s, st).0)
  {
    var s' := Exec(s, st).0;
    if s' != s {
      var t := Find(s, st.table).value;
      var made := (t.0, st.name);
      CanonTwice(st.body, s.reserved);
      CanonIsReadable(st.body, s.reserved);
      forall k | IsIndex(s', k) ensures GoodIndex(s', k) {
        if k != made {
          assert IsIndex(s, k) && GoodIndex(s, k);
          assert s.rels[k].table != made;
        }
      }
    }
  }

  lemma DropKeepsSane(s: Server, st: Stmt)
    requires Sane(s) && st.DropIndex?
    ensures Sane(Exec(s, st).0)
  {
    var s' := Exec(s, st).0;
    forall k | IsIndex(s', k) ensures GoodIndex(s', k) {
      assert IsIndex(s, k) && GoodIndex(s, k);
    }
  }

  // Settings have no part in it.
  lemma SameCatalogueSane(s: Server, s': Server)
    requires Sane(s) && s'.rels == s.rels && s'.reserved == s.reserved
    ensures Sane(s')
  {
    forall k | IsIndex(s', k) ensures GoodIndex(s', k) {
      assert IsIndex(s, k) && GoodIndex(s, k);
    }
  }

  lemma OnlyCreateMakesIndexes(ts: seq<Token>, reserved: set<string>)
    ensures var st := Parse(ts, reserved);
            st.Some? && st.value.CreateIndex? ==> At(ts, "create") && st == ParseCreate(ts[1..], reserved)
  {
  }

  /** Whatever text is submitted, every index stays on a table of its own schema and keeps
      a canonical, printable definition. */
  lemma SubmitKeepsSane(s: Server, text: string)
    requires Sane(s)
    ensures Sane(Submit(s, text).0)
  {
    var ts := Lex(text);
    var parsed := Parse(ts, s.reserved);
    if parsed.Some? {
      if parsed.value.CreateIndex? {
        UnbrokenIsReadable(text);
        OnlyCreateMakesIndexes(ts, s.reserved);
        DropKeepsReadable(ts, 1);
        CreateBodyIsReadable(ts[1..], s.reserved);
        CreateKeepsSane(s, parsed.value);
      } else if parsed.value.DropIndex? {
        DropKeepsSane(s, parsed.value);
      } else {
        SameCatalogueSane(s, Submit(s, text).0);
      }
    }
  }
}
