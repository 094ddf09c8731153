/**
 Index definitions: the text the server prints for an index, the shape gate a captured
 text must pass before it is replayed, and what replaying it does.
 */
module IndexDef {
  import opened Common
  import opened Sql
  import opened Server
  import opened Statements

  // ── pg_get_indexdef ─────────────────────────────────────────────────────

  function PrintName(n: string, reserved: set<string>): string {
    PrintToken(NameToken(n, reserved))
  }

  function TableText(t: RelName, reserved: set<string>): string {
    PrintName(t.0, reserved) + ("." + PrintName(t.1, reserved))
  }

  function PrintDef(s: Server, k: RelName): string
    requires IsIndex(s, k)
  {
    var r := s.rels[k];
    CreateText(r.unique, false, PrintName(k.1, s.reserved), TableText(r.table, s.reserved), PrintAll(r.body))
  }

  lemma LexPrintedName(n: string, reserved: set<string>, rest: string)
    requires n != "" && EndsWord(rest) && !StartsWith(rest, '"')
    ensures Lex(PrintName(n, reserved) + rest) == [NameToken(n, reserved)] + Lex(rest)
  {
    if Bare(n, reserved) {
      FoldOfLower(n);
      LexWord(n, rest);
    } else {
      LexDelimited(n, rest);
    }
  }

  lemma PrintedNameReads(n: string, reserved: set<string>)
    requires n != ""
    ensures Reads(PrintName(n, reserved), [NameToken(n, reserved)])
  {
    forall rest | rest == "" || rest[0] == ' '
      ensures Lex(PrintName(n, reserved) + rest) == [NameToken(n, reserved)] + Lex(rest)
    {
      LexPrintedName(n, reserved, rest);
    }
  }

  function TableTokens(t: RelName, reserved: set<string>): seq<Token> {
    [NameToken(t.0, reserved)] + ([Punct('.')] + [NameToken(t.1, reserved)])
  }

  lemma LexPrintedTable(t: RelName, reserved: set<string>, rest: string)
    requires t.0 != "" && t.1 != "" && (rest == "" || rest[0] == ' ')
    ensures Lex((PrintName(t.0, reserved) + ("." + PrintName(t.1, reserved))) + rest) ==
            TableTokens(t, reserved) + Lex(rest)
  {
    var a, b := PrintName(t.0, reserved), PrintName(t.1, reserved);
    LexPrintedName(t.1, reserved, rest);
    DotIsRead(b + rest);
    LexPrintedName(t.0, reserved, "." + (b + rest));
    DottedAssoc(a, b, rest);
  }

  lemma DotIsRead(rest: string)
    ensures Lex("." + rest) == [Punct('.')] + Lex(rest)
    ensures EndsWord("." + rest) && !StartsWith("." + rest, '"')
  {
    LexPunct('.', rest);
  }

  lemma DottedAssoc(a: string, b: string, rest: string)
    ensures (a + ("." + b)) + rest == a + ("." + (b + rest))
  {
    ConcatAssoc(".", b, rest);
    ConcatAssoc(a, "." + b, rest);
  }

  lemma PrintedTableReads(t: RelName, reserved: set<string>)
    requires t.0 != "" && t.1 != ""
    ensures Reads(PrintName(t.0, reserved) + ("." + PrintName(t.1, reserved)), TableTokens(t, reserved))
  {
    forall rest | rest == "" || rest[0] == ' '
      ensures Lex((PrintName(t.0, reserved) + ("." + PrintName(t.1, reserved))) + rest) ==
              TableTokens(t, reserved) + Lex(rest)
    {
      LexPrintedTable(t, reserved, rest);
    }
  }

  /** The printed definition of an index parses to that very index. */
  lemma PrintedDefParses(s: Server, k: RelName)
    requires Sane(s) && IsIndex(s, k)
    ensures var r := s.rels[k];
            Parse(Lex(PrintDef(s, k)), s.reserved) ==
            Some(CreateIndex(r.unique, false, k.1, Name(Some(r.table.0), r.table.1), r.body))
  {
    assert GoodIndex(s, k);
    var r := s.rels[k];
    var i, ts := NameToken(k.1, s.reserved), TableTokens(r.table, s.reserved);
    PrintedNameReads(k.1, s.reserved);
    PrintedTableReads(r.table, s.reserved);
    LexPrinted(r.body);
    LexCreate(r.unique, false, PrintName(k.1, s.reserved), i,
              PrintName(r.table.0, s.reserved) + ("." + PrintName(r.table.1, s.reserved)), ts, PrintAll(r.body));
    NameTokenReads(k.1, s.reserved);
    CanonStarts(r.body, s.reserved);
    PrintedTableIsRead(r.table, r.body, s.reserved);
    NothingBroken(r.body);
    ParsesCreateTokens(r.unique, false, i, k.1, ts, Name(Some(r.table.0), r.table.1), r.body, s.reserved);
  }

  lemma CanonStarts(body: seq<Token>, reserved: set<string>)
    requires Canon(body, reserved) == body
    ensures body != [] && body[0] == Word("using")
  {
  }

  lemma NothingBroken(ts: seq<Token>)
    requires AllReadable(ts)
    ensures Broken !in ts
  {
  }

  lemma PrintedTableIsRead(t: RelName, body: seq<Token>, reserved: set<string>)
    requires t.0 != "" && t.1 != "" && GrammarReserved(reserved)
    ensures ReadName(TableTokens(t, reserved) + body, reserved) == Some((Name(Some(t.0), t.1), body))
    ensures !At(TableTokens(t, reserved) + body, "only") && Broken !in TableTokens(t, reserved)
  {
    NameTokenReads(t.0, reserved);
    NameTokenReads(t.1, reserved);
    assert (TableTokens(t, reserved) + body)[3..] == body;
  }

  // ── the shape gate ──────────────────────────────────────────────────────

  // What `str.strip` removes and `\s` matches.
  predicate PySpace(c: char) {
    var n := c as int;
    || 0x09 <= n <= 0x0d || 0x1c <= n <= 0x20 || n == 0x85 || n == 0xa0 || n == 0x1680
    || 0x2000 <= n <= 0x200a || n == 0x2028 || n == 0x2029 || n == 0x202f || n == 0x205f || n == 0x3000
  }

  function TrimLeft(s: string): string {
    if s != "" && PySpace(s[0]) then TrimLeft(s[1..]) else s
  }

  function TrimRight(s: string): string {
    if s != "" && PySpace(s[|s| - 1]) then TrimRight(s[..|s| - 1]) else s
  }

  function Trim(s: string): string {
    TrimRight(TrimLeft(s))
  }

  function DropSemicolons(s: string): string {
    if s != "" && s[|s| - 1] == ';' then DropSemicolons(s[..|s| - 1]) else s
  }

  // `\s+` and what comes after it.
  function TakeSpaces(s: string): Option<string> {
    if s != "" && PySpace(s[0]) then Some(TrimLeft(s)) else None
  }

  // `word\s+`, ignoring case.
  function TakeKw(s: string, word: string): Option<string> {
    if |s| >= |word| && Fold(s[..|word|]) == word then TakeSpaces(s[|word|..]) else None
  }

  function IdentEnd(s: string): nat
    ensures IdentEnd(s) <= |s|
  {
    if s == "" || !IsIdentPart(s[0]) then 0 else 1 + IdentEnd(s[1..])
  }

  // `"?[A-Za-z_][A-Za-z0-9_$]*"?`: the name without its quotes, and the rest.
  function TakeIdent(s: string): Option<(string, string)> {
    var t := if StartsWith(s, '"') then s[1..] else s;
    if t == "" || !IsIdentStart(t[0]) then None
    else
      var n := IdentEnd(t);
      Some((t[..n], if StartsWith(t[n..], '"') then t[n + 1..] else t[n..]))
  }

  // `name\s+ON\s+`
  function TakeNamed(s: string): Option<string> {
    match TakeIdent(s)
    case None => None
    case Some((name, rest)) =>
      match TakeSpaces(rest)
      case None => None
      case Some(on) => if TakeKw(on, "on").Some? then Some(name) else None
  }

  function TakeGuard(s: string): Option<string> {
    match TakeKw(s, "if")
    case None => None
    case Some(a) =>
      match TakeKw(a, "not")
      case None => None
      case Some(b) => TakeKw(b, "exists")
  }

  // `(?:IF\s+NOT\s+EXISTS\s+)?name\s+ON\s+`, the optional part tried first.
  function TakeRest(s: string): Option<string> {
    var guarded := TakeGuard(s);
    if guarded.Some? && TakeNamed(guarded.value).Some? then TakeNamed(guarded.value) else TakeNamed(s)
  }

  // `(?:CONCURRENTLY\s+)?` and the rest, the optional part tried first.
  function TakeIndexed(s: string): Option<string> {
    var d := TakeKw(s, "concurrently");
    if d.Some? && TakeRest(d.value).Some? then TakeRest(d.value) else TakeRest(s)
  }

  // `_INDEXDEF_RE`: the name it captures.
  function GateName(s: string): Option<string> {
    match TakeKw(s, "create")
    case None => None
    case Some(a) =>
      match TakeKw(if TakeKw(a, "unique").Some? then TakeKw(a, "unique").value else a, "index")
      case None => None
      case Some(c) => TakeIndexed(c)
  }

  datatype Gated = NotSingle | BadShape | Pass(stmt: string, index: string)

  function Gate(definition: string): Gated {
    var stmt := Trim(DropSemicolons(Trim(definition)));
    if stmt == "" || ';' in stmt then NotSingle
    else
      match GateName(stmt)
      case None => BadShape
      case Some(name) => Pass(stmt, name)
  }

  // ── what passes the gate ────────────────────────────────────────────────

  predicate Solid(s: string) {
    s != "" && !PySpace(s[0])
  }

  lemma TakesOneSpace(rest: string)
    requires Solid(rest)
    ensures TakeSpaces(" " + rest) == Some(rest)
  {
    var s := " " + rest;
    assert s[1..] == rest && TrimLeft(rest) == rest;
    assert TrimLeft(s) == TrimLeft(s[1..]);
  }

  lemma TakesWord(upper: string, lower: string, tail: string)
    requires Fold(upper) == lower
    ensures TakeKw(upper + tail, lower) == TakeSpaces(tail)
  {
    assert (upper + tail)[..|upper|] == upper && (upper + tail)[|upper|..] == tail;
  }

  lemma TakesKw(upper: string, lower: string, rest: string)
    requires UpperOf(upper, lower) && Solid(rest)
    ensures TakeKw(Kw(true, upper) + rest, lower) == Some(rest)
  {
    UpperWord(upper, lower);
    ConcatAssoc(upper, " ", rest);
    TakesWord(upper, lower, " " + rest);
    TakesOneSpace(rest);
  }

  predicate NoSpaces(s: string) {
    forall i :: 0 <= i < |s| ==> !PySpace(s[i])
  }

  // A word is taken for a keyword only when it is that keyword.
  lemma OtherWordIsNoKw(w: string, tail: string, word: string)
    requires NoSpaces(w) && NoSpaces(word) && Fold(w) != word && (tail == "" || tail[0] == ' ')
    ensures TakeKw(w + tail, word).None?
  {
    var s := w + tail;
    assert s[..|w|] == w;
    if |s| >= |word| && Fold(s[..|word|]) == word {
      if |word| < |w| {
        assert s[|word|..][0] == w[|word|];
      } else {
        assert |word| > |w|;
        assert Fold(s[..|word|])[|w|] == ' ';
        assert PySpace(word[|w|]);
      }
    }
  }

  lemma {:induction false} IdentEndIs(w: string, rest: string)
    requires AllIdentParts(w) && (rest == "" || !IsIdentPart(rest[0]))
    ensures IdentEnd(w + rest) == |w|
  {
    if w == "" {
      assert w + rest == rest;
    } else {
      assert (w + rest)[1..] == w[1..] + rest;
      IdentEndIs(w[1..], rest);
    }
  }

  lemma TakesBareName(n: string, rest: string)
    requires IsIdent(n) && StartsWith(rest, ' ')
    ensures TakeIdent(n + rest) == Some((n, rest))
  {
    IdentEndIs(n, rest);
    var s := n + rest;
    assert s[..|n|] == n && s[|n|..] == rest;
  }

  lemma TakesQuotedName(n: string, rest: string)
    requires IsIdent(n) && StartsWith(rest, ' ')
    ensures TakeIdent("\"" + (n + ("\"" + rest))) == Some((n, rest))
  {
    var tail := "\"" + rest;
    IdentEndIs(n, tail);
    var t := n + tail;
    assert ("\"" + t)[1..] == t;
    assert t[..|n|] == n && t[|n|..] == tail && t[|n| + 1..] == rest;
  }

  // A text the gate reads as the name: bare or quoted.
  predicate Spells(p: string, name: string) {
    IsIdent(name) && (p == name || p == "\"" + (name + "\"")) && Fold(p) != "concurrently"
  }

  lemma TakesName(p: string, name: string, rest: string)
    requires Spells(p, name) && StartsWith(rest, ' ')
    ensures TakeIdent(p + rest) == Some((name, rest))
  {
    if p == name {
      TakesBareName(name, rest);
    } else {
      TakesQuotedName(name, rest);
      ConcatAssoc("\"", name + "\"", rest);
      ConcatAssoc(name, "\"", rest);
    }
  }

  lemma PrintedNameSpells(name: string, reserved: set<string>)
    requires IsIdent(name) && GrammarReserved(reserved)
    ensures Spells(PrintName(name, reserved), name)
  {
    PrintedNameIsNotReserved(name, reserved, "concurrently");
    if !Bare(name, reserved) {
      IdentHasNoQuote(name);
      NothingToDouble('"', name);
    }
  }

  lemma IdentHasNoSpaces(n: string)
    requires IsIdent(n)
    ensures NoSpaces(n) && Solid(n)
  {
    forall i | 0 <= i < |n| ensures !PySpace(n[i]) {
      assert IsIdentPart(n[i]);
    }
  }

  lemma SpellingIsSolid(p: string, name: string)
    requires Spells(p, name)
    ensures NoSpaces(p) && Solid(p)
  {
    IdentHasNoSpaces(name);
    if p != name {
      assert NoSpaces("\"");
    }
  }

  // From the index name on.
  function NamedPart(p: string, target: string): string {
    p + (" " + (Kw(true, "ON") + target))
  }

  lemma OnIsTaken(target: string)
    requires Solid(target)
    ensures TakeKw(Kw(true, "ON") + target, "on").Some?
    ensures Solid(Kw(true, "ON") + target)
    ensures TakeKw(Kw(true, "ON") + target, "not").None?
  {
    TakesKw("ON", "on", target);
    ConcatAssoc("ON", " ", target);
    OtherWordIsNoKw("ON", " " + target, "not");
  }

  lemma NamedPartIsTaken(p: string, name: string, target: string)
    requires Spells(p, name) && Solid(target)
    ensures TakeNamed(NamedPart(p, target)) == Some(name)
  {
    var on := Kw(true, "ON") + target;
    OnIsTaken(target);
    TakesName(p, name, " " + on);
    TakesOneSpace(on);
  }

  lemma NoGuardIsTaken(p: string, name: string, target: string)
    requires Spells(p, name) && Solid(target)
    ensures TakeGuard(NamedPart(p, target)).None?
  {
    var on := Kw(true, "ON") + target;
    SpellingIsSolid(p, name);
    OnIsTaken(target);
    if Fold(p) == "if" {
      TakesWord(p, "if", " " + on);
      TakesOneSpace(on);
    } else {
      OtherWordIsNoKw(p, " " + on, "if");
    }
  }

  lemma PrintedNameIsNotReserved(n: string, reserved: set<string>, word: string)
    requires IsIdent(n) && word in reserved && !StartsWith(word, '"')
    ensures Fold(PrintName(n, reserved)) != word
  {
    if Bare(n, reserved) {
      FoldOfLower(n);
    } else {
      assert Fold(PrintName(n, reserved))[0] == '"';
    }
  }

  lemma LowerHasNoSpaces(w: string)
    requires AllLower(w)
    ensures NoSpaces(w)
  {
  }

  lemma NoConcurrentlyIsTaken(p: string, name: string, target: string)
    requires Spells(p, name)
    ensures TakeKw(NamedPart(p, target), "concurrently").None?
  {
    SpellingIsSolid(p, name);
    LowerHasNoSpaces("concurrently");
    OtherWordIsNoKw(p, " " + (Kw(true, "ON") + target), "concurrently");
  }

  lemma TakesCreateKw(rest: string)
    requires Solid(rest)
    ensures TakeKw(Kw(true, "CREATE") + rest, "create") == Some(rest)
  {
    TakesKw("CREATE", "create", rest);
  }

  lemma TakesIndexKw(rest: string)
    requires Solid(rest)
    ensures TakeKw(Kw(true, "INDEX") + rest, "index") == Some(rest)
  {
    TakesKw("INDEX", "index", rest);
  }

  lemma TakesUniqueKw(rest: string)
    requires Solid(rest)
    ensures TakeKw(Kw(true, "UNIQUE") + rest, "unique") == Some(rest)
  {
    TakesKw("UNIQUE", "unique", rest);
  }

  lemma IndexIsNotUnique(rest: string)
    ensures TakeKw(Kw(true, "INDEX") + rest, "unique").None?
  {
    ConcatAssoc("INDEX", " ", rest);
    UpperWord("INDEX", "index");
    OtherWordIsNoKw("INDEX", " " + rest, "unique");
  }

  lemma UniqueIsTaken(unique: bool, rest: string)
    ensures var s := Kw(unique, "UNIQUE") + (Kw(true, "INDEX") + rest);
            && Solid(s)
            && TakeKw(s, "unique") == if unique then Some(Kw(true, "INDEX") + rest) else None
  {
    var index := Kw(true, "INDEX") + rest;
    assert index[0] == 'I';
    if unique {
      TakesUniqueKw(index);
      assert (Kw(unique, "UNIQUE") + index)[0] == 'U';
    } else {
      assert "" + index == index;
      IndexIsNotUnique(rest);
    }
  }

  // The name, with IF NOT EXISTS in front of it or without.
  function GuardedPart(guarded: bool, named: string): string {
    Kw(guarded, "IF") + (Kw(guarded, "NOT") + (Kw(guarded, "EXISTS") + named))
  }

  lemma NoGuardText(named: string)
    ensures GuardedPart(false, named) == named
  {
    assert "" + named == named;
  }

  lemma TakesIfKw(rest: string)
    requires Solid(rest)
    ensures TakeKw(Kw(true, "IF") + rest, "if") == Some(rest)
  {
    TakesKw("IF", "if", rest);
  }

  lemma TakesNotKw(rest: string)
    requires Solid(rest)
    ensures TakeKw(Kw(true, "NOT") + rest, "not") == Some(rest)
  {
    TakesKw("NOT", "not", rest);
  }

  lemma TakesExistsKw(rest: string)
    requires Solid(rest)
    ensures TakeKw(Kw(true, "EXISTS") + rest, "exists") == Some(rest)
  {
    TakesKw("EXISTS", "exists", rest);
  }

  lemma IfIsNotConcurrently(rest: string)
    ensures TakeKw(Kw(true, "IF") + rest, "concurrently").None?
  {
    ConcatAssoc("IF", " ", rest);
    UpperWord("IF", "if");
    LowerHasNoSpaces("concurrently");
    OtherWordIsNoKw("IF", " " + rest, "concurrently");
  }

  lemma KwIsSolid(word: string, rest: string)
    requires Solid(word)
    ensures Solid(Kw(true, word) + rest)
  {
    assert (Kw(true, word) + rest)[0] == word[0];
  }

  lemma GuardIsTaken(named: string)
    requires Solid(named)
    ensures TakeGuard(GuardedPart(true, named)) == Some(named)
  {
    var exists' := Kw(true, "EXISTS") + named;
    var not' := Kw(true, "NOT") + exists';
    KwIsSolid("EXISTS", named);
    KwIsSolid("NOT", exists');
    TakesIfKw(not');
    TakesNotKw(exists');
    TakesExistsKw(named);
  }

  lemma IndexedPartIsTaken(guarded: bool, p: string, name: string, target: string)
    requires Spells(p, name) && Solid(target)
    ensures TakeIndexed(GuardedPart(guarded, NamedPart(p, target))) == Some(name)
  {
    var named := NamedPart(p, target);
    NamedPartIsTaken(p, name, target);
    if guarded {
      NamedPartIsSolid(p, name, target);
      GuardIsTaken(named);
      IfIsNotConcurrently(Kw(true, "NOT") + (Kw(true, "EXISTS") + named));
    } else {
      NoGuardText(named);
      NoConcurrentlyIsTaken(p, name, target);
      NoGuardIsTaken(p, name, target);
    }
  }

  lemma NamedPartIsSolid(p: string, name: string, target: string)
    requires Spells(p, name)
    ensures Solid(NamedPart(p, target))
  {
    SpellingIsSolid(p, name);
    assert NamedPart(p, target)[0] == p[0];
  }

  lemma GuardedPartIsSolid(guarded: bool, p: string, name: string, target: string)
    requires Spells(p, name)
    ensures Solid(GuardedPart(guarded, NamedPart(p, target)))
  {
    var named := NamedPart(p, target);
    NamedPartIsSolid(p, name, target);
    if guarded {
      KwIsSolid("IF", Kw(true, "NOT") + (Kw(true, "EXISTS") + named));
    } else {
      NoGuardText(named);
    }
  }

  lemma GateSteps(s: string, a: string, b: string, c: string, name: string)
    requires TakeKw(s, "create") == Some(a)
    requires TakeKw(a, "unique") == Some(b) || (TakeKw(a, "unique").None? && b == a)
    requires TakeKw(b, "index") == Some(c) && TakeIndexed(c) == Some(name)
    ensures GateName(s) == Some(name)
  {
  }

  // A whole definition.
  function DefText(unique: bool, guarded: bool, p: string, target: string): string {
    Kw(true, "CREATE") + (Kw(unique, "UNIQUE") + (Kw(true, "INDEX") + GuardedPart(guarded, NamedPart(p, target))))
  }

  /** The gate takes every definition written this way, bare or quoted name, with
      IF NOT EXISTS or without, and captures the name as it is spelled. */
  lemma GatePasses(unique: bool, guarded: bool, p: string, name: string, target: string)
    requires Spells(p, name) && Solid(target)
    ensures GateName(DefText(unique, guarded, p, target)) == Some(name)
    ensures Solid(DefText(unique, guarded, p, target))
  {
    var part := GuardedPart(guarded, NamedPart(p, target));
    var index := Kw(true, "INDEX") + part;
    var unique' := Kw(unique, "UNIQUE") + index;
    GuardedPartIsSolid(guarded, p, name, target);
    UniqueIsTaken(unique, part);
    TakesCreateKw(unique');
    TakesIndexKw(part);
    IndexedPartIsTaken(guarded, p, name, target);
    assert !unique ==> unique' == index;
    KwIsSolid("CREATE", unique');
    GateSteps(Kw(true, "CREATE") + unique', unique', index, part, name);
  }

  /** The gate takes the printed definition of an index with a plain ASCII name, and
      captures that name. */
  lemma GateTakesPrintedDef(s: Server, k: RelName)
    requires Sane(s) && IsIndex(s, k) && IsIdent(k.1)
    ensures GateName(PrintDef(s, k)) == Some(k.1)
    ensures Solid(PrintDef(s, k))
  {
    assert GoodIndex(s, k);
    PrintedNameSpells(k.1, s.reserved);
    TargetIsSolid(s, k);
    GatePasses(s.rels[k].unique, false, PrintName(k.1, s.reserved), k.1, TargetText(s, k));
    PrintedAsDefText(s, k);
  }

  // What a printed definition says after ON.
  function TargetText(s: Server, k: RelName): string
    requires IsIndex(s, k)
  {
    var r := s.rels[k];
    TableText(r.table, s.reserved) + (" " + PrintAll(r.body))
  }

  lemma TargetIsSolid(s: Server, k: RelName)
    requires Sane(s) && IsIndex(s, k)
    ensures Solid(TargetText(s, k))
  {
    assert GoodIndex(s, k);
    NameStartsSolid(s.rels[k].table.0, s.reserved);
    assert TargetText(s, k)[0] == PrintName(s.rels[k].table.0, s.reserved)[0];
  }

  lemma PrintedAsDefText(s: Server, k: RelName)
    requires IsIndex(s, k)
    ensures PrintDef(s, k) == DefText(s.rels[k].unique, false, PrintName(k.1, s.reserved), TargetText(s, k))
  {
    var named := NamedPart(PrintName(k.1, s.reserved), TargetText(s, k));
    NoGuardText(named);
    assert Kw(false, "CONCURRENTLY") + named == named;
  }

  lemma NameStartsSolid(n: string, reserved: set<string>)
    requires n != ""
    ensures Solid(PrintName(n, reserved))
  {
  }

  lemma TrimsNothing(s: string)
    requires Solid(s) && !PySpace(s[|s| - 1])
    ensures Trim(s) == s
  {
  }

  // ── what is captured is a plain name, and what is sent is a CREATE INDEX ─

  lemma TakenIsIdent(s: string)
    ensures TakeIdent(s).Some? ==> IsIdent(TakeIdent(s).value.0)
  {
    var t := if StartsWith(s, '"') then s[1..] else s;
    IdentEndIsIdent(t);
  }

  lemma {:induction false} IdentEndIsIdent(t: string)
    ensures AllIdentParts(t[..IdentEnd(t)])
    ensures t != "" && IsIdentStart(t[0]) ==> IdentEnd(t) > 0
  {
    if t != "" && IsIdentPart(t[0]) {
      IdentEndIsIdent(t[1..]);
      assert t[..IdentEnd(t)] == [t[0]] + t[1..][..IdentEnd(t[1..])];
    }
  }

  lemma NamedIsIdent(s: string)
    ensures TakeNamed(s).Some? ==> IsIdent(TakeNamed(s).value)
  {
    TakenIsIdent(s);
  }

  lemma RestIsIdent(s: string)
    ensures TakeRest(s).Some? ==> IsIdent(TakeRest(s).value)
  {
    NamedIsIdent(s);
    if TakeGuard(s).Some? {
      NamedIsIdent(TakeGuard(s).value);
    }
  }

  lemma GatedNameIsIdent(s: string)
    ensures GateName(s).Some? ==> IsIdent(GateName(s).value)
  {
    if GateName(s).Some? {
      var a := TakeKw(s, "create").value;
      var c := TakeKw(if TakeKw(a, "unique").Some? then TakeKw(a, "unique").value else a, "index").value;
      RestIsIdent(c);
      if TakeKw(c, "concurrently").Some? {
        RestIsIdent(TakeKw(c, "concurrently").value);
      }
    }
  }

  lemma WordIsNotEmpty(s: string)
    requires s != "" && IsWordStart(s[0])
    ensures WordEnd(s) > 0
  {
  }

  lemma FirstTokenIsTheWord(s: string)
    requires s != "" && IsWordStart(s[0])
    ensures Lex(s) == [Word(Fold(s[..WordEnd(s)]))] + Lex(s[WordEnd(s)..])
  {
    var n := WordEnd(s);
    WordIsNotEmpty(s);
    assert s[..n] + s[n..] == s;
    LexWord(s[..n], s[n..]);
  }

  lemma GatedStartsWithC(s: string)
    requires GateName(s).Some?
    ensures s != "" && (s[0] == 'c' || s[0] == 'C')
  {
    assert Fold(s[..6]) == "create";
    assert Fold(s[..6])[0] == 'c';
  }

  /** Whatever passes the gate, if the server can parse it at all it is a CREATE INDEX. */
  lemma GatedParsesToCreate(s: string, reserved: set<string>)
    requires GateName(s).Some? && Parse(Lex(s), reserved).Some?
    ensures Parse(Lex(s), reserved).value.CreateIndex?
  {
    GatedStartsWithC(s);
    FirstTokenIsTheWord(s);
    WordIsNotEmpty(s);
    var word := Fold(s[..WordEnd(s)]);
    assert word[0] == 'c';
    assert !At(Lex(s), "drop") && !At(Lex(s), "alter");
    CreateParsesToCreate(Lex(s)[1..], reserved);
  }

  lemma CreateParsesToCreate(ts: seq<Token>, reserved: set<string>)
    ensures ParseCreate(ts, reserved).Some? ==> ParseCreate(ts, reserved).value.CreateIndex?
  {
  }

  // ── what the server reads in such a definition ──────────────────────────

  lemma LexIfKw(on: bool, rest: string)
    ensures Lex(Kw(on, "IF") + rest) == KwToken(on, "if") + Lex(rest)
  {
    LexKw(on, "IF", "if", rest);
  }

  lemma LexNotKw(on: bool, rest: string)
    ensures Lex(Kw(on, "NOT") + rest) == KwToken(on, "not") + Lex(rest)
  {
    LexKw(on, "NOT", "not", rest);
  }

  lemma LexExistsKw(on: bool, rest: string)
    ensures Lex(Kw(on, "EXISTS") + rest) == KwToken(on, "exists") + Lex(rest)
  {
    LexKw(on, "EXISTS", "exists", rest);
  }

  function GuardTokens(guarded: bool): seq<Token> {
    if guarded then [Word("if"), Word("not"), Word("exists")] else []
  }

  lemma LexGuarded(guarded: bool, named: string)
    ensures Lex(GuardedPart(guarded, named)) == GuardTokens(guarded) + Lex(named)
  {
    LexExistsKw(guarded, named);
    LexNotKw(guarded, Kw(guarded, "EXISTS") + named);
    LexIfKw(guarded, Kw(guarded, "NOT") + (Kw(guarded, "EXISTS") + named));
  }

  lemma LexDefText(unique: bool, guarded: bool, p: string, target: string)
    ensures Lex(DefText(unique, guarded, p, target)) ==
            [Word("create")] + (KwToken(unique, "unique") + ([Word("index")] +
              (GuardTokens(guarded) + Lex(NamedPart(p, target)))))
  {
    var named := NamedPart(p, target);
    LexGuarded(guarded, named);
    LexIndexKw(GuardedPart(guarded, named));
    LexUniqueKw(unique, Kw(true, "INDEX") + GuardedPart(guarded, named));
    LexCreateKw(Kw(unique, "UNIQUE") + (Kw(true, "INDEX") + GuardedPart(guarded, named)));
  }

  lemma GuardIsRead(guarded: bool, target: seq<Token>)
    requires !Guarded(target) && !At(target, "concurrently")
    ensures var ts := GuardTokens(guarded) + target;
            Opt(ts, "concurrently") == ts && Guarded(ts) == guarded && Unguarded(ts) == target
  {
    var ts := GuardTokens(guarded) + target;
    if guarded {
      assert ts[1..][0] == Word("not") && ts[2..][0] == Word("exists") && ts[3..] == target;
    } else {
      assert ts == target;
    }
  }

  lemma ParsesGuardedCreate(unique: bool, guarded: bool, target: seq<Token>, st: Stmt, reserved: set<string>)
    requires !Guarded(target) && !At(target, "concurrently")
    requires ParseTarget(target, unique, guarded, reserved) == Some(st)
    ensures ParseCreate(KwToken(unique, "unique") + ([Word("index")] + (GuardTokens(guarded) + target)), reserved) == Some(st)
  {
    var ts := GuardTokens(guarded) + target;
    GuardIsRead(guarded, target);
    Rest(Word("index"), ts);
    OptTakes(unique, "unique", [Word("index")] + ts);
  }

  lemma UnbrokenDef(unique: bool, guarded: bool, target: seq<Token>)
    requires Broken !in target
    ensures Broken !in [Word("create")] + (KwToken(unique, "unique") + ([Word("index")] + (GuardTokens(guarded) + target)))
  {
    assert Broken !in GuardTokens(guarded) + target;
  }

  lemma ParsesDefTokens(unique: bool, guarded: bool, target: seq<Token>, st: Stmt, reserved: set<string>)
    requires !Guarded(target) && !At(target, "concurrently") && Broken !in target
    requires ParseTarget(target, unique, guarded, reserved) == Some(st)
    ensures Parse([Word("create")] + (KwToken(unique, "unique") + ([Word("index")] + (GuardTokens(guarded) + target))),
                  reserved) == Some(st)
  {
    ParsesGuardedCreate(unique, guarded, target, st, reserved);
    Rest(Word("create"), KwToken(unique, "unique") + ([Word("index")] + (GuardTokens(guarded) + target)));
    UnbrokenDef(unique, guarded, target);
  }

  lemma ParsesGuardedTarget(i: Token, name: string, ts: seq<Token>, table: Name, body: seq<Token>, unique: bool,
                            guarded: bool, reserved: set<string>)
    requires Ident(i, reserved) == Some(name) && body != []
    requires ReadName(ts + body, reserved) == Some((table, body)) && !At(ts + body, "only")
    ensures ParseTarget([i] + ([Word("on")] + (ts + body)), unique, guarded, reserved) ==
            Some(CreateIndex(unique, guarded, name, table, body))
  {
    var tail := [Word("on")] + (ts + body);
    Rest(i, tail);
    Rest(Word("on"), ts + body);
    assert ([i] + tail)[2..] == ts + body;
  }

  /** A definition whose name reads as one token is parsed to exactly what it says; the name
      is the server's reading of the token, so an unquoted one is folded. */
  lemma DefTextParses(unique: bool, guarded: bool, p: string, i: Token, name: string, t: RelName, bodyText: string,
                      reserved: set<string>)
    requires GrammarReserved(reserved) && t.0 != "" && t.1 != ""
    requires Reads(p, [i]) && Ident(i, reserved) == Some(name)
    requires Lex(bodyText) != [] && Broken !in Lex(bodyText)
    ensures Parse(Lex(DefText(unique, guarded, p, TableText(t, reserved) + (" " + bodyText))), reserved) ==
            Some(CreateIndex(unique, guarded, name, Name(Some(t.0), t.1), Lex(bodyText)))
  {
    var ts, body := TableTokens(t, reserved), Lex(bodyText);
    LexDefText(unique, guarded, p, TableText(t, reserved) + (" " + bodyText));
    PrintedTableReads(t, reserved);
    LexOnPart(p, i, TableText(t, reserved), ts, bodyText);
    PrintedTableIsRead(t, body, reserved);
    ParsesGuardedTarget(i, name, ts, Name(Some(t.0), t.1), body, unique, guarded, reserved);
    TargetTokens(i, ts, body, reserved);
    ParsesDefTokens(unique, guarded, [i] + ([Word("on")] + (ts + body)),
                    CreateIndex(unique, guarded, name, Name(Some(t.0), t.1), body), reserved);
  }

  lemma TargetTokens(i: Token, ts: seq<Token>, body: seq<Token>, reserved: set<string>)
    requires GrammarReserved(reserved) && Ident(i, reserved).Some? && Broken !in ts && Broken !in body
    ensures var target := [i] + ([Word("on")] + (ts + body));
            !Guarded(target) && !At(target, "concurrently") && Broken !in target
  {
    Rest(i, [Word("on")] + (ts + body));
    Rest(Word("on"), ts + body);
  }

  // An unquoted name, as the server reads it.
  lemma BareNameReads(name: string, reserved: set<string>)
    requires IsIdent(name) && Fold(name) !in reserved
    ensures Reads(name, [Word(Fold(name))]) && Ident(Word(Fold(name)), reserved) == Some(Fold(name))
  {
    forall i | 0 <= i < |name| ensures IsWordPart(name[i]) {
      assert IsIdentPart(name[i]);
    }
    forall rest | rest == "" || rest[0] == ' ' ensures Lex(name + rest) == [Word(Fold(name))] + Lex(rest) {
      LexWord(name, rest);
    }
  }
}
