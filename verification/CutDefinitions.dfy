/**
 Captured definitions that come back changed.

 `drop_index` keeps the definition through `sanitize`, which takes control and format
 characters out and cuts at 2000; the replay trims white space and semicolons off its end.
 The results here say that a definition which any of this changed never brings the index
 back: read by the server, it is refused or makes another index.
 */
module CutDefinitions {
  import opened Common
  import opened Json
  import opened Sql
  import opened Server
  import opened Statements
  import opened IndexDef
  import opened Outcome
  import opened Remediation
  import opened Reversal
  import opened Ink
  import opened Sanitize

  // ── names, stripped ─────────────────────────────────────────────────────

  lemma {:induction false} StripDoubled(v: string)
    ensures Strip(Double('"', v)) == Double('"', Strip(v))
  {
    if v != "" {
      StripDoubled(v[1..]);
      StripConcat(if v[0] == '"' then ['"', '"'] else [v[0]], Double('"', v[1..]));
      assert IsPlain('"');
      if IsPlain(v[0]) {
        StripKeepsPlain(if v[0] == '"' then ['"', '"'] else [v[0]]);
        assert Strip(v) == [v[0]] + Strip(v[1..]);
        assert Strip(v)[1..] == Strip(v[1..]);
      } else {
        assert Strip([v[0]]) == "";
        assert Strip(v) == Strip(v[1..]);
      }
    }
  }

  lemma StripDelimited(n: string)
    ensures Strip(Delimit(n)) == Delimit(Strip(n))
  {
    StripDoubled(n);
    StripConcat("\"" + Double('"', n), "\"");
    StripConcat("\"", Double('"', n));
    StripKeepsPlain("\"");
  }

  function StrippedToken(n: string, reserved: set<string>): Token {
    if Bare(n, reserved) then Word(n) else Quoted(Strip(n))
  }

  lemma BareIsPlain(n: string, reserved: set<string>)
    requires Bare(n, reserved)
    ensures AllPlain(n)
  {
  }

  lemma StrippedName(n: string, reserved: set<string>)
    ensures Strip(PrintName(n, reserved)) == PrintToken(StrippedToken(n, reserved))
  {
    if Bare(n, reserved) {
      BareIsPlain(n, reserved);
      StripKeepsPlain(n);
    } else {
      StripDelimited(n);
    }
  }

  lemma LexStripped(n: string, reserved: set<string>, rest: string)
    requires EndsWord(rest) && !StartsWith(rest, '"')
    ensures Lex(PrintToken(StrippedToken(n, reserved)) + rest) == [StrippedToken(n, reserved)] + Lex(rest)
  {
    if Bare(n, reserved) {
      FoldOfLower(n);
      LexWord(n, rest);
    } else {
      LexDelimited(Strip(n), rest);
    }
  }

  lemma StrippedIdent(n: string, reserved: set<string>)
    ensures var i := Ident(StrippedToken(n, reserved), reserved); i.Some? ==> i.value == Strip(n)
  {
    if Bare(n, reserved) {
      BareIsPlain(n, reserved);
      StripKeepsPlain(n);
    }
  }

  function StrippedTable(t: RelName, reserved: set<string>): string {
    PrintToken(StrippedToken(t.0, reserved)) + ("." + PrintToken(StrippedToken(t.1, reserved)))
  }

  function StrippedTokens(t: RelName, reserved: set<string>): seq<Token> {
    [StrippedToken(t.0, reserved)] + ([Punct('.')] + [StrippedToken(t.1, reserved)])
  }

  lemma TableStrips(t: RelName, reserved: set<string>)
    ensures Strip(TableText(t, reserved)) == StrippedTable(t, reserved)
  {
    var a, b := PrintName(t.0, reserved), PrintName(t.1, reserved);
    StrippedName(t.0, reserved);
    StrippedName(t.1, reserved);
    StripConcat(a, "." + b);
    StripConcat(".", b);
    StripKeepsPlain(".");
  }

  lemma LexStrippedTable(t: RelName, reserved: set<string>, rest: string)
    requires rest == "" || rest[0] == ' '
    ensures Lex(StrippedTable(t, reserved) + rest) == StrippedTokens(t, reserved) + Lex(rest)
  {
    var a, b := PrintToken(StrippedToken(t.0, reserved)), PrintToken(StrippedToken(t.1, reserved));
    LexStripped(t.1, reserved, rest);
    DotIsRead(b + rest);
    LexStripped(t.0, reserved, "." + (b + rest));
    LexDotted(a, StrippedToken(t.0, reserved), b, StrippedToken(t.1, reserved), rest);
  }

  lemma LexDotted(a: string, i: Token, b: string, j: Token, rest: string)
    requires Lex(b + rest) == [j] + Lex(rest) && Lex(a + ("." + (b + rest))) == [i] + Lex("." + (b + rest))
    ensures Lex((a + ("." + b)) + rest) == ([i] + ([Punct('.')] + [j])) + Lex(rest)
  {
    DotIsRead(b + rest);
    DottedAssoc(a, b, rest);
  }

  // ── the front of a definition ───────────────────────────────────────────

  // Everything up to the table.
  function Front(unique: bool, p: string, table: string): string {
    Kw(true, "CREATE") + (Kw(unique, "UNIQUE") + (Kw(true, "INDEX") + (p + (" " + (Kw(true, "ON") + table)))))
  }

  lemma FrontThen(unique: bool, p: string, table: string, z: string)
    ensures Front(unique, p, table) + z == DefText(unique, false, p, table + z)
  {
    var on := Kw(true, "ON") + table;
    NoGuardText(NamedPart(p, table + z));
    ConcatAssoc(Kw(true, "ON"), table, z);
    ConcatAssoc(" ", on, z);
    ConcatAssoc(p, " " + on, z);
    ConcatAssoc(Kw(true, "INDEX"), p + (" " + on), z);
    ConcatAssoc(Kw(unique, "UNIQUE"), Kw(true, "INDEX") + (p + (" " + on)), z);
    ConcatAssoc(Kw(true, "CREATE"), Kw(unique, "UNIQUE") + (Kw(true, "INDEX") + (p + (" " + on))), z);
  }

  lemma WordsArePlain(unique: bool)
    ensures AllPlain(Kw(true, "CREATE")) && AllPlain(Kw(unique, "UNIQUE")) && AllPlain(Kw(true, "INDEX"))
    ensures AllPlain(Kw(true, "ON")) && AllPlain(" ")
  {
  }

  lemma PlainThenStrips(a: string, b: string)
    requires AllPlain(a)
    ensures Strip(a + b) == a + Strip(b)
  {
    StripConcat(a, b);
    StripKeepsPlain(a);
  }

  lemma FrontStrips(unique: bool, p: string, table: string)
    requires AllPlain(p)
    ensures Strip(Front(unique, p, table)) == Front(unique, p, Strip(table))
  {
    WordsArePlain(unique);
    var on := Kw(true, "ON") + table;
    var index := Kw(true, "INDEX") + (p + (" " + on));
    PlainThenStrips(Kw(true, "ON"), table);
    PlainThenStrips(" ", on);
    PlainThenStrips(p, " " + on);
    PlainThenStrips(Kw(true, "INDEX"), p + (" " + on));
    PlainThenStrips(Kw(unique, "UNIQUE"), index);
    PlainThenStrips(Kw(true, "CREATE"), Kw(unique, "UNIQUE") + index);
  }

  lemma LexNamed(p: string, i: Token, t: RelName, reserved: set<string>, z: string)
    requires Reads(p, [i]) && (z == "" || z[0] == ' ')
    ensures Lex(NamedPart(p, StrippedTable(t, reserved) + z)) == [i] + ([Word("on")] + (StrippedTokens(t, reserved) + Lex(z)))
  {
    LexStrippedTable(t, reserved, z);
    var target := StrippedTable(t, reserved) + z;
    LexKw(true, "ON", "on", target);
    var tail := Kw(true, "ON") + target;
    LexSpace(tail);
    assert (" " + tail)[0] == ' ';
    assert Lex(p + (" " + tail)) == [i] + Lex(" " + tail);
  }

  lemma LexKept(unique: bool, p: string, i: Token, t: RelName, reserved: set<string>, z: string)
    requires Reads(p, [i]) && (z == "" || z[0] == ' ')
    ensures Lex(Front(unique, p, StrippedTable(t, reserved)) + z) ==
            [Word("create")] + (KwToken(unique, "unique") + ([Word("index")] +
              ([i] + ([Word("on")] + (StrippedTokens(t, reserved) + Lex(z))))))
  {
    FrontThen(unique, p, StrippedTable(t, reserved), z);
    LexDefText(unique, false, p, StrippedTable(t, reserved) + z);
    LexNamed(p, i, t, reserved, z);
    var target := [i] + ([Word("on")] + (StrippedTokens(t, reserved) + Lex(z)));
    assert GuardTokens(false) + target == target;
  }

  lemma ParseOfTarget(unique: bool, target: seq<Token>, reserved: set<string>)
    requires !Guarded(target) && !At(target, "concurrently")
    ensures Parse([Word("create")] + (KwToken(unique, "unique") + ([Word("index")] + target)), reserved) ==
            if Broken in target then None else ParseTarget(target, unique, false, reserved)
  {
    var made := KwToken(unique, "unique") + ([Word("index")] + target);
    Rest(Word("create"), made);
    Rest(Word("index"), target);
    OptTakes(unique, "unique", [Word("index")] + target);
    if Broken in target {
      InMade(unique, target);
    } else {
      assert Broken !in [Word("create")] + made;
    }
  }

  lemma InMade(unique: bool, target: seq<Token>)
    requires Broken in target
    ensures Broken in [Word("create")] + (KwToken(unique, "unique") + ([Word("index")] + target))
  {
    assert Broken in [Word("index")] + target;
    assert Broken in KwToken(unique, "unique") + ([Word("index")] + target);
  }

  lemma TargetReads(unique: bool, i: Token, name: string, t: RelName, body: seq<Token>, reserved: set<string>)
    requires GrammarReserved(reserved) && Ident(i, reserved) == Some(name)
    ensures var target := [i] + ([Word("on")] + (StrippedTokens(t, reserved) + body));
            && !Guarded(target) && !At(target, "concurrently")
            && var st := ParseTarget(target, unique, false, reserved);
               st.Some? ==> st.value == CreateIndex(unique, false, name, Name(Some(Strip(t.0)), Strip(t.1)), body)
  {
    var ts := StrippedTokens(t, reserved);
    var tail := [Word("on")] + (ts + body);
    Rest(i, tail);
    Rest(Word("on"), ts + body);
    assert ([i] + tail)[2..] == ts + body;
    StrippedIdent(t.0, reserved);
    StrippedIdent(t.1, reserved);
    assert (ts + body)[3..] == body;
    assert !At(ts + body, "only");
  }

  /** What the server reads in a definition whose table was stripped and whose body is any text:
      nothing, or that create with exactly the body read in it. */
  lemma KeptParses(unique: bool, name: string, t: RelName, reserved: set<string>, z: string)
    requires GrammarReserved(reserved) && name != "" && (z == "" || z[0] == ' ')
    ensures var parsed := Parse(Lex(Front(unique, PrintName(name, reserved), StrippedTable(t, reserved)) + z), reserved);
            parsed.Some? ==>
              && parsed.value == CreateIndex(unique, false, name, Name(Some(Strip(t.0)), Strip(t.1)), Lex(z))
              && Broken !in Lex(z)
  {
    var i := NameToken(name, reserved);
    PrintedNameReads(name, reserved);
    NameTokenReads(name, reserved);
    LexKept(unique, PrintName(name, reserved), i, t, reserved, z);
    TargetReads(unique, i, name, t, Lex(z), reserved);
    var target := [i] + ([Word("on")] + (StrippedTokens(t, reserved) + Lex(z)));
    ParseOfTarget(unique, target, reserved);
    if Broken in Lex(z) {
      assert Broken in target;
    }
  }

  // ── the end of a definition ─────────────────────────────────────────────

  predicate Loose(c: char) {
    PySpace(c) || c == ';'
  }

  // What trimming leaves of a text behind a solid front.
  function Tail(z: string): string {
    TrimRight(DropSemicolons(TrimRight(z)))
  }

  lemma {:induction false} TrimBehind(q: string, z: string)
    requires q != "" && !PySpace(q[|q| - 1])
    ensures TrimRight(q + z) == q + TrimRight(z)
    decreases |z|
  {
    if z == "" {
      assert q + z == q;
    } else if PySpace(z[|z| - 1]) {
      assert (q + z)[..|q + z| - 1] == q + z[..|z| - 1];
      TrimBehind(q, z[..|z| - 1]);
    }
  }

  lemma {:induction false} DropBehind(q: string, z: string)
    requires q != "" && q[|q| - 1] != ';'
    ensures DropSemicolons(q + z) == q + DropSemicolons(z)
    decreases |z|
  {
    if z == "" {
      assert q + z == q;
    } else if z[|z| - 1] == ';' {
      assert (q + z)[..|q + z| - 1] == q + z[..|z| - 1];
      DropBehind(q, z[..|z| - 1]);
    }
  }

  lemma StaysSolid(q: string, z: string)
    requires Solid(q)
    ensures TrimLeft(q + z) == q + z
  {
  }

  lemma TrimsTheTail(q: string, z: string)
    requires Solid(q) && !Loose(q[|q| - 1])
    ensures Trim(DropSemicolons(Trim(q + z))) == q + Tail(z)
  {
    StaysSolid(q, z);
    TrimBehind(q, z);
    DropBehind(q, TrimRight(z));
    StaysSolid(q, DropSemicolons(TrimRight(z)));
    TrimBehind(q, DropSemicolons(TrimRight(z)));
  }

  lemma TailBehind(q: string, z: string)
    requires q != "" && !Loose(q[|q| - 1])
    ensures Tail(q + z) == q + Tail(z)
  {
    TrimBehind(q, z);
    DropBehind(q, TrimRight(z));
    TrimBehind(q, DropSemicolons(TrimRight(z)));
  }

  lemma {:induction false} TrimIsPrefix(z: string)
    ensures var t := TrimRight(z); |t| <= |z| && t == z[..|t|]
    decreases |z|
  {
    if z != "" && PySpace(z[|z| - 1]) {
      TrimIsPrefix(z[..|z| - 1]);
    }
  }

  lemma {:induction false} DropIsPrefix(z: string)
    ensures var t := DropSemicolons(z); |t| <= |z| && t == z[..|t|]
    decreases |z|
  {
    if z != "" && z[|z| - 1] == ';' {
      DropIsPrefix(z[..|z| - 1]);
    }
  }

  // Trimming leaves a front part, and all of it unless the last character is loose.
  lemma TailIsPrefix(z: string)
    ensures var t := Tail(z); |t| <= |z| && t == z[..|t|]
    ensures z == "" || !Loose(z[|z| - 1]) ==> Tail(z) == z
  {
    var a, b := TrimRight(z), DropSemicolons(TrimRight(z));
    TrimIsPrefix(z);
    DropIsPrefix(a);
    TrimIsPrefix(b);
  }

  // ── the text that is sent ───────────────────────────────────────────────

  // No name is longer than the server allows.
  predicate ShortNames(s: Server, k: RelName)
    requires IsIndex(s, k)
  {
    |k.1| <= 63 && |s.rels[k].table.0| <= 63 && |s.rels[k].table.1| <= 63
  }

  function StrippedFront(s: Server, k: RelName): string
    requires IsIndex(s, k)
  {
    Front(s.rels[k].unique, PrintName(k.1, s.reserved), StrippedTable(s.rels[k].table, s.reserved))
  }

  lemma {:induction false} DoubledLength(v: string)
    ensures |Double('"', v)| <= 2 * |v|
  {
    if v != "" {
      DoubledLength(v[1..]);
    }
  }

  lemma StrippedLength(n: string, reserved: set<string>)
    requires |n| <= 63
    ensures |PrintToken(StrippedToken(n, reserved))| <= 128
  {
    StripIsPlain(n);
    DoubledLength(Strip(n));
  }

  lemma PlainNameIsPlain(n: string, reserved: set<string>)
    requires IsIdent(n)
    ensures AllPlain(n) && Strip(n) == n && AllPlain(PrintName(n, reserved))
    ensures PrintToken(StrippedToken(n, reserved)) == PrintName(n, reserved)
  {
    forall i | 0 <= i < |n| ensures IsPlain(n[i]) {
      assert IsIdentPart(n[i]);
    }
    StripKeepsPlain(n);
    IdentHasNoQuote(n);
    NothingToDouble('"', n);
  }

  lemma FrontIsShort(s: Server, k: RelName)
    requires IsIndex(s, k) && ShortNames(s, k) && IsIdent(k.1)
    ensures |StrippedFront(s, k)| <= 500
  {
    PlainNameIsPlain(k.1, s.reserved);
    StrippedLength(k.1, s.reserved);
    StrippedLength(s.rels[k].table.0, s.reserved);
    StrippedLength(s.rels[k].table.1, s.reserved);
  }

  lemma EndsSolid(a: string, b: string)
    requires b != ""
    ensures (a + b)[|a + b| - 1] == b[|b| - 1]
  {
  }

  lemma StrippedEnd(n: string, reserved: set<string>)
    ensures var p := PrintToken(StrippedToken(n, reserved)); p != "" && !Loose(p[|p| - 1])
  {
  }

  lemma FrontIsSolid(s: Server, k: RelName)
    requires IsIndex(s, k)
    ensures var q := StrippedFront(s, k); Solid(q) && !Loose(q[|q| - 1])
  {
    var t := s.rels[k].table;
    var b := PrintToken(StrippedToken(t.1, s.reserved));
    StrippedEnd(t.1, s.reserved);
    var table := StrippedTable(t, s.reserved);
    assert table == (PrintToken(StrippedToken(t.0, s.reserved)) + ".") + b;
    var index := Kw(true, "INDEX") + (PrintName(k.1, s.reserved) + (" " + (Kw(true, "ON") + table)));
    assert index[|index| - 1] == b[|b| - 1];
    KwIsSolid("CREATE", Kw(s.rels[k].unique, "UNIQUE") + index);
  }

  // What is behind the front once the definition was captured.
  function KeptRest(s: Server, k: RelName): string
    requires IsIndex(s, k) && |StrippedFront(s, k)| <= 500
  {
    var q, b := StrippedFront(s, k), Strip(PrintAll(s.rels[k].body));
    if |q| + 1 + |b| <= DEF_MAX then " " + b else " " + (b[..DEF_MAX - 2 - |q|] + [ELLIPSIS])
  }

  lemma DefIsFront(s: Server, k: RelName)
    requires IsIndex(s, k)
    ensures PrintDef(s, k) == Front(s.rels[k].unique, PrintName(k.1, s.reserved), TableText(s.rels[k].table, s.reserved))
                              + (" " + PrintAll(s.rels[k].body))
  {
    PrintedAsDefText(s, k);
    FrontThen(s.rels[k].unique, PrintName(k.1, s.reserved), TableText(s.rels[k].table, s.reserved),
              " " + PrintAll(s.rels[k].body));
  }

  lemma StrippedDef(s: Server, k: RelName)
    requires IsIndex(s, k) && IsIdent(k.1)
    ensures Strip(PrintDef(s, k)) == StrippedFront(s, k) + (" " + Strip(PrintAll(s.rels[k].body)))
  {
    var r := s.rels[k];
    var p := PrintName(k.1, s.reserved);
    DefIsFront(s, k);
    PlainNameIsPlain(k.1, s.reserved);
    TableStrips(r.table, s.reserved);
    FrontStrips(r.unique, p, TableText(r.table, s.reserved));
    StripConcat(Front(r.unique, p, TableText(r.table, s.reserved)), " " + PrintAll(r.body));
    WordsArePlain(r.unique);
    PlainThenStrips(" ", PrintAll(r.body));
  }

  lemma SanitizedDef(s: Server, k: RelName)
    requires IsIndex(s, k) && IsIdent(k.1) && |StrippedFront(s, k)| <= 500
    ensures Sanitize.Sanitize(PrintDef(s, k), DEF_MAX) == StrippedFront(s, k) + KeptRest(s, k)
  {
    StrippedDef(s, k);
    var q, b := StrippedFront(s, k), Strip(PrintAll(s.rels[k].body));
    if |q| + 1 + |b| > DEF_MAX {
      CutBehind(q, b, DEF_MAX - 1);
    }
  }

  lemma CutBehind(q: string, b: string, n: nat)
    requires |q| + 1 <= n <= |q| + 1 + |b|
    ensures (q + (" " + b))[..n] + [ELLIPSIS] == q + (" " + (b[..n - 1 - |q|] + [ELLIPSIS]))
  {
    assert (q + (" " + b))[..n] == q + (" " + b[..n - 1 - |q|]);
    ConcatAssoc(" ", b[..n - 1 - |q|], [ELLIPSIS]);
    ConcatAssoc(q, " " + b[..n - 1 - |q|], [ELLIPSIS]);
  }

  // The statement the gate would send, if it sends one.
  function SentBack(s: Server, k: RelName): string
    requires IsIndex(s, k) && |StrippedFront(s, k)| <= 500
  {
    StrippedFront(s, k) + Tail(KeptRest(s, k))
  }

  lemma ReplaySends(s: Server, k: RelName, after: Server)
    requires IsIndex(s, k) && IsIdent(k.1) && |StrippedFront(s, k)| <= 500
    ensures var stmt := SentBack(s, k);
            CreateFromDefinition(after, Sanitize.Sanitize(PrintDef(s, k), DEF_MAX), Runs).0 ==
            if ';' in stmt || GateName(stmt).None? then after else Submit(after, stmt).0
  {
    SanitizedDef(s, k);
    FrontIsSolid(s, k);
    TrimsTheTail(StrippedFront(s, k), KeptRest(s, k));
  }

  // ── what would have to be read for the index to come back ───────────────

  lemma TailIsSpaced(s: Server, k: RelName)
    requires IsIndex(s, k) && |StrippedFront(s, k)| <= 500
    ensures var z := Tail(KeptRest(s, k)); z == "" || z[0] == ' '
  {
    TailIsPrefix(KeptRest(s, k));
  }

  // A create that brings back exactly what was taken made exactly that index.
  lemma BackMeansSame(s: Server, d: RelName, st: Stmt)
    requires IsIndex(s, d) && st.CreateIndex? && st.table.schema.Some?
    ensures var after := s.(rels := s.rels - {d});
            Exec(after, st).0 == s ==>
              && d == (st.table.schema.value, st.name)
              && s.rels[d] == Index(st.unique, (st.table.schema.value, st.table.name), Canon(st.body, s.reserved))
  {
    var after := s.(rels := s.rels - {d});
    assert d in s.rels && d !in after.rels;
  }

  lemma RestoredMeans(s: Server, k: RelName, d: RelName)
    requires Sane(s) && IsIndex(s, k) && IsIndex(s, d) && |StrippedFront(s, k)| <= 500
    ensures var r, z, after := s.rels[k], Tail(KeptRest(s, k)), s.(rels := s.rels - {d});
            Submit(after, SentBack(s, k)).0 == s ==>
              && Broken !in Lex(z) && d == (Strip(r.table.0), k.1)
              && s.rels[d] == Index(r.unique, (Strip(r.table.0), Strip(r.table.1)), Canon(Lex(z), s.reserved))
  {
    var r, z, after := s.rels[k], Tail(KeptRest(s, k)), s.(rels := s.rels - {d});
    TailIsSpaced(s, k);
    KeptParses(r.unique, k.1, r.table, s.reserved, z);
    var parsed := Parse(Lex(SentBack(s, k)), s.reserved);
    assert after != s by {
      assert d in s.rels && d !in after.rels;
    }
    if parsed.Some? {
      BackMeansSame(s, d, parsed.value);
    }
  }

  lemma FoldedIdent(part: string)
    requires MatchesIdent(part)
    ensures IsIdent(Fold(Chomp(part)))
  {
    ChompedIsIdent(part);
    var c := Chomp(part);
    forall i | 0 <= i < |c| ensures IsIdentPart(Fold(c)[i]) {
      assert IsIdentPart(c[i]);
    }
  }

  // The captured index's name is plain, and so is its schema if the caller gave one.
  lemma CapturedIsPlain(s: Server, name: string)
    requires Qualify(name).Success? && Captured(s, name).Some?
    ensures var k := Captured(s, name).value; IsIdent(k.1) && (|Split(name)| == 2 ==> IsIdent(k.0))
  {
    RegClassFolds(s, name);
    QualifiedParts(name);
    FoldedLength(Split(name));
    var parts := Split(name);
    FoldedIdent(parts[0]);
    assert FoldedParts(parts)[0] == Fold(Chomp(parts[0]));
    if |parts| == 2 {
      FoldedIdent(parts[1]);
      assert FoldedParts(parts)[1] == FoldedParts(parts[1..])[0] == Fold(Chomp(parts[1]));
    }
  }

  // An index under the captured name, in the captured schema as far as stripping shows, is it.
  lemma SameNameSameIndex(s: Server, name: string, k: RelName, d: RelName)
    requires Qualify(name).Success? && Captured(s, name) == Some(k) && Find(s, QualifiedName(name)) == Some(d)
    requires d == (Strip(k.0), k.1)
    ensures k == d
  {
    RegClassFolds(s, name);
    FoldedLength(Split(name));
    CapturedIsPlain(s, name);
    if |Split(name)| == 2 {
      PlainNameIsPlain(k.0, s.reserved);
    }
  }

  // ── a changed body does not read as the printed one ─────────────────────

  lemma {:induction false} PrintedEnd(ts: seq<Token>, last: string)
    requires ts != [] && PrintToken(ts[|ts| - 1]) == last && last != ""
    ensures var b := PrintAll(ts); b != "" && b[|b| - 1] == last[|last| - 1]
  {
    if |ts| > 1 {
      var rest := PrintAll(ts[1..]);
      assert ts[1..][|ts| - 2] == ts[|ts| - 1];
      PrintedEnd(ts[1..], last);
      EndsSolid(" ", rest);
      EndsSolid(PrintToken(ts[0]), " " + rest);
    }
  }

  lemma LastPrinted(ts: seq<Token>)
    requires AllReadable(ts) && ts != []
    ensures var b, last := PrintAll(ts), PrintToken(ts[|ts| - 1]);
            b != "" && last != "" && b[|b| - 1] == last[|last| - 1] && b[|b| - 1] != ' '
  {
    LastIsWritten(ts[|ts| - 1]);
    PrintedEnd(ts, PrintToken(ts[|ts| - 1]));
  }

  lemma LastIsWritten(t: Token)
    requires Readable(t)
    ensures var p := PrintToken(t); p != "" && p[|p| - 1] != ' '
  {
    match t
    case Word(w) => assert IsWordPart(w[|w| - 1]);
    case Number(w) => assert IsDigit(w[|w| - 1]);
    case _ =>
  }

  lemma UsingFirst(body: seq<Token>)
    requires body != [] && body[0] == Word("using")
    ensures var b := PrintAll(body);
            |b| >= 5 && b[..5] == "using" && (b[5..] == "" || b[5..][0] == ' ')
  {
    if |body| > 1 {
      assert PrintAll(body) == "using" + (" " + PrintAll(body[1..]));
    }
  }

  lemma LexUsing(v: string)
    requires v == "" || v[0] == ' '
    ensures Lex(" using" + v) == [Word("using")] + Lex(v)
  {
    FoldOfLower("using");
    LexWord("using", v);
    LexSpace("using" + v);
    assert " using" + v == " " + ("using" + v);
  }

  lemma StripBehindUsing(w: string)
    requires w == "" || w[0] == ' '
    ensures Strip("using" + w) == "using" + Strip(w) && (Strip(w) == "" || Strip(w)[0] == ' ')
  {
    UsingIsPlain();
    PlainThenStrips("using", w);
  }

  lemma UsingIsPlain()
    ensures AllPlain("using") && !Loose("using"[4]) && " using"[5] == 'g'
  {
  }

  // What is left of the body, at least its first word, and what is read in it.
  lemma TailOfBody(w: string)
    requires w == "" || w[0] == ' '
    ensures At(Lex(Tail(" " + Strip("using" + w))), "using")
  {
    StripBehindUsing(w);
    assert " " + ("using" + Strip(w)) == " using" + Strip(w);
    TailStartsWithUsing(Strip(w));
  }

  lemma TailStartsWithUsing(v: string)
    requires v == "" || v[0] == ' '
    ensures At(Lex(Tail(" using" + v)), "using")
  {
    UsingIsPlain();
    TailBehind(" using", v);
    TailIsPrefix(v);
    LexUsing(Tail(v));
  }

  lemma CanonInk(b: seq<Token>, reserved: set<string>)
    requires GrammarReserved(reserved) && At(b, "using")
    ensures InkOf(Canon(b, reserved)) == InkOf(b)
  {
    InkOfPlainerAll(b, reserved);
  }

  lemma BlankInk(x: string)
    ensures InkIn(" " + x) == InkIn(x)
  {
    InkConcat(" ", x);
  }

  lemma LessInk(b: string)
    requires b != "" && b[|b| - 1] != ' ' && Tail(" " + Strip(b)) != " " + b
    ensures InkIn(Tail(" " + Strip(b))) < InkIn(b)
  {
    var z := " " + Strip(b);
    TailIsPrefix(z);
    FrontHasLessInk(b, |Tail(z)|);
  }

  // A front part of the stripped text, cut only where it ends in something loose.
  lemma FrontHasLessInk(b: string, n: nat)
    requires b != "" && b[|b| - 1] != ' '
    requires var z := " " + Strip(b); n <= |z| && z[..n] != " " + b && (n < |z| ==> Loose(z[|z| - 1]))
    ensures InkIn((" " + Strip(b))[..n]) < InkIn(b)
  {
    var z := " " + Strip(b);
    BlankInk(Strip(b));
    StripTakesInk(b);
    PrefixInk(z, n);
    if Strip(b) == b {
      assert z[|z| - 1] == b[|b| - 1];
      assert z[..|z|] == z;
      assert n < |z|;
    }
  }

  /** A body that was stripped or trimmed is not read as itself: ink is missing. */
  lemma ChangedBodyReadsOtherwise(body: seq<Token>, reserved: set<string>)
    requires GrammarReserved(reserved) && AllReadable(body) && Canon(body, reserved) == body
    requires var z := Tail(" " + Strip(PrintAll(body))); Broken !in Lex(z) && Canon(Lex(z), reserved) == body
    ensures Tail(" " + Strip(PrintAll(body))) == " " + PrintAll(body)
  {
    var b, z := PrintAll(body), Tail(" " + Strip(PrintAll(body)));
    CanonStarts(body, reserved);
    UsingFirst(body);
    assert b == "using" + b[5..];
    TailOfBody(b[5..]);
    CanonInk(Lex(z), reserved);
    InkAtMost(z);
    InkPrinted(body);
    LastPrinted(body);
    if z != " " + b {
      LessInk(b);
    }
  }

  // ── a cut ends in a word of its own ─────────────────────────────────────

  predicate EndsInEllipsis(t: string) {
    t != "" && t[|t| - 1] == ELLIPSIS
  }

  lemma {:induction false} UnquotedRest(s: string, q: char)
    requires Unquote(s, q).Some? && q != ELLIPSIS && EndsInEllipsis(s)
    ensures EndsInEllipsis(Unquote(s, q).value.1)
    decreases |s|
  {
    if s[0] != q {
      if |s| > 1 {
        assert EndsInEllipsis(s[1..]);
        UnquotedRest(s[1..], q);
      }
    } else if |s| > 1 && s[1] == q {
      assert |s| > 2;
      UnquotedRest(s[2..], q);
    }
  }

  // The last token is a word that ends so.
  predicate EndsInWord(ts: seq<Token>) {
    ts != [] && ts[|ts| - 1].Word? && EndsInEllipsis(ts[|ts| - 1].text)
  }

  lemma EndsInWordStill(t: Token, rest: seq<Token>)
    requires EndsInWord(rest)
    ensures EndsInWord([t] + rest)
  {
  }

  lemma WordWithEllipsis(s: string)
    requires EndsInEllipsis(s) && IsWordStart(s[0])
    ensures WordEnd(s) > 0 && (WordEnd(s) == |s| ==> EndsInWord(Lex(s)))
    ensures WordEnd(s) < |s| ==> EndsInEllipsis(s[WordEnd(s)..])
  {
    var n := WordEnd(s);
    if n == |s| {
      assert s[..n] == s && s + "" == s;
      LexWord(s, "");
      assert Fold(s)[|s| - 1] == ELLIPSIS;
    }
  }

  lemma {:induction false} EllipsisIsAWord(s: string)
    requires EndsInEllipsis(s) && Broken !in Lex(s)
    ensures EndsInWord(Lex(s))
    decreases |s|
  {
    if IsWordStart(s[0]) {
      WordWithEllipsis(s);
      if WordEnd(s) < |s| {
        EllipsisIsAWord(s[WordEnd(s)..]);
        EndsInWordStill(Word(Fold(s[..WordEnd(s)])), Lex(s[WordEnd(s)..]));
      }
    } else if s[0] == '"' || s[0] == '\'' {
      var r := Unquote(s[1..], s[0]);
      assert r.Some?;
      assert EndsInEllipsis(s[1..]);
      UnquotedRest(s[1..], s[0]);
      EllipsisIsAWord(r.value.1);
      EndsInWordStill(if s[0] == '"' then Quoted(r.value.0) else Literal(r.value.0), Lex(r.value.1));
    } else if IsDigit(s[0]) {
      var n := DigitsEnd(s);
      assert EndsInEllipsis(s[n..]);
      EllipsisIsAWord(s[n..]);
      EndsInWordStill(Number(s[..n]), Lex(s[n..]));
    } else {
      EllipsisIsAWord(s[1..]);
      if !IsSpace(s[0]) {
        EndsInWordStill(Punct(s[0]), Lex(s[1..]));
      }
    }
  }

  lemma CanonEndsInWord(b: seq<Token>, reserved: set<string>)
    requires EndsInWord(b)
    ensures EndsInWord(Canon(b, reserved))
  {
    var plain := PlainerAll(b, reserved);
    assert plain[|plain| - 1] == b[|b| - 1];
  }

  /** A body whose cut text reads as itself ends in an ellipsis of its own. */
  lemma CutBodyReadsOtherwise(body: seq<Token>, reserved: set<string>, front: string)
    requires AllReadable(body) && Broken !in Lex(" " + (front + [ELLIPSIS]))
    requires Canon(Lex(" " + (front + [ELLIPSIS])), reserved) == body
    ensures EndsInEllipsis(PrintAll(body))
  {
    var z := " " + (front + [ELLIPSIS]);
    EllipsisIsAWord(z);
    CanonEndsInWord(Lex(z), reserved);
    LastPrinted(body);
  }

  // ── drop_index undone, whatever the definition ──────────────────────────

  lemma UnstrippedTable(t: RelName, reserved: set<string>)
    requires Strip(t.0) == t.0 && Strip(t.1) == t.1
    ensures StrippedTable(t, reserved) == TableText(t, reserved)
  {
  }

  lemma TrimmedEnd(z: string)
    ensures var t := Tail(z); t == "" || !PySpace(t[|t| - 1])
  {
    TrimRightEnd(DropSemicolons(TrimRight(z)));
  }

  lemma {:induction false} TrimRightEnd(z: string)
    ensures var t := TrimRight(z); t == "" || !PySpace(t[|t| - 1])
    decreases |z|
  {
    if z != "" && PySpace(z[|z| - 1]) {
      TrimRightEnd(z[..|z| - 1]);
    }
  }

  // The definition is not cut, or does not end in an ellipsis of its own.
  predicate CutShows(def: string) {
    |Strip(def)| > DEF_MAX ==> !EndsInEllipsis(def)
  }

  predicate ShortlyNamed(s: Server) {
    forall k :: k in s.rels ==> |k.0| <= 63 && |k.1| <= 63
  }

  // The index itself is captured, and the server reads its body in what is left of the text.
  lemma WholeBodyIsKept(s: Server, k: RelName)
    requires Sane(s) && IsIndex(s, k) && IsIdent(k.1) && |StrippedFront(s, k)| <= 500 && CutShows(PrintDef(s, k))
    requires var z := Tail(KeptRest(s, k)); Broken !in Lex(z) && Canon(Lex(z), s.reserved) == s.rels[k].body
    ensures KeptRest(s, k) == " " + Strip(PrintAll(s.rels[k].body))
    ensures Tail(KeptRest(s, k)) == " " + PrintAll(s.rels[k].body) && Strip(PrintAll(s.rels[k].body)) == PrintAll(s.rels[k].body)
  {
    assert GoodIndex(s, k);
    var q, body := StrippedFront(s, k), s.rels[k].body;
    var b := PrintAll(body);
    StrippedDef(s, k);
    if |q| + 1 + |Strip(b)| > DEF_MAX {
      CutEndsTheBody(s, k);
      DefEndsAsItsBody(s, k);
    } else {
      ChangedBodyReadsOtherwise(body, s.reserved);
      TailIsPrefix(" " + Strip(b));
      StripIsPlain(b);
      WholeIsKept(b, Strip(b), |Tail(" " + Strip(b))|);
    }
  }

  lemma WholeIsKept(b: string, c: string, n: nat)
    requires |c| <= |b| && n <= |c| + 1 && (" " + c)[..n] == " " + b
    ensures c == b
  {
    assert n == |b| + 1 && n == |c| + 1;
    assert (" " + c)[1..] == c && (" " + b)[1..] == b;
  }

  lemma CutEndsTheBody(s: Server, k: RelName)
    requires Sane(s) && IsIndex(s, k) && |StrippedFront(s, k)| <= 500
    requires |StrippedFront(s, k)| + 1 + |Strip(PrintAll(s.rels[k].body))| > DEF_MAX
    requires var z := Tail(KeptRest(s, k)); Broken !in Lex(z) && Canon(Lex(z), s.reserved) == s.rels[k].body
    ensures EndsInEllipsis(PrintAll(s.rels[k].body))
  {
    assert GoodIndex(s, k);
    var q, body := StrippedFront(s, k), s.rels[k].body;
    var front := Strip(PrintAll(body))[..DEF_MAX - 2 - |q|];
    TailOfCut(front);
    CutBodyReadsOtherwise(body, s.reserved, front);
  }

  lemma TailOfCut(front: string)
    ensures Tail(" " + (front + [ELLIPSIS])) == " " + (front + [ELLIPSIS])
  {
    TailIsPrefix(" " + (front + [ELLIPSIS]));
  }

  lemma DefEndsAsItsBody(s: Server, k: RelName)
    requires IsIndex(s, k) && EndsInEllipsis(PrintAll(s.rels[k].body))
    ensures EndsInEllipsis(PrintDef(s, k))
  {
    var r := s.rels[k];
    DefIsFront(s, k);
    EndsSolid(" ", PrintAll(r.body));
    EndsSolid(Front(r.unique, PrintName(k.1, s.reserved), TableText(r.table, s.reserved)), " " + PrintAll(r.body));
  }

  // If the replay of what was captured brings everything back, nothing was changed in it.
  lemma RestoredIsUnchanged(s: Server, name: string, k: RelName, d: RelName)
    requires Sane(s) && IsIndex(s, k) && IsIndex(s, d) && IsIdent(k.1) && |StrippedFront(s, k)| <= 500
    requires Qualify(name).Success? && Captured(s, name) == Some(k) && Find(s, QualifiedName(name)) == Some(d)
    requires CutShows(PrintDef(s, k)) && ';' !in SentBack(s, k)
    requires Submit(s.(rels := s.rels - {d}), SentBack(s, k)).0 == s
    ensures k == d && SentBack(s, k) == PrintDef(s, k) && Keeps(PrintDef(s, k))
  {
    var r := s.rels[k];
    assert GoodIndex(s, k);
    RestoredMeans(s, k, d);
    SameNameSameIndex(s, name, k, d);
    UnstrippedTable(r.table, s.reserved);
    WholeBodyIsKept(s, k);
    DefIsFront(s, k);
    SanitizedDef(s, k);
    KeepsIfWhole(s, k);
  }

  lemma KeepsIfWhole(s: Server, k: RelName)
    requires IsIndex(s, k) && |StrippedFront(s, k)| <= 500
    requires SentBack(s, k) == PrintDef(s, k) && ';' !in SentBack(s, k) && KeptRest(s, k) == Tail(KeptRest(s, k)) != ""
    requires Sanitize.Sanitize(PrintDef(s, k), DEF_MAX) == StrippedFront(s, k) + KeptRest(s, k)
    ensures Keeps(PrintDef(s, k))
  {
    var z := Tail(KeptRest(s, k));
    TrimmedEnd(KeptRest(s, k));
    EndsSolid(StrippedFront(s, k), z);
    assert PrintDef(s, k)[|PrintDef(s, k)| - 1] in PrintDef(s, k);
  }

  // The definition of k as captured, replayed after d was dropped.
  lemma CapturedReplay(s: Server, name: string, k: RelName, d: RelName)
    requires Sane(s) && ShortlyNamed(s) && IsIndex(s, k) && IsIndex(s, d) && CutShows(PrintDef(s, k))
    requires Qualify(name).Success? && Captured(s, name) == Some(k) && Find(s, QualifiedName(name)) == Some(d)
    requires !Keeps(PrintDef(s, k))
    ensures CreateFromDefinition(s.(rels := s.rels - {d}), Sanitize.Sanitize(PrintDef(s, k), DEF_MAX), Runs).0 != s
  {
    var after := s.(rels := s.rels - {d});
    assert GoodIndex(s, k);
    CapturedIsPlain(s, name);
    FrontIsShort(s, k);
    ReplaySends(s, k, after);
    assert d in s.rels && d !in after.rels;
    if ';' !in SentBack(s, k) && Submit(after, SentBack(s, k)).0 == s {
      RestoredIsUnchanged(s, name, k, d);
    }
  }

  lemma KeptIsSomething(s: Server, k: RelName)
    requires IsIndex(s, k)
    ensures Sanitize.Sanitize(PrintDef(s, k), DEF_MAX) != ""
  {
    var def := PrintDef(s, k);
    assert def[0] == 'C';
    assert Strip(def) == ['C'] + Strip(def[1..]);
  }

  /** `drop_index` undone: replaying the captured definition restores the server if and only
      if the name has no upper-case letter and no final newline (else the definition is of
      another index), capture and replay leave the definition as it was printed (it has no
      control or format character, fits in 2000 characters and does not end in white space),
      and it contains no semicolon (else the gate refuses it). */
  lemma DropUndoRestoresIff(s: Server, name: string, concurrently: bool)
    requires Sane(s) && ShortlyNamed(s)
    ensures var (after, r) := DropIndexOp(s, name, concurrently, Runs, Runs);
            r.Returned? ==>
              var def := PrintDef(s, Captured(s, name).value);
              var kept := Sanitize.Sanitize(def, DEF_MAX);
              && DropUndo(r.v) == Some(ReplayDescriptor(Str(kept)))
              && (CutShows(def) ==>
                    (CreateIndexTool(after, ReplayDescriptor(Str(kept)).params, false, Runs).0 == s
                     <==> WrittenAsRead(name) && Keeps(def) && ';' !in def))
  {
    var (after, r) := DropIndexOp(s, name, concurrently, Runs, Runs);
    DropSucceeds(s, name, concurrently);
    if r.Returned? {
      var k, d := Captured(s, name).value, Find(s, QualifiedName(name)).value;
      var def := PrintDef(s, k);
      DroppedInverse(name, def);
      KeptIsSomething(s, k);
      if Keeps(def) {
        KeptDefinitionRestoresIff(s, name, concurrently);
      } else if CutShows(def) {
        ReplayGoesToTheGate(after, Sanitize.Sanitize(def, DEF_MAX));
        CapturedReplay(s, name, k, d);
      }
    }
  }

  /** What a changed definition does when it is replayed: nothing, or it makes an index of the
      captured name on the table as stripped, with the body that is read in the rest. */
  lemma ChangedTextDoes(s: Server, k: RelName, after: Server)
    requires Sane(s) && IsIndex(s, k) && IsIdent(k.1) && |StrippedFront(s, k)| <= 500
    requires after.reserved == s.reserved
    ensures var r, (end, ok) := s.rels[k], Submit(after, SentBack(s, k));
            var at := (Strip(r.table.0), k.1);
            end == after ||
            (at !in after.rels && end == after.(rels := after.rels[at :=
              Index(r.unique, (at.0, Strip(r.table.1)), Canon(Lex(Tail(KeptRest(s, k))), s.reserved))]))
  {
    var r := s.rels[k];
    TailIsSpaced(s, k);
    KeptParses(r.unique, k.1, r.table, s.reserved, Tail(KeptRest(s, k)));
  }
}
