/**
 Reversibility: when replaying the recorded inverse of a write restores the server.

 Each promise is stated as it holds: the replay restores the server if and only if a
 condition on the server before the call is met. Module UndoStack composes the steps.
 */
module Reversal {
  import opened Common
  import opened Json
  import opened Sql
  import opened Server
  import opened Statements
  import opened IndexDef
  import opened Outcome
  import opened Remediation
  import Sanitize

  // ── what one statement does ─────────────────────────────────────────────

  lemma MethodIsLower(m: string)
    requires m in METHODS
    ensures m != "" && AllLower(m)
  {
  }

  /** `create_index` submits exactly the index it was asked for. */
  lemma CreateIndexDoes(s: Server, table: string, columns: seq<string>, name: string, unique: bool,
                        concurrently: bool, m: Option<string>)
    requires GrammarReserved(s.reserved) && CreateArgsOk(table, columns, name, m)
    ensures Submit(s, CreateIndexSql(table, columns, name, unique, concurrently, m)) ==
            Exec(s, CreateIndex(unique, false, name, QualifiedName(table), BodyTokens(m, columns)))
  {
    if m.Some? {
      MethodIsLower(m.value);
    }
    ParsesCreate(unique, concurrently, name, table, m, columns, s.reserved);
  }

  lemma DropIndexDoes(s: Server, name: string, concurrently: bool)
    requires GrammarReserved(s.reserved) && Qualify(name).Success?
    ensures Submit(s, DropText(concurrently, Qualify(name).value)) == Exec(s, DropIndex(QualifiedName(name)))
  {
    ParsesDrop(concurrently, name, s.reserved);
  }

  // ── names: what to_regclass reads against what is dropped ───────────────

  lemma {:induction false} SplitWithoutDot(name: string)
    requires forall i :: 0 <= i < |name| ==> name[i] != '.'
    ensures Split(name) == [name]
  {
    if name != "" {
      SplitWithoutDot(name[1..]);
      assert [name[0]] + name[1..] == name;
    }
  }

  lemma IdentIsNotBlank(part: string)
    requires MatchesIdent(part)
    ensures part != "" && !IsSpace(part[0])
  {
    if !IsIdent(part) {
      assert part[..|part| - 1][0] == part[0];
    }
  }

  lemma OnePartName(name: string)
    requires MatchesIdent(name)
    ensures Split(name) == [name] && Qualify(name) == QuoteIdent(name) && QualifiedName(name) == Name(None, name)
  {
    IdentHasNoQuote(name);
    SplitWithoutDot(name);
    IdentIsNotBlank(name);
  }

  lemma LexIdentLine(q: string, rest: string)
    requires IsIdent(q)
    ensures Lex((q + "\n") + rest) == [Word(Fold(q))] + Lex(rest)
  {
    NewlineFirst(rest);
    LexIdent(q, "\n" + rest);
    ConcatAssoc(q, "\n", rest);
  }

  lemma LexRawIdent(part: string, rest: string)
    requires MatchesIdent(part) && EndsWord(rest)
    ensures Lex(part + rest) == [Word(Fold(Chomp(part)))] + Lex(rest)
  {
    ChompedIsIdent(part);
    if EndsInNewline(part) {
      assert part == Chomp(part) + "\n";
      LexIdentLine(Chomp(part), rest);
    } else {
      LexIdent(part, rest);
    }
  }

  lemma NewlineFirst(rest: string)
    ensures Lex("\n" + rest) == Lex(rest) && EndsWord("\n" + rest)
  {
    assert ("\n" + rest)[1..] == rest;
  }

  lemma ChompedIsIdent(part: string)
    requires MatchesIdent(part)
    ensures IsIdent(Chomp(part))
  {
    assert IsIdent(part) ==> IsIdentPart(part[|part| - 1]);
  }

  lemma LexIdent(part: string, rest: string)
    requires IsIdent(part) && EndsWord(rest)
    ensures Lex(part + rest) == [Word(Fold(part))] + Lex(rest)
  {
    forall i | 0 <= i < |part| ensures IsWordPart(part[i]) {
      assert IsIdentPart(part[i]);
    }
    LexWord(part, rest);
  }

  // The name to_regclass reads in a text that `qualify` accepts.
  function FoldedParts(parts: seq<string>): seq<string> {
    if parts == [] then [] else [Fold(Chomp(parts[0]))] + FoldedParts(parts[1..])
  }

  function WordTokens(parts: seq<string>): seq<Token> {
    if |parts| == 2 then [Word(parts[0]), Punct('.'), Word(parts[1])]
    else if |parts| == 1 then [Word(parts[0])]
    else []
  }

  lemma LexRawAlone(part: string)
    requires MatchesIdent(part)
    ensures Lex(part) == [Word(Fold(Chomp(part)))]
  {
    LexRawIdent(part, "");
    assert part + "" == part;
  }

  lemma LexRawPair(a: string, b: string)
    requires MatchesIdent(a) && MatchesIdent(b)
    ensures Lex(a + ("." + b)) == [Word(Fold(Chomp(a))), Punct('.'), Word(Fold(Chomp(b)))]
  {
    LexRawAlone(b);
    DotIsRead(b);
    LexRawIdent(a, "." + b);
  }

  lemma FoldedPair(a: string, b: string)
    ensures FoldedParts([a, b]) == [Fold(Chomp(a)), Fold(Chomp(b))]
  {
    assert [a, b][1..] == [b];
    assert [b][1..] == [];
    assert FoldedParts([b]) == [Fold(Chomp(b))] + FoldedParts([]);
  }

  lemma JoinedPair(name: string)
    requires |Split(name)| == 2
    ensures name == Split(name)[0] + ("." + Split(name)[1])
  {
    JoinSplit(name);
    assert Split(name)[1..] == [Split(name)[1]];
    ConcatAssoc(Split(name)[0], ".", Split(name)[1]);
  }

  lemma LexOnePartAsText(part: string)
    requires MatchesIdent(part)
    ensures Lex(part) == WordTokens(FoldedParts([part]))
  {
    LexRawAlone(part);
    assert FoldedParts([part]) == [Fold(Chomp(part))] + FoldedParts([]);
  }

  lemma LexTwoPartsAsText(a: string, b: string)
    requires MatchesIdent(a) && MatchesIdent(b)
    ensures Lex(a + ("." + b)) == WordTokens(FoldedParts([a, b]))
  {
    LexRawPair(a, b);
    FoldedPair(a, b);
  }

  lemma LexNameAsText(name: string)
    requires Qualify(name).Success?
    ensures Lex(name) == WordTokens(FoldedParts(Split(name)))
  {
    var parts := Split(name);
    QualifiedParts(name);
    if |parts| == 1 {
      JoinSplit(name);
      assert parts == [name];
      LexOnePartAsText(name);
    } else {
      JoinedPair(name);
      assert parts == [parts[0], parts[1]];
      LexTwoPartsAsText(parts[0], parts[1]);
    }
  }

  function FoldedName(name: string): Name
    requires Qualify(name).Success?
  {
    FoldedLength(Split(name));
    NameOf(FoldedParts(Split(name)))
  }

  lemma {:induction false} FoldedLength(parts: seq<string>)
    ensures |FoldedParts(parts)| == |parts|
  {
    if parts != [] {
      FoldedLength(parts[1..]);
    }
  }

  lemma ReadsWordTokens(parts: seq<string>)
    requires 1 <= |parts| <= 2
    ensures ReadName(WordTokens(parts), {}) == Some((NameOf(parts), []))
  {
    var ts := WordTokens(parts);
    if |parts| == 2 {
      assert ts[3..] == [];
    } else {
      assert ts[1..] == [];
    }
  }

  /** `to_regclass` looks a name up in lower case and without a final newline; the statement
      looks it up as it is. */
  lemma RegClassFolds(s: Server, name: string)
    requires Qualify(name).Success?
    ensures RegClass(s, name) == Find(s, FoldedName(name))
  {
    LexNameAsText(name);
    FoldedLength(Split(name));
    ReadsWordTokens(FoldedParts(Split(name)));
  }

  predicate NothingToFold(part: string) {
    forall i :: 0 <= i < |part| ==> !IsUpper(part[i]) && part[i] != '\n'
  }

  lemma UpperIsFolded(part: string, i: nat)
    requires i < |part| && IsUpper(part[i])
    ensures Fold(part) != part
  {
    assert Fold(part)[i] != part[i];
  }

  lemma IdentHasNoNewline(part: string)
    requires IsIdent(part)
    ensures forall i :: 0 <= i < |part| ==> part[i] != '\n'
  {
    forall i | 0 <= i < |part| ensures part[i] != '\n' {
      assert IsIdentPart(part[i]);
    }
  }

  lemma FoldsToItselfIff(part: string)
    requires MatchesIdent(part)
    ensures Fold(Chomp(part)) == part <==> NothingToFold(part)
  {
    ChompedIsIdent(part);
    if EndsInNewline(part) {
      assert |Fold(Chomp(part))| < |part|;
    } else {
      IdentHasNoNewline(part);
      if NothingToFold(part) {
        FoldOfLower(part);
      } else {
        var i :| 0 <= i < |part| && (IsUpper(part[i]) || part[i] == '\n');
        UpperIsFolded(part, i);
      }
    }
  }

  // Every part is written the way to_regclass reads it.
  predicate WrittenAsRead(name: string) {
    NothingToFold(name)
  }

  lemma FoldedPartsMatch(name: string)
    requires Qualify(name).Success?
    ensures FoldedParts(Split(name)) == Split(name) <==> WrittenAsRead(name)
  {
    var parts := Split(name);
    if |parts| == 1 {
      JoinSplit(name);
      FoldsToItselfIff(parts[0]);
      assert parts == [parts[0]] && FoldedParts(parts)[0] == Fold(Chomp(parts[0]));
    } else {
      var a, b := parts[0], parts[1];
      JoinedPair(name);
      FoldedPair(a, b);
      assert parts == [a, b];
      FoldsToItselfIff(a);
      FoldsToItselfIff(b);
      PairIsPlainIff(a, b);
    }
  }

  lemma PairIsPlainIff(a: string, b: string)
    ensures NothingToFold(a + ("." + b)) <==> NothingToFold(a) && NothingToFold(b)
  {
    var s := a + ("." + b);
    if NothingToFold(s) {
      forall i | 0 <= i < |a| ensures !IsUpper(a[i]) && a[i] != '\n' {
        assert s[i] == a[i];
      }
      forall i | 0 <= i < |b| ensures !IsUpper(b[i]) && b[i] != '\n' {
        assert s[|a| + 1 + i] == b[i];
      }
    }
  }

  /** The index whose definition is captured is the index that is dropped exactly when the
      name has no upper-case letter and no final newline. */
  lemma CapturedIsDroppedIff(s: Server, name: string)
    requires Qualify(name).Success? && Captured(s, name).Some? && Find(s, QualifiedName(name)).Some?
    ensures Captured(s, name) == Find(s, QualifiedName(name)) <==> WrittenAsRead(name)
  {
    RegClassFolds(s, name);
    FoldedPartsMatch(name);
    FoldedLength(Split(name));
    var n, m := FoldedName(name), QualifiedName(name);
    var parts, folded := Split(name), FoldedParts(Split(name));
    if Captured(s, name) == Find(s, m) {
      assert n.name == m.name;
      if |parts| == 2 {
        assert n.schema == m.schema;
        assert folded == parts;
      } else {
        assert folded == parts;
      }
    }
  }

  // ── create_index and its inverse ────────────────────────────────────────

  // Dropping `reported` after a create removes the created index `k`.
  predicate UndoFinds(s: Server, reported: string, k: RelName) {
    Captured(s, reported).Some? && Find(s, Name(None, reported)) == Some(k)
  }

  lemma DropReplay(s: Server, name: string)
    requires GrammarReserved(s.reserved) && MatchesIdent(name)
    ensures var (s', r) := DropIndexOp(s, name, false, Runs, Runs);
            if Captured(s, name).Some? then (s', r.Returned?) == Exec(s, DropIndex(Name(None, name)))
            else s' == s && r.Raised?
  {
    OnePartName(name);
    DropIndexDoes(s, name, false);
  }

  // What is left is the catalogue without one relation exactly when that one was dropped.
  lemma DropRemovesIff(s: Server, name: string, k: RelName)
    requires k in s.rels && s.rels[k].Index?
    ensures Exec(s, DropIndex(Name(None, name))).0.rels == s.rels - {k} <==> Find(s, Name(None, name)) == Some(k)
  {
    var found := Find(s, Name(None, name));
    var s' := Exec(s, DropIndex(Name(None, name))).0;
    if found != Some(k) {
      assert k in s'.rels;
      assert k !in s.rels - {k};
    }
  }

  lemma DropOnlyTouchesRels(s: Server, st: Stmt)
    requires st.DropIndex? || st.CreateIndex?
    ensures Exec(s, st).0 == s.(rels := Exec(s, st).0.rels)
  {
  }

  lemma CreateReplay(before: Server, after: Server, k: RelName, index: Rel, reported: string)
    requires GrammarReserved(before.reserved) && MatchesIdent(reported)
    requires k !in before.rels && index.Index? && after == before.(rels := before.rels[k := index])
    ensures DropIndexOp(after, reported, false, Runs, Runs).0 == before <==> UndoFinds(after, reported, k)
  {
    DropReplay(after, reported);
    assert after.rels - {k} == before.rels;
    if Captured(after, reported).Some? {
      DropRemovesIff(after, reported, k);
      DropOnlyTouchesRels(after, DropIndex(Name(None, reported)));
    } else {
      assert k in after.rels;
    }
  }

  lemma CreatedResultFields(name: string, table: string, columns: seq<string>, concurrently: bool)
    ensures Get(CreatedResult(name, table, columns, concurrently), "index") == Str(name)
  {
    var es := CreatedResult(name, table, columns, concurrently).entries;
    assert es[1..][0] == Entry("index", Str(name));
    assert Lookup(es, "index") == Lookup(es[1..], "index");
  }

  lemma DropParams(name: string)
    ensures var p := DropDescriptor(Str(name)).params;
            Get(p, "name") == Str(name) && !Truthy(Get(p, "concurrently"))
  {
    var es := [Entry("name", Str(name))];
    assert es[1..] == [];
    assert Lookup(es, "concurrently") == Lookup(es[1..], "concurrently");
  }

  // A create that added an index: where it is, and what it is.
  predicate Added(before: Server, after: Server, k: RelName) {
    k !in before.rels && k in after.rels && after.rels[k].Index?
    && after == before.(rels := before.rels[k := after.rels[k]])
  }

  // No schema before k's on the search path has a relation of k's name.
  predicate FirstOnPath(rels: map<RelName, Rel>, path: seq<string>, k: RelName) {
    path != [] && (path[0] == k.0 || ((path[0], k.1) !in rels && FirstOnPath(rels, path[1..], k)))
  }

  lemma {:induction false} FoundFirstIff(rels: map<RelName, Rel>, after: map<RelName, Rel>, path: seq<string>, k: RelName)
    requires k !in rels && k in after && after == rels[k := after[k]]
    ensures FindIn(after, path, k.1) == Some(k) <==> FirstOnPath(rels, path, k)
  {
    if path != [] && path[0] != k.0 {
      FoundFirstIff(rels, after, path[1..], k);
    }
  }

  lemma {:induction false} FoundElsewhere(rels: map<RelName, Rel>, after: map<RelName, Rel>, path: seq<string>,
                                          k: RelName, name: string)
    requires k in after && after == rels[k := after[k]] && name != k.1
    ensures FindIn(after, path, name) == FindIn(rels, path, name)
  {
    if path != [] {
      FoundElsewhere(rels, after, path[1..], k, name);
    }
  }

  lemma FoldedOnePart(name: string)
    requires MatchesIdent(name)
    ensures Qualify(name).Success? && FoldedName(name) == Name(None, Fold(Chomp(name)))
    ensures Fold(Chomp(name)) == name <==> WrittenAsRead(name)
  {
    OnePartName(name);
    FoldsToItselfIff(name);
    assert FoldedParts([name]) == [Fold(Chomp(name))] + FoldedParts([]);
  }

  // On the server before a create: dropping `reported` afterwards will find the new index k.
  predicate ReplayFinds(s: Server, reported: string, k: RelName) {
    && reported == k.1 && FirstOnPath(s.rels, s.path, k)
    && (WrittenAsRead(reported) || Captured(s, reported).Some?)
  }

  // Looking a reported name up after a create that added k.
  lemma CapturedAfter(before: Server, after: Server, k: RelName, reported: string)
    requires Added(before, after, k) && MatchesIdent(reported)
    ensures Fold(Chomp(reported)) != k.1 ==> Captured(after, reported) == Captured(before, reported)
    ensures Fold(Chomp(reported)) == k.1 && FirstOnPath(before.rels, before.path, k) ==> Captured(after, reported) == Some(k)
  {
    FoldedOnePart(reported);
    RegClassFolds(after, reported);
    RegClassFolds(before, reported);
    if Fold(Chomp(reported)) != k.1 {
      FoundElsewhere(before.rels, after.rels, before.path, k, Fold(Chomp(reported)));
    } else {
      FoundFirstIff(before.rels, after.rels, before.path, k);
    }
  }

  /** Whether the replay finds the created index, told from the server before: the reported
      name must be the index's own, its schema the first on the search path to hold it, and
      either the name is written the way `to_regclass` reads it, or what `to_regclass` does
      read in it happens to be some other index. */
  lemma UndoFindsIff(before: Server, after: Server, k: RelName, reported: string)
    requires Added(before, after, k) && MatchesIdent(reported)
    ensures UndoFinds(after, reported, k) <==> ReplayFinds(before, reported, k)
  {
    FoldedOnePart(reported);
    CapturedAfter(before, after, k, reported);
    if reported == k.1 {
      FoundFirstIff(before.rels, after.rels, before.path, k);
    }
  }

  /** With a lower-case name the inverse of a create works if and only if the table's schema
      is the first on the search path to hold that name. */
  lemma LowerCaseNameIsFoundIff(before: Server, after: Server, k: RelName)
    requires Added(before, after, k) && MatchesIdent(k.1) && WrittenAsRead(k.1)
    ensures UndoFinds(after, k.1, k) <==> FirstOnPath(before.rels, before.path, k)
  {
    UndoFindsIff(before, after, k, k.1);
  }

  /** With a capital or a final newline in the name it works if and only if, besides, the
      lower-cased name already was an index's. */
  lemma MixedCaseNameIsFoundIff(before: Server, after: Server, k: RelName)
    requires Added(before, after, k) && MatchesIdent(k.1) && !WrittenAsRead(k.1)
    ensures UndoFinds(after, k.1, k) <==> Captured(before, k.1).Some? && FirstOnPath(before.rels, before.path, k)
  {
    UndoFindsIff(before, after, k, k.1);
  }

  /** Otherwise such a replay is refused, and the index stays. */
  lemma MixedCaseUndoIsRefused(before: Server, after: Server, k: RelName)
    requires GrammarReserved(before.reserved) && Added(before, after, k) && MatchesIdent(k.1) && !WrittenAsRead(k.1)
    requires Captured(before, k.1).None?
    ensures var (end, r) := DropIndexOp(after, k.1, false, Runs, Runs); end == after && r.Raised?
  {
    FoldedOnePart(k.1);
    CapturedAfter(before, after, k, k.1);
    DropReplay(after, k.1);
  }

  // The index name a create reports: the captured one of a definition, letter for letter.
  function ReportedName(params: Value): string {
    var definition, table := OptStr(params, "definition"), OptStr(params, "table");
    if Given(definition) then match Gate(definition.value) case Pass(_, index) => index case _ => ""
    else IndexName(if table.Some? then table.value else "", NonBlank(Columns(params)), OptStr(params, "name"))
  }

  lemma ReportedNames(s: Server, params: Value)
    ensures var (after, r) := CreateIndexTool(s, params, false, Runs);
            r.Returned? ==>
              && Get(r.v, "index") == Str(ReportedName(params)) && MatchesIdent(ReportedName(params))
              && CreateUndo(r.v) == Some(DropDescriptor(Str(ReportedName(params))))
  {
    var definition, table := OptStr(params, "definition"), OptStr(params, "table");
    var (after, r) := CreateIndexTool(s, params, false, Runs);
    if r.Returned? {
      if Given(definition) {
        ReplayedFields(definition.value);
      } else {
        var cols := NonBlank(Columns(params));
        CreatedResultFields(IndexName(table.value, cols, OptStr(params, "name")), table.value, cols,
                            Truthy(Get(params, "concurrently")));
      }
    }
  }

  lemma ReplayedFields(definition: string)
    requires Gate(definition).Pass?
    ensures var n := Gate(definition).index; MatchesIdent(n) && Get(ReplayedResult(n), "index") == Str(n)
  {
    var n := Gate(definition).index;
    GatedNameIsIdent(Gate(definition).stmt);
    var es := ReplayedResult(n).entries;
    assert es[1..][0] == Entry("index", Str(n));
    assert Lookup(es, "index") == Lookup(es[1..], "index");
  }

  // ── every create_index call ─────────────────────────────────────────────

  // What the server makes of the statement the call sends.
  function Planned(s: Server, params: Value): Option<Stmt> {
    match CreateSends(params) case None => None case Some(text) => Parse(Lex(text), s.reserved)
  }

  lemma PlannedIsCreate(s: Server, params: Value)
    requires GrammarReserved(s.reserved) && Planned(s, params).Some?
    ensures Planned(s, params).value.CreateIndex?
  {
    var definition, table := OptStr(params, "definition"), OptStr(params, "table");
    if Given(definition) {
      GatedParsesToCreate(Gate(definition.value).stmt, s.reserved);
    } else {
      var cols, m := NonBlank(Columns(params)), MethodOf(OptStr(params, "method"));
      if m.Some? {
        MethodIsLower(m.value);
      }
      ParsesCreate(Truthy(Get(params, "unique")), Truthy(Get(params, "concurrently")),
                   IndexName(table.value, cols, OptStr(params, "name")), table.value, m, cols, s.reserved);
    }
  }

  // The call ends as its statement does.
  lemma CreateToolSubmits(s: Server, params: Value)
    ensures var (after, r) := CreateIndexTool(s, params, false, Runs);
            match CreateSends(params)
            case None => after == s && r.Raised?
            case Some(text) => (after, r.Returned?) == Submit(s, text)
  {
  }

  // Where the statement would put its index.
  function PlannedAt(s: Server, st: Stmt): Option<RelName>
    requires st.CreateIndex?
  {
    match Find(s, st.table)
    case None => None
    case Some(t) => if s.rels[t].Index? then None else Some((t.0, st.name))
  }

  lemma ExecCreate(s: Server, st: Stmt)
    requires st.CreateIndex?
    ensures var (after, ok) := Exec(s, st);
            match PlannedAt(s, st)
            case None => !ok && after == s
            case Some(k) => if k in s.rels then after == s && ok == st.ifNotExists else ok && Added(s, after, k)
  {
  }

  // Dropping `reported` takes an index away.
  predicate DropsSomething(s: Server, reported: string) {
    && Captured(s, reported).Some?
    && match Find(s, Name(None, reported)) case None => false case Some(d) => IsIndex(s, d)
  }

  lemma DropLeavesAloneIff(s: Server, reported: string)
    requires GrammarReserved(s.reserved) && MatchesIdent(reported)
    ensures DropIndexOp(s, reported, false, Runs, Runs).0 == s <==> !DropsSomething(s, reported)
  {
    DropReplay(s, reported);
    if DropsSomething(s, reported) {
      var d := Find(s, Name(None, reported)).value;
      assert d in s.rels && d !in Exec(s, DropIndex(Name(None, reported))).0.rels;
    }
  }

  lemma ReplayedDropIs(s: Server, reported: string)
    ensures DropIndexTool(s, DropDescriptor(Str(reported)).params, false, Runs, Runs) ==
            DropIndexOp(s, reported, false, Runs, Runs)
  {
    DropParams(reported);
  }

  /** Every successful `create_index` call, from table and columns or from a definition. It
      records a drop of the name it reports. If it added an index, the replay restores the
      server if and only if that name finds the new index, told from the server before. If it
      added nothing, which only IF NOT EXISTS allows, the replay is harmless if and only if the
      name finds no index to drop. */
  lemma CreateUndoRestoresIff(s: Server, params: Value)
    requires GrammarReserved(s.reserved)
    ensures var (after, r) := CreateIndexTool(s, params, false, Runs);
            r.Returned? ==>
              && Planned(s, params).Some? && Planned(s, params).value.CreateIndex?
              && PlannedAt(s, Planned(s, params).value).Some?
              && var k, n := PlannedAt(s, Planned(s, params).value).value, ReportedName(params);
              && CreateUndo(r.v) == Some(DropDescriptor(Str(n)))
              && var end := DropIndexTool(after, DropDescriptor(Str(n)).params, false, Runs, Runs).0;
                 if k !in s.rels then Added(s, after, k) && (end == s <==> ReplayFinds(s, n, k))
                 else after == s && Planned(s, params).value.ifNotExists && (end == s <==> !DropsSomething(s, n))
  {
    CreateToolSubmits(s, params);
    var (after, r) := CreateIndexTool(s, params, false, Runs);
    if r.Returned? {
      PlannedIsCreate(s, params);
      ReportedNames(s, params);
      var st := Planned(s, params).value;
      ExecCreate(s, st);
      CreateUndoFrom(s, after, PlannedAt(s, st).value, ReportedName(params));
    }
  }

  lemma CreateUndoFrom(s: Server, after: Server, k: RelName, n: string)
    requires GrammarReserved(s.reserved) && MatchesIdent(n)
    requires if k in s.rels then after == s else Added(s, after, k)
    ensures var end := DropIndexTool(after, DropDescriptor(Str(n)).params, false, Runs, Runs).0;
            end == s <==> if k in s.rels then !DropsSomething(s, n) else ReplayFinds(s, n, k)
  {
    ReplayedDropIs(after, n);
    if k in s.rels {
      DropLeavesAloneIff(s, n);
    } else {
      CreateReplay(s, after, k, after.rels[k], n);
      UndoFindsIff(s, after, k, n);
    }
  }

  lemma DefinitionSends(params: Value, definition: string)
    requires OptStr(params, "definition") == Some(definition) && !Given(OptStr(params, "table")) && Columns(params) == []
    requires Gate(definition).Pass?
    ensures CreateSends(params) == Some(Gate(definition).stmt)
  {
  }

  /** `create_index` from a definition that passes the gate and that the server can carry out.
      The reported name is the one the gate captured, letter for letter, and the created index
      has the name the server reads, folded if it was unquoted: the replay restores the server
      if and only if the two are the same name and it is found. */
  lemma DefinitionUndoRestoresIff(s: Server, params: Value, definition: string, st: Stmt, k: RelName)
    requires GrammarReserved(s.reserved)
    requires OptStr(params, "definition") == Some(definition) && !Given(OptStr(params, "table")) && Columns(params) == []
    requires Gate(definition).Pass? && Parse(Lex(Gate(definition).stmt), s.reserved) == Some(st)
    requires st.CreateIndex? && PlannedAt(s, st) == Some(k) && k !in s.rels
    ensures var (after, r) := CreateIndexTool(s, params, false, Runs);
            var n := Gate(definition).index;
            && Added(s, after, k) && r == Returned(ReplayedResult(n))
            && CreateUndo(r.v) == Some(DropDescriptor(Str(n)))
            && (DropIndexTool(after, DropDescriptor(Str(n)).params, false, Runs, Runs).0 == s <==> ReplayFinds(s, n, k))
  {
    DefinitionSends(params, definition);
    CreateToolSubmits(s, params);
    ExecCreate(s, st);
    var after := CreateIndexTool(s, params, false, Runs).0;
    ReplayedFields(definition);
    CreateUndoFrom(s, after, k, Gate(definition).index);
  }

  /** `create_index` from an IF NOT EXISTS definition whose index is already there: it
      succeeds, leaves the server alone, and records a drop of the name the gate captured. The
      replay is harmless if and only if that name finds no index to drop. */
  lemma NoOpCreateUndoIff(s: Server, params: Value, definition: string, st: Stmt, k: RelName)
    requires GrammarReserved(s.reserved)
    requires OptStr(params, "definition") == Some(definition) && !Given(OptStr(params, "table")) && Columns(params) == []
    requires Gate(definition).Pass? && Parse(Lex(Gate(definition).stmt), s.reserved) == Some(st)
    requires st.CreateIndex? && st.ifNotExists && PlannedAt(s, st) == Some(k) && k in s.rels
    ensures var (after, r) := CreateIndexTool(s, params, false, Runs);
            var n := Gate(definition).index;
            && after == s && r == Returned(ReplayedResult(n))
            && CreateUndo(r.v) == Some(DropDescriptor(Str(n)))
            && (DropIndexTool(after, DropDescriptor(Str(n)).params, false, Runs, Runs).0 == s <==> !DropsSomething(s, n))
  {
    DefinitionSends(params, definition);
    CreateToolSubmits(s, params);
    ExecCreate(s, st);
    ReplayedFields(definition);
    CreateUndoFrom(s, s, k, Gate(definition).index);
  }

  // A text the gate passes on unchanged, if its shape is right.
  predicate Tidy(text: string) {
    text != "" && !PySpace(text[|text| - 1]) && ';' !in text
  }

  lemma TidyPasses(text: string, name: string)
    requires Tidy(text) && Solid(text) && GateName(text) == Some(name)
    ensures Gate(text) == Pass(text, name)
  {
    assert text[|text| - 1] in text;
    assert DropSemicolons(text) == text;
    TrimsNothing(text);
  }

  // A definition of an index on t: `p` is how the name is written.
  function Definition(unique: bool, guarded: bool, p: string, t: RelName, bodyText: string, reserved: set<string>): string {
    DefText(unique, guarded, p, TableText(t, reserved) + (" " + bodyText))
  }

  lemma DefinitionPasses(unique: bool, guarded: bool, p: string, name: string, t: RelName, bodyText: string, reserved: set<string>)
    requires Spells(p, name) && t.0 != "" && Tidy(Definition(unique, guarded, p, t, bodyText, reserved))
    ensures var text := Definition(unique, guarded, p, t, bodyText, reserved); Gate(text) == Pass(text, name)
  {
    NameStartsSolid(t.0, reserved);
    var target := TableText(t, reserved) + (" " + bodyText);
    assert target[0] == PrintName(t.0, reserved)[0];
    GatePasses(unique, guarded, p, name, target);
    TidyPasses(Definition(unique, guarded, p, t, bodyText, reserved), name);
  }

  predicate GoodBody(bodyText: string) {
    Lex(bodyText) != [] && Broken !in Lex(bodyText)
  }

  lemma GatedSubmit(s: Server, text: string, name: string, st: Stmt)
    requires Gate(text) == Pass(text, name) && Parse(Lex(text), s.reserved) == Some(st)
    ensures CreateFromDefinition(s, text, Runs) ==
            (Exec(s, st).0, if Exec(s, st).1 then Returned(ReplayedResult(name)) else Raised(PG_ERROR))
  {
  }

  // Looking up k by its own name, once it is there and first on the path.
  lemma FoldedNameCaptures(s: Server, after: Server, k: RelName, name: string)
    requires Added(s, after, k) && MatchesIdent(name) && Fold(Chomp(name)) == k.1
    requires FirstOnPath(s.rels, s.path, k)
    ensures Captured(after, name) == Some(k)
  {
    CapturedAfter(s, after, k, name);
  }

  /** An unquoted name with a capital in a definition: the server creates the folded name, the
      call reports the unfolded one, and the replay never restores. If an index of exactly the
      reported name is there already, and the new one is first on the path, the replay succeeds
      and drops the old index instead. */
  lemma UnquotedCapitalDropsAnother(s: Server, unique: bool, name: string, t: RelName, bodyText: string)
    requires GrammarReserved(s.reserved) && t in s.rels && s.rels[t].Table? && t.0 != "" && t.1 != "" && GoodBody(bodyText)
    requires IsIdent(name) && Fold(name) != name && Fold(name) !in s.reserved && (t.0, Fold(name)) !in s.rels
    requires Tidy(Definition(unique, false, name, t, bodyText, s.reserved))
    ensures var (after, r) := CreateFromDefinition(s, Definition(unique, false, name, t, bodyText, s.reserved), Runs);
            var k := (t.0, Fold(name));
            var end := DropIndexOp(after, name, false, Runs, Runs).0;
            && Added(s, after, k) && r == Returned(ReplayedResult(name)) && end != s
            && var prev := Find(s, Name(None, name));
               (prev.Some? && IsIndex(s, prev.value) && FirstOnPath(s.rels, s.path, k) ==>
                  end == after.(rels := after.rels - {prev.value}) && k in end.rels)
  {
    var k := (t.0, Fold(name));
    var text := Definition(unique, false, name, t, bodyText, s.reserved);
    var st := CreateIndex(unique, false, Fold(name), Name(Some(t.0), t.1), Lex(bodyText));
    DefinitionPasses(unique, false, name, name, t, bodyText, s.reserved);
    BareNameReads(name, s.reserved);
    DefTextParses(unique, false, name, Word(Fold(name)), Fold(name), t, bodyText, s.reserved);
    GatedSubmit(s, text, name, st);
    ExecCreate(s, st);
    var after := Exec(s, st).0;
    CreateReplay(s, after, k, after.rels[k], name);
    UndoFindsIff(s, after, k, name);
    var prev := Find(s, Name(None, name));
    if prev.Some? && IsIndex(s, prev.value) && FirstOnPath(s.rels, s.path, k) {
      OldIndexIsDropped(s, after, k, name, prev.value);
    }
  }

  lemma OldIndexIsDropped(s: Server, after: Server, k: RelName, name: string, prev: RelName)
    requires GrammarReserved(s.reserved) && Added(s, after, k) && IsIdent(name) && Fold(name) == k.1 && name != k.1
    requires Find(s, Name(None, name)) == Some(prev) && IsIndex(s, prev) && FirstOnPath(s.rels, s.path, k)
    ensures var end := DropIndexOp(after, name, false, Runs, Runs).0;
            end == after.(rels := after.rels - {prev}) && k in end.rels
  {
    IdentHasNoNewline(name);
    assert Chomp(name) == name;
    FoldedNameCaptures(s, after, k, name);
    FoundElsewhere(s.rels, after.rels, s.path, k, name);
    DropReplay(after, name);
  }

  /** IF NOT EXISTS on an index that is there: for every index with a plain lower-case name
      that its name finds, its own definition with IF NOT EXISTS in it succeeds, changes
      nothing, and leaves an inverse that drops the index. */
  lemma IfNotExistsUndoDropsTheIndex(s: Server, k: RelName)
    requires Sane(s) && IsIndex(s, k) && IsIdent(k.1) && WrittenAsRead(k.1) && Find(s, Name(None, k.1)) == Some(k)
    requires Tidy(Definition(s.rels[k].unique, true, PrintName(k.1, s.reserved), s.rels[k].table,
                             PrintAll(s.rels[k].body), s.reserved))
    ensures var r := s.rels[k];
            var text := Definition(r.unique, true, PrintName(k.1, s.reserved), r.table, PrintAll(r.body), s.reserved);
            && CreateFromDefinition(s, text, Runs) == (s, Returned(ReplayedResult(k.1)))
            && DropIndexOp(s, k.1, false, Runs, Runs).0 == s.(rels := s.rels - {k})
  {
    GuardedDefinitionDoesNothing(s, k);
    PlainNameDropsIt(s, k);
  }

  lemma GuardedDefinitionParses(s: Server, k: RelName)
    requires Sane(s) && IsIndex(s, k) && IsIdent(k.1)
    ensures var r := s.rels[k];
            Parse(Lex(Definition(r.unique, true, PrintName(k.1, s.reserved), r.table, PrintAll(r.body), s.reserved)), s.reserved) ==
            Some(CreateIndex(r.unique, true, k.1, Name(Some(r.table.0), r.table.1), r.body))
  {
    assert GoodIndex(s, k);
    var r := s.rels[k];
    PrintedNameReads(k.1, s.reserved);
    NameTokenReads(k.1, s.reserved);
    LexPrinted(r.body);
    CanonStarts(r.body, s.reserved);
    NothingBroken(r.body);
    DefTextParses(r.unique, true, PrintName(k.1, s.reserved), NameToken(k.1, s.reserved), k.1, r.table,
                  PrintAll(r.body), s.reserved);
  }

  lemma GuardedDefinitionDoesNothing(s: Server, k: RelName)
    requires Sane(s) && IsIndex(s, k) && IsIdent(k.1)
    requires Tidy(Definition(s.rels[k].unique, true, PrintName(k.1, s.reserved), s.rels[k].table,
                             PrintAll(s.rels[k].body), s.reserved))
    ensures var r := s.rels[k];
            CreateFromDefinition(s, Definition(r.unique, true, PrintName(k.1, s.reserved), r.table, PrintAll(r.body), s.reserved), Runs) ==
            (s, Returned(ReplayedResult(k.1)))
  {
    assert GoodIndex(s, k);
    var r, p := s.rels[k], PrintName(k.1, s.reserved);
    PrintedNameSpells(k.1, s.reserved);
    DefinitionPasses(r.unique, true, p, k.1, r.table, PrintAll(r.body), s.reserved);
    GuardedDefinitionParses(s, k);
    var st := CreateIndex(r.unique, true, k.1, Name(Some(r.table.0), r.table.1), r.body);
    GatedSubmit(s, Definition(r.unique, true, p, r.table, PrintAll(r.body), s.reserved), k.1, st);
    ExecCreate(s, st);
  }

  lemma PlainNameDropsIt(s: Server, k: RelName)
    requires GrammarReserved(s.reserved) && IsIndex(s, k) && IsIdent(k.1) && WrittenAsRead(k.1)
    requires Find(s, Name(None, k.1)) == Some(k)
    ensures DropIndexOp(s, k.1, false, Runs, Runs).0 == s.(rels := s.rels - {k})
  {
    FoldedOnePart(k.1);
    RegClassFolds(s, k.1);
    DropReplay(s, k.1);
  }

  // ── one such server and one such text ───────────────────────────────────

  const GRAMMAR: set<string> := {"on", "unique", "concurrently", "only", "not", "using"}

  // A table public.t with an index "Foo" on it.
  function WithFoo(): Server {
    Server(map[("public", "t") := Table,
               ("public", "Foo") := Index(false, ("public", "t"), [Word("using"), Word("btree"), Punct('('), Word("a"), Punct(')')])],
           ["public"], GRAMMAR, map[], map[], map[], map[], [])
  }

  lemma PublicT()
    ensures TableText(("public", "t"), GRAMMAR) == "public.t"
  {
    assert Bare("public", GRAMMAR) && Bare("t", GRAMMAR);
  }

  lemma FooNamedPart()
    ensures NamedPart("Foo", "public.t (a)") == "Foo ON public.t (a)"
  {
  }

  lemma FooText()
    ensures Definition(false, false, "Foo", ("public", "t"), "(a)", GRAMMAR) == "CREATE INDEX Foo ON public.t (a)"
  {
    PublicT();
    assert "public.t" + (" " + "(a)") == "public.t (a)";
    FooNamedPart();
    NoGuardText("Foo ON public.t (a)");
    FooIndexPart();
  }

  lemma FooIndexPart()
    ensures Kw(true, "CREATE") + (Kw(false, "UNIQUE") + (Kw(true, "INDEX") + "Foo ON public.t (a)")) ==
            "CREATE INDEX Foo ON public.t (a)"
  {
    var rest := Kw(true, "INDEX") + "Foo ON public.t (a)";
    assert "" + rest == rest;
  }

  lemma FooIsTidy()
    ensures Tidy("CREATE INDEX Foo ON public.t (a)")
  {
  }

  lemma OneColumnBody()
    ensures GoodBody("(a)")
  {
    LexClose();
    LexAlone1();
    LexOpen("a)");
    assert "(a)" == "(" + "a)";
  }

  lemma LexAlone1()
    ensures Lex("a)") == [Word("a"), Punct(')')]
  {
    LexClose();
    FoldOfLower("a");
    LexWord("a", ")");
    assert "a)" == "a" + ")";
  }

  lemma FoldOfFoo()
    ensures Fold("Foo") == "foo" && IsIdent("Foo")
  {
  }

  lemma FooIsThere()
    ensures var s := WithFoo();
            && GrammarReserved(s.reserved) && "foo" !in s.reserved && ("public", "foo") !in s.rels
            && Find(s, Name(None, "Foo")) == Some(("public", "Foo")) && IsIndex(s, ("public", "Foo"))
            && FirstOnPath(s.rels, s.path, ("public", "foo"))
  {
    var s := WithFoo();
    assert s.path[0] == "public";
  }

  /** `CREATE INDEX Foo ON public.t (a)` where an index "Foo" exists: "foo" is created, a drop
      of "Foo" is recorded, and replaying it removes the older "Foo" and leaves "foo". */
  lemma FooIsDroppedForFoo()
    ensures var s := WithFoo();
            var (after, r) := CreateFromDefinition(s, "CREATE INDEX Foo ON public.t (a)", Runs);
            var end := DropIndexOp(after, "Foo", false, Runs, Runs).0;
            && r.Returned? && Added(s, after, ("public", "foo"))
            && ("public", "Foo") in s.rels && ("public", "Foo") !in end.rels && ("public", "foo") in end.rels
  {
    var s := WithFoo();
    FooText();
    FooIsTidy();
    OneColumnBody();
    FoldOfFoo();
    FooIsThere();
    UnquotedCapitalDropsAnother(s, false, "Foo", ("public", "t"), "(a)");
  }

  // ── drop_index and its inverse ──────────────────────────────────────────

  // The captured text reaches the server as it was printed.
  predicate Keeps(def: string) {
    && Sanitize.Sanitize(def, DEF_MAX) == def
    && def != "" && !PySpace(def[|def| - 1]) && def[|def| - 1] != ';'
  }

  lemma ReplayParams(def: string)
    ensures var p := ReplayDescriptor(Str(def)).params;
            && OptStr(p, "definition") == Some(def) && OptStr(p, "table") == None && Columns(p) == []
  {
    var es := [Entry("definition", Str(def))];
    assert es[1..] == [];
    assert Lookup(es, "table") == Lookup(es[1..], "table");
    assert Lookup(es, "columns") == Lookup(es[1..], "columns");
  }

  lemma DroppedInverse(name: string, def: string)
    ensures var kept := Sanitize.Sanitize(def, DEF_MAX);
            DropUndo(DroppedResult(name, def)) == if kept == "" then None else Some(ReplayDescriptor(Str(kept)))
  {
    var es := DroppedResult(name, def).entries;
    assert es[1..][1..][0] == es[2];
    assert Lookup(es, "priorState") == Lookup(es[1..], "priorState");
    assert Lookup(es[1..], "priorState") == Lookup(es[1..][1..], "priorState");
  }

  lemma TidyAsPrinted(def: string)
    requires Keeps(def) && Solid(def)
    ensures Trim(DropSemicolons(Trim(def))) == def
  {
    TrimsNothing(def);
    assert DropSemicolons(def) == def;
  }

  lemma GatedAsPrinted(s: Server, def: string)
    requires Keeps(def) && Solid(def)
    ensures CreateFromDefinition(s, def, Runs).0 ==
            if ';' in def || GateName(def).None? then s else Submit(s, def).0
  {
    TidyAsPrinted(def);
  }

  // Replaying the definition of k after d was dropped.
  lemma ReplayAfterDrop(s: Server, k: RelName, d: RelName)
    requires Sane(s) && IsIndex(s, k) && IsIndex(s, d)
    ensures var after := s.(rels := s.rels - {d});
            Submit(after, PrintDef(s, k)) == if k == d then (s, true) else (after, false)
  {
    PrintedDefParses(s, k);
    assert GoodIndex(s, k);
    var r, after := s.rels[k], s.(rels := s.rels - {d});
    assert r.table in after.rels;
    if k == d {
      assert after.rels[k := r] == s.rels;
    }
  }

  lemma ReplayGoesToTheGate(s: Server, def: string)
    requires def != ""
    ensures CreateIndexTool(s, ReplayDescriptor(Str(def)).params, false, Runs) == CreateFromDefinition(s, def, Runs)
  {
    ReplayParams(def);
  }

  lemma PlainIdent(part: string)
    requires MatchesIdent(part) && NothingToFold(part)
    ensures IsIdent(part)
  {
  }

  lemma DroppedNameIsPlain(s: Server, name: string)
    requires Qualify(name).Success? && WrittenAsRead(name)
    ensures IsIdent(QualifiedName(name).name)
  {
    var parts := Split(name);
    if |parts| == 1 {
      JoinSplit(name);
      PlainIdent(parts[0]);
    } else {
      JoinedPair(name);
      PairIsPlainIff(parts[0], parts[1]);
      PlainIdent(parts[1]);
    }
  }

  // The definition of the captured index k, replayed after d was dropped.
  lemma DefinitionReplay(s: Server, k: RelName, d: RelName)
    requires Sane(s) && IsIndex(s, k) && IsIndex(s, d) && Keeps(PrintDef(s, k))
    requires k == d ==> IsIdent(k.1)
    ensures var after := s.(rels := s.rels - {d});
            CreateFromDefinition(after, PrintDef(s, k), Runs).0 ==
            if k == d && ';' !in PrintDef(s, k) then s else after
  {
    var def := PrintDef(s, k);
    PrintedDefIsSolid(s, k);
    GatedAsPrinted(s.(rels := s.rels - {d}), def);
    ReplayAfterDrop(s, k, d);
    if k == d {
      GateTakesPrintedDef(s, k);
    }
  }

  lemma PrintedDefIsSolid(s: Server, k: RelName)
    requires IsIndex(s, k)
    ensures Solid(PrintDef(s, k))
  {
    assert PrintDef(s, k)[0] == 'C';
  }

  lemma DropSucceeds(s: Server, name: string, concurrently: bool)
    requires GrammarReserved(s.reserved)
    ensures var (after, r) := DropIndexOp(s, name, concurrently, Runs, Runs);
            r.Returned? ==>
              && Qualify(name).Success? && Captured(s, name).Some? && Find(s, QualifiedName(name)).Some?
              && var k, d := Captured(s, name).value, Find(s, QualifiedName(name)).value;
              && IsIndex(s, k) && IsIndex(s, d) && after == s.(rels := s.rels - {d})
              && r.v == DroppedResult(name, PrintDef(s, k))
  {
    if Qualify(name).Success? {
      DropIndexDoes(s, name, concurrently);
    }
  }

  // A definition that capture leaves as it is.
  lemma KeptDefinitionRestoresIff(s: Server, name: string, concurrently: bool)
    requires Sane(s)
    ensures var (after, r) := DropIndexOp(s, name, concurrently, Runs, Runs);
            r.Returned? && Keeps(PrintDef(s, Captured(s, name).value)) ==>
              var def := PrintDef(s, Captured(s, name).value);
              && DropUndo(r.v) == Some(ReplayDescriptor(Str(def)))
              && (CreateIndexTool(after, ReplayDescriptor(Str(def)).params, false, Runs).0 == s
                  <==> WrittenAsRead(name) && ';' !in def)
  {
    var (after, r) := DropIndexOp(s, name, concurrently, Runs, Runs);
    DropSucceeds(s, name, concurrently);
    if r.Returned? && Keeps(PrintDef(s, Captured(s, name).value)) {
      var k, d := Captured(s, name).value, Find(s, QualifiedName(name)).value;
      var def := PrintDef(s, k);
      CapturedIsDroppedIff(s, name);
      if k == d {
        DroppedNameIsPlain(s, name);
      }
      DroppedInverse(name, def);
      ReplayGoesToTheGate(after, def);
      DefinitionReplay(s, k, d);
      assert d in s.rels && d !in after.rels;
    }
  }

  // ── update_setting and its inverse ──────────────────────────────────────

  // What a parameter's text means to the server: how it displays it.
  function Means(s: Server, p: string, v: string): string {
    if (p, v) in s.accepted then s.accepted[(p, v)] else v
  }

  ghost predicate SameConf(s: Server, a: map<string, string>, b: map<string, string>) {
    && (forall p :: p in a <==> p in b)
    && (forall p :: p in a && p in b ==> Means(s, p, a[p]) == Means(s, p, b[p]))
  }

  // What the settings view says about the parameter is what postgresql.auto.conf holds.
  predicate ViewTells(s: Server, name: string, p: string) {
    var row := PriorRow(s, name);
    && (PinnedRow(row) <==> p in s.autoConf)
    && (p in s.autoConf ==> Means(s, p, PriorValue(row)) == Means(s, p, s.autoConf[p]))
  }

  lemma SettingDoes(s: Server, name: string, value: Option<string>, reset: bool)
    ensures var (after, r) := UpdateSettingOp(s, name, value, reset, Runs, Runs);
            r.Returned? ==>
              && ParamOf(name, s.reserved).Some?
              && var p := ParamOf(name, s.reserved).value;
              && Known(s, p)
              && after == s.(autoConf := if reset then s.autoConf - {p} else s.autoConf[p := value.value])
              && r.v == UpdatedResult(name, if reset then None else value, PriorRow(s, name))
              && MatchesParam(name) && !LocksOut(name)
  {
    if MatchesParam(name) {
      if reset {
        ParsesReset(name, s.reserved);
      } else if value.Some? {
        ParsesSet(name, value.value, s.reserved);
      }
    }
  }

  lemma UpdatedResultFields(name: string, value: Option<string>, r: Option<Setting>)
    ensures var prior := Prior(UpdatedResult(name, value, r));
            && prior.Dict? && Truthy(prior)
            && Get(prior, "pinnedInAutoConf") == Bool(PinnedRow(r))
            && Get(prior, "value") == Str(PriorValue(r))
  {
    var es := Prior(UpdatedResult(name, value, r)).entries;
    assert es[1..][0] == Entry("pinnedInAutoConf", Bool(PinnedRow(r)));
    assert Lookup(es, "pinnedInAutoConf") == Lookup(es[1..], "pinnedInAutoConf");
  }

  // The inverse that is recorded: none, a reset, or the prior value.
  function SettingInverse(name: string, r: Option<Setting>): Option<Descriptor> {
    if !PinnedRow(r) then Some(ResetDescriptor(Str(name)))
    else if PriorValue(r) == "" then None
    else Some(SetDescriptor(Str(name), Str(PriorValue(r))))
  }

  lemma SettingInverseIs(params: Value, name: string, value: Option<string>, r: Option<Setting>)
    requires Get(params, "name") == Str(name)
    ensures SettingUndo(params, UpdatedResult(name, value, r)) == SettingInverse(name, r)
  {
    UpdatedResultFields(name, value, r);
  }

  lemma ResetParams(name: string)
    ensures var p := ResetDescriptor(Str(name)).params;
            Get(p, "name") == Str(name) && Truthy(Get(p, "reset")) && OptStr(p, "value").None?
  {
    var es := [Entry("name", Str(name)), Entry("reset", Bool(true))];
    assert es[1..][0] == es[1] && es[1..][1..] == [];
    assert Lookup(es, "reset") == Lookup(es[1..], "reset");
    assert Lookup(es, "value") == Lookup(es[1..], "value");
    assert Lookup(es[1..], "value") == Lookup(es[1..][1..], "value");
  }

  lemma SetParams(name: string, value: string)
    ensures var p := SetDescriptor(Str(name), Str(value)).params;
            Get(p, "name") == Str(name) && !Truthy(Get(p, "reset")) && OptStr(p, "value") == Some(value)
  {
    var es := [Entry("name", Str(name)), Entry("value", Str(value))];
    assert es[1..][0] == es[1] && es[1..][1..] == [];
    assert Lookup(es, "value") == Lookup(es[1..], "value");
    assert Lookup(es, "reset") == Lookup(es[1..], "reset");
    assert Lookup(es[1..], "reset") == Lookup(es[1..][1..], "reset");
  }

  lemma ResetDoes(t: Server, name: string, p: string)
    requires MatchesParam(name) && !LocksOut(name) && ParamOf(name, t.reserved) == Some(p) && Known(t, p)
    ensures UpdateSettingTool(t, ResetDescriptor(Str(name)).params, false, Runs, Runs).0 ==
            t.(autoConf := t.autoConf - {p})
    ensures UpdateSettingTool(t, ResetDescriptor(Str(name)).params, false, Runs, Runs).1.Returned?
  {
    ResetParams(name);
    ParsesReset(name, t.reserved);
  }

  lemma SetDoes(t: Server, name: string, value: string, p: string)
    requires MatchesParam(name) && !LocksOut(name) && ParamOf(name, t.reserved) == Some(p)
    requires (p, value) in t.accepted
    ensures UpdateSettingTool(t, SetDescriptor(Str(name), Str(value)).params, false, Runs, Runs).0 ==
            t.(autoConf := t.autoConf[p := value])
    ensures UpdateSettingTool(t, SetDescriptor(Str(name), Str(value)).params, false, Runs, Runs).1.Returned?
  {
    SetParams(name, value);
    ParsesSet(name, value, t.reserved);
  }

  lemma SetIsRefused(t: Server, name: string, value: string, p: string)
    requires MatchesParam(name) && !LocksOut(name) && ParamOf(name, t.reserved) == Some(p)
    requires (p, value) !in t.accepted
    ensures var (end, r) := UpdateSettingTool(t, SetDescriptor(Str(name), Str(value)).params, false, Runs, Runs);
            end == t && r.Raised?
  {
    SetParams(name, value);
    ParsesSet(name, value, t.reserved);
  }

  // What the recorded inverse does, on any server that knows the parameter.
  lemma InverseSettingDoes(t: Server, name: string, r: Option<Setting>, p: string)
    requires MatchesParam(name) && !LocksOut(name) && ParamOf(name, t.reserved) == Some(p) && Known(t, p)
    requires SettingInverse(name, r).Some?
    requires PinnedRow(r) ==> (p, PriorValue(r)) in t.accepted
    ensures UpdateSettingTool(t, SettingInverse(name, r).value.params, false, Runs, Runs).0 ==
            t.(autoConf := if PinnedRow(r) then t.autoConf[p := PriorValue(r)] else t.autoConf - {p})
    ensures UpdateSettingTool(t, SettingInverse(name, r).value.params, false, Runs, Runs).1.Returned?
  {
    if PinnedRow(r) {
      SetDoes(t, name, PriorValue(r), p);
    } else {
      ResetDoes(t, name, p);
    }
  }

  lemma PutBackIff(s: Server, a: map<string, string>, p: string, row: Option<Setting>)
    requires forall q :: q != p ==> (q in a <==> q in s.autoConf)
    requires forall q :: q != p && q in a ==> a[q] == s.autoConf[q]
    ensures SameConf(s, if PinnedRow(row) then a[p := PriorValue(row)] else a - {p}, s.autoConf) <==>
            && (PinnedRow(row) <==> p in s.autoConf)
            && (p in s.autoConf ==> Means(s, p, PriorValue(row)) == Means(s, p, s.autoConf[p]))
  {
    var end := if PinnedRow(row) then a[p := PriorValue(row)] else a - {p};
    assert p in end <==> PinnedRow(row);
  }

  // The server takes back the value that the view displays.
  predicate TakesBack(s: Server, name: string, p: string) {
    var row := PriorRow(s, name);
    PinnedRow(row) ==> (p, PriorValue(row)) in s.accepted
  }

  // The write changes nothing, by the meaning of the values.
  predicate WritesTheSame(s: Server, p: string, value: Option<string>, reset: bool) {
    if reset || value.None? then p !in s.autoConf
    else p in s.autoConf && Means(s, p, value.value) == Means(s, p, s.autoConf[p])
  }

  lemma SameAfterWriteIff(s: Server, p: string, value: Option<string>, reset: bool)
    requires reset || value.Some?
    ensures SameConf(s, if reset then s.autoConf - {p} else s.autoConf[p := value.value], s.autoConf)
            <==> WritesTheSame(s, p, value, reset)
  {
    var a := if reset then s.autoConf - {p} else s.autoConf[p := value.value];
    assert p in a <==> !reset;
  }

  /** `update_setting` undone. An inverse is recorded unless the parameter is pinned to a value
      that is displayed as empty. The inverse succeeds if and only if the server takes the
      displayed value back. Then it restores postgresql.auto.conf, by the meaning of the values,
      if and only if the settings view told the truth about the parameter when the write ran;
      otherwise, if and only if there was nothing to restore. */
  lemma SettingUndoRestoresIff(s: Server, params: Value, name: string, value: Option<string>, reset: bool)
    requires Get(params, "name") == Str(name)
    ensures var (after, r) := UpdateSettingOp(s, name, value, reset, Runs, Runs);
            var row := PriorRow(s, name);
            var d := SettingInverse(name, row);
            r.Returned? ==>
              && SettingUndo(params, r.v) == d && (d.None? <==> PinnedRow(row) && PriorValue(row) == "")
              && ParamOf(name, s.reserved).Some?
              && var p := ParamOf(name, s.reserved).value;
              (d.Some? ==>
                var (end, back) := UpdateSettingTool(after, d.value.params, false, Runs, Runs);
                && (back.Returned? <==> TakesBack(s, name, p)) && end == s.(autoConf := end.autoConf)
                && (SameConf(s, end.autoConf, s.autoConf) <==>
                    if TakesBack(s, name, p) then ViewTells(s, name, p) else WritesTheSame(s, p, value, reset)))
  {
    var (after, r) := UpdateSettingOp(s, name, value, reset, Runs, Runs);
    var row := PriorRow(s, name);
    SettingDoes(s, name, value, reset);
    if r.Returned? {
      var p := ParamOf(name, s.reserved).value;
      SettingInverseIs(params, name, if reset then None else value, row);
      if SettingInverse(name, row).Some? {
        if TakesBack(s, name, p) {
          InverseSettingDoes(after, name, row, p);
          PutBackIff(s, after.autoConf, p, row);
        } else {
          SetIsRefused(after, name, PriorValue(row), p);
          SameAfterWriteIff(s, p, value, reset);
        }
      }
    }
  }

  // The view was refreshed since postgresql.auto.conf last changed.
  predicate Reloaded(s: Server) {
    && (forall p :: p in s.autoConf ==> p in s.view)
    && (forall p :: p in s.view ==> ViewTells(s, p, p))
    && (forall p :: p in s.view ==> !EndsInNewline(p))
  }

  /** After a reload the view tells the truth about every parameter whose name is written
      without a final newline. */
  lemma ReloadedViewTells(s: Server, name: string)
    requires Reloaded(s) && MatchesParam(name) && !EndsInNewline(name) && ParamOf(name, s.reserved).Some?
    ensures ViewTells(s, name, ParamOf(name, s.reserved).value)
  {
    ParamIsTheName(name, s.reserved);
  }

  /** A name with a final newline is found in postgresql.auto.conf but not in the view, so
      the recorded inverse drops a pin that was there before. */
  lemma NewlineNameLosesThePin(s: Server, name: string)
    requires Reloaded(s) && MatchesParam(name) && EndsInNewline(name) && ParamOf(name, s.reserved).Some?
    ensures var p := ParamOf(name, s.reserved).value;
            && p == Chomp(name)
            && SettingInverse(name, PriorRow(s, name)) == Some(ResetDescriptor(Str(name)))
            && (ViewTells(s, name, p) <==> p !in s.autoConf)
  {
    ParamIsTheName(name, s.reserved);
    assert name !in s.view;
  }
}
