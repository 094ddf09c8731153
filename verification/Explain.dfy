/**
 EXPLAIN as a read: the checks in front of it, and the BEGIN, EXPLAIN, ROLLBACK sequence
 that runs a statement for its timings and throws its effects away.

 `SqlSession` is the connection and is stepped through the sequence in place. What a
 rollback does not revert is kept apart from the content: effects outside transaction control
 (sequences, session-level locks, sessions ended or cancelled, reload requests, statistics
 resets, and any other), and what a statement commits to this very database through a
 connection of its own. A plain SELECT can cause all of them.
 */
module Explain {
  import opened Common
  import opened Sql
  import opened IndexDef
  import opened Outcome

  type Db = map<string, int>

  // What takes hold at once and for good. `locks` are this session's own and end with it;
  // `others` is open: statistics resets, replication slots, WAL switches, files, other servers.
  datatype Lasting = Lasting(sequences: Db, locks: set<int>, signalled: seq<int>, reloads: nat, others: seq<string>)

  // `work` is the content as the open transaction sees it, None outside a transaction.
  datatype Session = Session(committed: Db, work: Option<Db>, lasting: Lasting, alive: bool)

  // What executing the statement would do, and how it ends; in a transaction that an error
  // has aborted it raises. `across`: what the committed content is afterwards, if the statement
  // commits to this database through another connection.
  datatype Effect = Effect(content: Db, across: Option<Db>, lasting: Lasting, raises: bool, linkDies: bool)

  // How BEGIN and ROLLBACK go.
  datatype Ends = Fine | Errs | LinkDies

  // ── the checks ──────────────────────────────────────────────────────────

  const MAX_STATEMENT: int := 100000

  function Validate(sql: string): Option<string> {
    var text := Trim(DropSemicolons(Trim(sql)));
    if text == "" || |text| > MAX_STATEMENT || ';' in text then None else Some(text)
  }

  predicate Opening(c: char) {
    c == '(' || c == ' ' || c == '\t' || c == '\n'
  }

  // `.lstrip("( \t\n")`
  function Unwrapped(s: string): string {
    if s != "" && Opening(s[0]) then Unwrapped(s[1..]) else s
  }

  function FirstChunk(s: string): string {
    if s == "" || PySpace(s[0]) then "" else [s[0]] + FirstChunk(s[1..])
  }

  const READ_ONLY: set<string> := {"select", "table", "values", "show"}

  // `.split(None, 1)[0].lower()`; where that finds nothing it raises, which refuses as well.
  predicate ReadOnlyLeader(statement: string) {
    Fold(FirstChunk(TrimLeft(Unwrapped(statement)))) in READ_ONLY
  }

  // ── the connection ──────────────────────────────────────────────────────

  // A dead link ends the session: its transaction is rolled back and its locks released.
  function Cut(s: Session): Session {
    s.(work := None, lasting := s.lasting.(locks := {}), alive := false)
  }

  // BEGIN inside a transaction is only a warning.
  function Begin(s: Session, e: Ends): Session {
    if !s.alive then s
    else
      match e
      case Fine => s.(work := Some(if s.work.Some? then s.work.value else s.committed))
      case Errs => s
      case LinkDies => Cut(s)
  }

  // The committed content once the statement's own connections are through with it.
  function Across(committed: Db, x: Effect): Db {
    if x.across.Some? then x.across.value else committed
  }

  // A statement: inside a transaction its content waits for the end, outside it is committed.
  function Execute(s: Session, x: Effect): Session {
    if !s.alive then s
    else
      var held := s.(lasting := x.lasting, committed := Across(s.committed, x));
      if x.linkDies then Cut(held)
      else if x.raises then held
      else if s.work.Some? then held.(work := Some(x.content))
      else held.(committed := x.content)
  }

  function Rollback(s: Session, e: Ends): Session {
    if !s.alive then s
    else match e case Fine => s.(work := None) case Errs => s case LinkDies => Cut(s)
  }

  // Planning alone executes nothing, but the link may die under it.
  function PlanOnly(s: Session, x: Effect): Session {
    if s.alive && x.linkDies then Cut(s) else s
  }

  // One call of explain_query.
  datatype Call = Call(sql: string, analyze: bool, begin: Ends, x: Effect, rollback: Ends) {
    // The statement is sent for execution.
    predicate Executes() {
      analyze && begin == Fine && Validate(sql).Some? && ReadOnlyLeader(Validate(sql).value)
    }
  }

  function ExplainQuery(s: Session, c: Call): (Session, bool) {
    match Validate(c.sql)
    case None => (s, false)
    case Some(text) =>
      if !c.analyze then (PlanOnly(s, c.x), s.alive && !c.x.raises && !c.x.linkDies)
      else if !ReadOnlyLeader(text) then (s, false)
      else if !s.alive || c.begin != Fine then (Begin(s, c.begin), false)
      else
        (Rollback(Execute(Begin(s, c.begin), c.x), c.rollback), !c.x.raises && !c.x.linkDies && c.rollback == Fine)
  }

  class SqlSession {
    var state: Session

    constructor (committed: Db, lasting: Lasting)
      ensures state == Session(committed, None, lasting, true)
    {
      state := Session(committed, None, lasting, true);
    }

    method RunBegin(e: Ends) returns (ok: bool)
      modifies this
      ensures state == Begin(old(state), e) && ok == (old(state).alive && e == Fine)
    {
      ok := state.alive && e == Fine;
      if ok {
        if state.work.None? {
          state := state.(work := Some(state.committed));
        }
      } else if state.alive && e == LinkDies {
        state := Cut(state);
      }
    }

    method RunStatement(x: Effect) returns (ok: bool)
      modifies this
      ensures state == Execute(old(state), x) && ok == (old(state).alive && !x.raises && !x.linkDies)
    {
      ok := state.alive && !x.raises && !x.linkDies;
      if state.alive {
        state := state.(lasting := x.lasting, committed := Across(state.committed, x));
        if x.linkDies {
          state := Cut(state);
        } else if !x.raises {
          if state.work.Some? {
            state := state.(work := Some(x.content));
          } else {
            state := state.(committed := x.content);
          }
        }
      }
    }

    method RunPlan(x: Effect) returns (ok: bool)
      modifies this
      ensures state == PlanOnly(old(state), x) && ok == (old(state).alive && !x.raises && !x.linkDies)
    {
      ok := state.alive && !x.raises && !x.linkDies;
      if state.alive && x.linkDies {
        state := Cut(state);
      }
    }

    method RunRollback(e: Ends) returns (ok: bool)
      modifies this
      ensures state == Rollback(old(state), e) && ok == (old(state).alive && e == Fine)
    {
      ok := state.alive && e == Fine;
      if ok {
        state := state.(work := None);
      } else if state.alive && e == LinkDies {
        state := Cut(state);
      }
    }

    method Explain(c: Call) returns (ok: bool)
      modifies this
      ensures (state, ok) == ExplainQuery(old(state), c)
    {
      var text := Validate(c.sql);
      if text.None? {
        return false;
      }
      if !c.analyze {
        ok := RunPlan(c.x);
        return;
      }
      if !ReadOnlyLeader(text.value) {
        return false;
      }
      var begun := RunBegin(c.begin);
      if !begun {
        return false;
      }
      var ran := RunStatement(c.x);
      // ROLLBACK runs whether or not the statement raised.
      var back := RunRollback(c.rollback);
      ok := ran && back;
    }
  }

  // ── a read, except for what lasts ───────────────────────────────────────

  // The link dies somewhere in the call.
  predicate LosesTheLink(c: Call) {
    if c.Executes() then c.x.linkDies || c.rollback == LinkDies
    else
      Validate(c.sql).Some? &&
      if !c.analyze then c.x.linkDies else ReadOnlyLeader(Validate(c.sql).value) && c.begin == LinkDies
  }

  // Nothing that a rollback cannot revert happened.
  predicate Reverts(s: Session, x: Effect) {
    x.lasting == s.lasting && Across(s.committed, x) == s.committed
  }

  /** The committed content is as it was unless the executed statement changed it through
      another connection. The whole session is as it was if and only if the link survived and,
      where the statement was executed, nothing that a rollback cannot revert happened and no
      error kept ROLLBACK from ending the transaction. */
  lemma ExplainIsAReadIff(s: Session, c: Call)
    requires s.alive && s.work.None?
    ensures var s' := ExplainQuery(s, c).0;
            && s'.committed == (if c.Executes() then Across(s.committed, c.x) else s.committed)
            && (s' == s <==> !LosesTheLink(c) && (c.Executes() ==> Reverts(s, c.x) && c.rollback == Fine))
  {
  }

  /** Whatever a rollback cannot revert, of whatever kind, stays. */
  lemma LastingEffectsAreNotRolledBack(s: Session, c: Call)
    requires s.alive && s.work.None? && c.Executes() && !c.x.linkDies && c.rollback == Fine
    ensures ExplainQuery(s, c).0 == s.(lasting := c.x.lasting, committed := Across(s.committed, c.x))
  {
  }

  /** The transaction is still open afterwards exactly when ROLLBACK raised on a live link. */
  lemma TransactionLeftOpenIff(s: Session, c: Call)
    requires s.alive && s.work.None?
    ensures ExplainQuery(s, c).0.work.Some? <==> c.Executes() && !c.x.linkDies && c.rollback == Errs
  {
  }

  // ── runs of reads and writes on one connection ──────────────────────────

  datatype Event = Read(c: Call) | Write(x: Effect)

  function Step(s: Session, e: Event): Session {
    match e case Read(c) => ExplainQuery(s, c).0 case Write(x) => Execute(s, x)
  }

  function Run(s: Session, evs: seq<Event>): Session {
    if evs == [] then s else Step(Run(s, evs[..|evs| - 1]), evs[|evs| - 1])
  }

  // A ROLLBACK that raises although the link is alive.
  predicate Sticks(e: Event) {
    e.Read? && e.c.Executes() && !e.c.x.linkDies && e.c.rollback == Errs
  }

  // The statement of the event, if it reaches the server on this session.
  function Executed(s: Session, e: Event): Option<Effect> {
    match e
    case Read(c) => if s.alive && c.Executes() then Some(c.x) else None
    case Write(x) => if s.alive then Some(x) else None
  }

  // The content a run leaves, had each successful write been committed at once, and each
  // statement's other connections been the only thing a read commits.
  function Intended(s: Session, evs: seq<Event>): Db {
    if evs == [] then s.committed
    else
      var n := |evs| - 1;
      var before, e := Intended(s, evs[..n]), evs[n];
      match Executed(Run(s, evs[..n]), e)
      case None => before
      case Some(x) => if e.Write? && !x.raises && !x.linkDies then x.content else Across(before, x)
  }

  lemma ReadCommits(s: Session, c: Call)
    ensures ExplainQuery(s, c).0.committed ==
            match Executed(s, Read(c)) case None => s.committed case Some(x) => Across(s.committed, x)
  {
  }

  /** Over any run of reads on one connection, whatever state it is in, the committed content
      changes by what statements commit through other connections, and by nothing else. */
  lemma {:induction false} ReadsKeepCommitted(s: Session, evs: seq<Event>)
    requires forall i :: 0 <= i < |evs| ==> evs[i].Read?
    ensures Run(s, evs).committed == Intended(s, evs)
    ensures (forall i :: 0 <= i < |evs| ==> evs[i].c.x.across.None?) ==> Run(s, evs).committed == s.committed
  {
    if evs != [] {
      ReadsKeepCommitted(s, evs[..|evs| - 1]);
      ReadCommits(Run(s, evs[..|evs| - 1]), evs[|evs| - 1].c);
    }
  }

  /** If no ROLLBACK sticks, the reads leave no trace of their own transactions on the writes
      around them: none is ever left open, and the committed content is what the successful
      writes left. */
  lemma {:induction false} WritesAreKept(s: Session, evs: seq<Event>)
    requires s.work.None? && forall i :: 0 <= i < |evs| ==> !Sticks(evs[i])
    ensures Run(s, evs).work.None? && Run(s, evs).committed == Intended(s, evs)
  {
    if evs != [] {
      WritesAreKept(s, evs[..|evs| - 1]);
    }
  }

  /** A ROLLBACK that sticks costs a write: one that succeeds right after it is not committed,
      and the next analysing read, with its own ROLLBACK, throws it away. Only what statements
      commit through other connections is there in the end. */
  lemma WriteAfterAStuckRollbackIsLost(s: Session, stuck: Event, x: Effect, next: Call)
    requires s.alive && s.work.None? && Sticks(stuck) && !x.raises && !x.linkDies
    requires next.Executes() && next.rollback == Fine
    ensures var written := Step(Step(s, stuck), Write(x));
            var kept := Across(Across(s.committed, stuck.c.x), x);
            && written.alive && written.committed == kept && written.work == Some(x.content)
            && Step(written, Read(next)).committed == Across(kept, next.x) && Step(written, Read(next)).work.None?
  {
  }

  // ── the check against the server's own reading ──────────────────────────

  // The first word the server reads.
  function Leader(statement: string): Option<string> {
    var ts := Lex(statement);
    if ts != [] && ts[0].Word? then Some(ts[0].text) else None
  }

  // What `split` sees once brackets and white space are skipped.
  function Bare(statement: string): string {
    TrimLeft(Unwrapped(statement))
  }

  lemma {:induction false} ChunkSplits(s: string)
    ensures var c := FirstChunk(s);
            |c| <= |s| && s[..|c|] == c && (|c| < |s| ==> PySpace(s[|c|]))
  {
    if s != "" && !PySpace(s[0]) {
      ChunkSplits(s[1..]);
      var c := FirstChunk(s);
      assert s[..|c|] == [s[0]] + s[1..][..|c| - 1];
    }
  }

  predicate Letters(s: string) {
    forall i :: 0 <= i < |s| ==> IsUpper(s[i]) || IsLower(s[i])
  }

  lemma ReadOnlyWord(w: string)
    requires w in READ_ONLY
    ensures w != "" && forall i :: 0 <= i < |w| ==> IsLower(w[i])
  {
  }

  lemma FoldedLetters(c: string)
    requires forall i :: 0 <= i < |c| ==> IsLower(Fold(c)[i])
    ensures Letters(c)
  {
    forall i | 0 <= i < |c| ensures IsUpper(c[i]) || IsLower(c[i]) {
      assert IsLower(Fold(c)[i]);
    }
  }

  lemma {:induction false} WordEndPast(c: string, rest: string)
    requires AllWordParts(c) && rest != "" && IsWordPart(rest[0])
    ensures WordEnd(c + rest) > |c|
  {
    if c == "" {
      assert c + rest == rest;
    } else {
      assert (c + rest)[1..] == c[1..] + rest;
      WordEndPast(c[1..], rest);
    }
  }

  lemma NonAsciiIsNoKeyword(w: string, i: nat)
    requires i < |w| && w[i] as int >= 0x80
    ensures Fold(w) !in READ_ONLY
  {
    assert Fold(w)[i] == w[i] && !IsLower(w[i]);
    forall k | k in READ_ONLY ensures Fold(w) != k {
      ReadOnlyWord(k);
    }
  }

  lemma LettersAreWordParts(c: string)
    requires Letters(c)
    ensures AllWordParts(c)
  {
  }

  lemma LeaderIsFirstWord(s: string)
    requires s != "" && IsWordStart(s[0])
    ensures Leader(s) == Some(Fold(s[..WordEnd(s)]))
  {
    var n := WordEnd(s);
    LexWord(s[..n], s[n..]);
    assert s == s[..n] + s[n..];
  }

  // A letter of the server's alphabet behind the chunk makes its word longer, and no keyword.
  lemma LongerWordIsNoKeyword(c: string, rest: string)
    requires Letters(c) && c != "" && rest != "" && rest[0] as int >= 0x80
    ensures Leader(c + rest).Some? && Leader(c + rest).value !in READ_ONLY
  {
    LettersAreWordParts(c);
    WordEndPast(c, rest);
    var s := c + rest;
    assert s[0] == c[0] && s[|c|] == rest[0];
    LeaderIsFirstWord(s);
    NonAsciiIsNoKeyword(s[..WordEnd(s)], |c|);
  }

  lemma SpaceEndsWord(s: string)
    requires var n := |FirstChunk(s)|; n < |s| ==> s[n] as int < 0x80
    requires Letters(FirstChunk(s)) && FirstChunk(s) != ""
    ensures Leader(s) == Some(Fold(FirstChunk(s)))
  {
    ChunkSplits(s);
    var c := FirstChunk(s);
    assert s == c + s[|c|..];
    LexWord(c, s[|c|..]);
  }

  /** A statement that passes the check is read by the server as starting, inside its opening
      brackets, with that very read-only word if and only if the white space behind the word
      is ASCII: any other is a letter to the server, which then reads a longer word that is no
      keyword at all. */
  lemma CheckedLeaderIsTheServersIff(statement: string)
    requires ReadOnlyLeader(statement)
    ensures var s, n := Bare(statement), |FirstChunk(Bare(statement))|;
            && Leader(s).Some?
            && (Leader(s).value in READ_ONLY <==> (n < |s| ==> s[n] as int < 0x80))
            && (Leader(s).value in READ_ONLY ==> Leader(s).value == Fold(FirstChunk(s)))
  {
    var s := Bare(statement);
    var c := FirstChunk(s);
    ReadOnlyWord(Fold(c));
    FoldedLetters(c);
    ChunkSplits(s);
    if |c| < |s| && s[|c|] as int >= 0x80 {
      assert s == c + s[|c|..];
      LongerWordIsNoKeyword(c, s[|c|..]);
    } else {
      SpaceEndsWord(s);
    }
  }
}
