/**
 What the wrapper guarantees, call by call and over whole sequences of calls: one audit row
 each, no write without its intent, write blocking, sound undo tokens, one outcome report
 per armed pattern.
 */
module Harness {
  import opened Common
  import opened Json
  import opened AuditLog
  import opened Outcome
  import opened Remediation
  import opened UndoTokens
  import opened Governed
  import Budget
  import Patterns

  // ── one audit row per call ──────────────────────────────────────────────

  // The active file numbers its own rows from 1.
  predicate Tidy(s: Store) {
    s.active.Some? ==> Numbered(s.active.value)
  }

  // Finishing an intent leaves the store as if its row had been logged at once.
  lemma FinishCompletes(e: Engine, s: Store, m: Meta, result: Value, status: Status, durationMs: int)
    requires s.active.Some? && Tidy(s)
    ensures Finish(e, Insert(s, m, Pending, Null, 0), |s.active.value| + 1, result, status, durationMs, false) ==
            Finished(e, Insert(s, m, status, result, durationMs), false)
  {
    var rows := s.active.value;
    var id := |rows| + 1;
    var pending := rows + [Row(id, m, Pending, Summarize(Null), 0)];
    UpdateHitsItsRow(pending, id);
    var out := Update(pending, id, status, Summarize(result), durationMs);
    assert out == rows + [Row(id, m, status, Summarize(result), durationMs)];
  }

  lemma TidyRotation(s: Store, env: RotateEnv)
    requires Tidy(s)
    ensures Tidy(MaybeRotate(s, env))
  {
  }

  lemma TidyInsert(s: Store, m: Meta, status: Status, result: Value, durationMs: int)
    requires s.active.Some? && Tidy(s)
    ensures Tidy(Insert(s, m, status, result, durationMs))
  {
  }

  lemma TidyUpdate(s: Store, id: nat, status: Status, summary: Value, durationMs: int)
    requires s.active.Some? && Tidy(s)
    ensures Tidy(s.(active := Some(Update(s.active.value, id, status, summary, durationMs))))
  {
  }

  lemma TidyLog(e: Engine, s: Store, m: Meta, status: Status, result: Value, durationMs: int, strict: bool, env: LogEnv)
    requires Tidy(s)
    ensures Tidy(Log(e, s, m, status, result, durationMs, strict, env).store)
  {
    TidyRotation(s, env.rotate);
    var s' := MaybeRotate(s, env.rotate);
    if s'.active.Some? {
      TidyInsert(s', m, status, result, durationMs);
    }
  }

  // The guarded insert goes through.
  predicate LogsFine(s: Store, env: LogEnv) {
    !env.guardFails && !env.insertFails && MaybeRotate(s, env.rotate).active.Some?
  }

  predicate Healthy(g: Gov, c: Call, env: Env) {
    && g.engine.ok && (c.IsWrite() ==> !g.engine.blocked)
    && !env.finishFails && Tidy(g.log)
    && LogsFine(g.log, env.begin) && LogsFine(g.log, env.log)
  }

  // The rotation and the row belong to the intent if there is one, else to the final log call.
  function RowEnv(r: Record, env: Env): LogEnv {
    if r.intent.Some? then env.begin else env.log
  }

  lemma OpenKeepsRest(cfg: Config, g: Gov, c: Call, env: Env)
    ensures var (g1, r1) := Open(cfg, g, c, env);
            && g1.tokens == g.tokens && g1.prior.None?
            && (r1.raised.Some? || !c.IsWrite() ==> r1.intent.None?)
            && (r1.raised.None? && c.IsWrite() ==> r1.intent.Some?)
            && (r1.raised.None? ==> r1.status == Okay)
  {
  }

  lemma CompleteKeepsAudit(g: Gov, c: Call, r: Record, body: Body, env: Env)
    ensures var (g1, r1) := Complete(g, c, r, body, env);
            && g1.engine == g.engine && g1.log == g.log && g1.counters == g.counters && g1.budget == g.budget
            && r1.intent == r.intent && r1.found == r.found
  {
  }

  // What the call leaves of itself on its row.
  function Told(cfg: Config, g: Gov, c: Call, body: Body, env: Env): Record {
    var (g1, r1) := Open(cfg, g, c, env);
    Complete(g1, c, r1, body, env).1
  }

  lemma OpenLogsIntent(cfg: Config, g: Gov, c: Call, env: Env)
    requires Healthy(g, c, env)
    ensures var (g1, r1) := Open(cfg, g, c, env);
            if r1.intent.Some? then
              var s := MaybeRotate(g.log, env.begin.rotate);
              && s.active.Some? && g1.engine == g.engine
              && g1.log == Insert(s, c.Meta(), Pending, Null, 0) && r1.intent == Some(|s.active.value| + 1)
            else g1.log == g.log && g1.engine == g.engine
  {
  }

  lemma AuditWritesTheRow(g: Gov, g0: Gov, c: Call, r: Record, env: Env)
    requires Healthy(g0, c, env)
    requires if r.intent.Some? then
               var s := MaybeRotate(g0.log, env.begin.rotate);
               && s.active.Some? && g.engine == g0.engine
               && g.log == Insert(s, c.Meta(), Pending, Null, 0) && r.intent == Some(|s.active.value| + 1)
             else g.log == g0.log && g.engine == g0.engine
    ensures var (g', r') := Audit(g, c, r, env);
            var s := MaybeRotate(g0.log, RowEnv(r, env).rotate);
            && s.active.Some? && g'.engine == g0.engine && r'.raised == r.raised
            && g'.log == Insert(s, c.Meta(), FinalOf(r), Shown(r), env.durationMs)
  {
    if r.intent.Some? {
      TidyRotation(g0.log, env.begin.rotate);
      var s := MaybeRotate(g0.log, env.begin.rotate);
      FinishCompletes(g.engine, s, c.Meta(), Shown(r), FinalOf(r), env.durationMs);
    }
  }

  /** With healthy storage every call, whether it is stopped, refused, previewed, fails or
      succeeds, ends with exactly one new row: its own, carrying its final status. A guarded
      write leaves the very same store as a read that logs once at the end. */
  lemma HealthyCallWritesOneRow(cfg: Config, g: Gov, c: Call, body: Body, env: Env)
    requires Healthy(g, c, env)
    ensures var told := Told(cfg, g, c, body, env);
            var s := MaybeRotate(g.log, RowEnv(told, env).rotate);
            var (g', r') := Govern(cfg, g, c, body, env);
            && s.active.Some? && g'.engine == g.engine && r'.raised == told.raised
            && g'.log == Insert(s, c.Meta(), FinalOf(told), Shown(told), env.durationMs)
  {
    var (g1, r1) := Open(cfg, g, c, env);
    var (g2, r2) := Complete(g1, c, r1, body, env);
    OpenLogsIntent(cfg, g, c, env);
    CompleteKeepsAudit(g1, c, r1, body, env);
    var g3 := Report(cfg, g2.(budget := Budget.Spend(g2.budget, env.seconds)), c, r2, env);
    AuditWritesTheRow(g3, g, c, r2, env);
  }

  // ── with failing storage ────────────────────────────────────────────────

  function FinishedRow(id: nat, c: Call, r: Record, env: Env): Row {
    if env.finishFails then Row(id, c.Meta(), Pending, Summarize(Null), 0)
    else Row(id, c.Meta(), FinalOf(r), Summarize(Shown(r)), env.durationMs)
  }

  // Nothing was added, or the call's own row with its final status.
  predicate OwnRowAtMost(before: seq<Row>, after: seq<Row>, c: Call, r: Record, env: Env) {
    || after == before
    || (|after| == |before| + 1
        && after == before + [Row(after[|before|].id, c.Meta(), FinalOf(r), Summarize(Shown(r)), env.durationMs)])
  }

  lemma OpenAppendsIntent(cfg: Config, g: Gov, c: Call, env: Env)
    requires CleanRotation(g.log, env.begin.rotate)
    ensures var (g1, r1) := Open(cfg, g, c, env);
            match r1.intent
            case None => History(g1.log) == History(g.log)
            case Some(id) =>
              && g1.log.active.Some? && g1.engine == g.engine
              && g1.log == Insert(MaybeRotate(g.log, env.begin.rotate), c.Meta(), Pending, Null, 0)
              && id == |MaybeRotate(g.log, env.begin.rotate).active.value| + 1
  {
    var (g0, r0) := PreCheck(cfg, g, c, env);
    assert g0.log == g.log && g0.engine == g.engine && r0.intent.None?;
    if r0.raised.None? && c.IsWrite() && !g.engine.blocked {
      LogAppendsAtMostOneRow(g.engine, g.log, c.Meta(), Pending, Null, 0, true, env.begin);
    }
  }

  lemma FinalIsTerminal(r: Record)
    requires r.status != Pending
    ensures FinalOf(r) != Pending
  {
  }

  lemma AuditAccounts(g: Gov, g0: Gov, c: Call, r: Record, env: Env)
    requires Tidy(g0.log) && CleanRotation(g0.log, env.begin.rotate) && CleanRotation(g.log, env.log.rotate)
    requires match r.intent
             case None => History(g.log) == History(g0.log)
             case Some(id) =>
               && g.log.active.Some? && MaybeRotate(g0.log, env.begin.rotate).active.Some?
               && g.log == Insert(MaybeRotate(g0.log, env.begin.rotate), c.Meta(), Pending, Null, 0)
               && id == |MaybeRotate(g0.log, env.begin.rotate).active.value| + 1
    ensures var g' := Audit(g, c, r, env).0;
            if r.intent.Some? then History(g'.log) == History(g0.log) + [FinishedRow(r.intent.value, c, r, env)]
            else OwnRowAtMost(History(g0.log), History(g'.log), c, r, env)
  {
    if r.intent.Some? {
      RotationKeepsHistory(g0.log, env.begin.rotate);
      TidyRotation(g0.log, env.begin.rotate);
      var s := MaybeRotate(g0.log, env.begin.rotate);
      if env.finishFails {
        InsertAppends(s, c.Meta(), Pending, Null, 0);
      } else {
        FinishCompletes(g.engine, s, c.Meta(), Shown(r), FinalOf(r), env.durationMs);
        InsertAppends(s, c.Meta(), FinalOf(r), Shown(r), env.durationMs);
      }
    } else {
      LogAppendsAtMostOneRow(g.engine, g.log, c.Meta(), FinalOf(r), Shown(r), env.durationMs, false, env.log);
    }
  }

  /** Whatever storage step fails, a call adds at most one row, its own. It leaves a pending
      row exactly when it is a guarded write whose intent was committed and whose finish
      failed: previews and low-risk calls never do. */
  lemma RowAccounting(cfg: Config, g: Gov, c: Call, body: Body, env: Env)
    requires Tidy(g.log) && CleanRotation(g.log, env.begin.rotate)
    requires CleanRotation(Open(cfg, g, c, env).0.log, env.log.rotate)
    ensures var told := Told(cfg, g, c, body, env);
            var g' := Govern(cfg, g, c, body, env).0;
            && FinalOf(told) != Pending
            && (if told.intent.Some? then History(g'.log) == History(g.log) + [FinishedRow(told.intent.value, c, told, env)]
                else OwnRowAtMost(History(g.log), History(g'.log), c, told, env))
            && (told.intent.Some? ==> c.IsWrite())
  {
    var (g1, r1) := Open(cfg, g, c, env);
    var (g2, r2) := Complete(g1, c, r1, body, env);
    OpenAppendsIntent(cfg, g, c, env);
    OpenKeepsRest(cfg, g, c, env);
    CompleteKeepsAudit(g1, c, r1, body, env);
    ToldIsNeverPending(cfg, g, c, body, env);
    var g3 := Report(cfg, g2.(budget := Budget.Spend(g2.budget, env.seconds)), c, r2, env);
    AuditAccounts(g3, g, c, r2, env);
  }

  lemma ToldIsNeverPending(cfg: Config, g: Gov, c: Call, body: Body, env: Env)
    ensures FinalOf(Told(cfg, g, c, body, env)) != Pending
  {
  }

  // ── no write without its intent, and blocking ───────────────────────────

  /** When the body of a guarded write runs, its intent is committed: the last row of the
      active file is this call's, pending, under the id the call holds, on an engine that is
      not blocked. */
  lemma NoWriteWithoutIntent(cfg: Config, g: Gov, c: Call, env: Env)
    requires c.IsWrite() && Reached(cfg, g, c, env) && Tidy(g.log)
    ensures var (g1, r1) := Open(cfg, g, c, env);
            && g.engine.ok && !g.engine.blocked && r1.intent.Some? && g1.log.active.Some?
            && var rows := g1.log.active.value;
            && |rows| == r1.intent.value && rows[|rows| - 1].id == r1.intent.value
            && rows[|rows| - 1].status == Pending && rows[|rows| - 1].meta == c.Meta()
  {
  }

  // One call of a sequence.
  datatype Item = Item(c: Call, body: Body, env: Env)

  function RunAll(cfg: Config, g: Gov, items: seq<Item>): Gov {
    if items == [] then g
    else
      var x := items[|items| - 1];
      Govern(cfg, RunAll(cfg, g, items[..|items| - 1]), x.c, x.body, x.env).0
  }

  lemma GovernKeepsTidy(cfg: Config, g: Gov, c: Call, body: Body, env: Env)
    requires Tidy(g.log)
    ensures Tidy(Govern(cfg, g, c, body, env).0.log)
  {
    var (g1, r1) := Open(cfg, g, c, env);
    TidyLog(g.engine, g.log, c.Meta(), Pending, Null, 0, true, env.begin);
    assert Tidy(g1.log);
    CompleteKeepsAudit(g1, c, r1, body, env);
    var r2 := Complete(g1, c, r1, body, env).1;
    TidyLog(g1.engine, g1.log, c.Meta(), FinalOf(r2), Shown(r2), env.durationMs, false, env.log);
    if r2.intent.Some? && g1.log.active.Some? {
      TidyUpdate(g1.log, r2.intent.value, FinalOf(r2), Summarize(Shown(r2)), env.durationMs);
    }
  }

  /** What the row results ask of the store holds after any sequence of calls, failing storage
      or not: the active file numbers its own rows. */
  lemma {:induction false} EveryRunIsTidy(cfg: Config, g: Gov, items: seq<Item>)
    requires Tidy(g.log)
    ensures Tidy(RunAll(cfg, g, items).log)
  {
    if items != [] {
      var x := items[|items| - 1];
      EveryRunIsTidy(cfg, g, items[..|items| - 1]);
      GovernKeepsTidy(cfg, RunAll(cfg, g, items[..|items| - 1]), x.c, x.body, x.env);
    }
  }

  lemma GovernKeepsBlocked(cfg: Config, g: Gov, c: Call, body: Body, env: Env)
    requires g.engine.blocked
    ensures Govern(cfg, g, c, body, env).0.engine.blocked
    ensures c.IsWrite() ==> !Reached(cfg, g, c, env)
  {
    var (g1, r1) := Open(cfg, g, c, env);
    CompleteKeepsAudit(g1, c, r1, body, env);
  }

  /** Once an engine is blocked it stays blocked through any sequence of calls, and the body
      of no later guarded write is reached. */
  lemma {:induction false} BlockingIsForGood(cfg: Config, g: Gov, items: seq<Item>, c: Call, env: Env)
    requires g.engine.blocked && c.IsWrite()
    ensures RunAll(cfg, g, items).engine.blocked && !Reached(cfg, RunAll(cfg, g, items), c, env)
    ensures !HealthOf(RunAll(cfg, g, items).engine, RunAll(cfg, g, items).log, false).available
  {
    if items != [] {
      var x := items[|items| - 1];
      BlockingIsForGood(cfg, g, items[..|items| - 1], c, env);
      GovernKeepsBlocked(cfg, RunAll(cfg, g, items[..|items| - 1]), x.c, x.body, x.env);
    }
    GovernKeepsBlocked(cfg, RunAll(cfg, g, items), c, FINISHED, env);
  }

  const FINISHED: Body := Body(Returned(Null), None)

  lemma RaisedFinishBlocks(g: Gov, c: Call, r: Record, env: Env)
    requires r.intent.Some? && env.finishFails
    ensures Audit(g, c, r, env).0.engine.blocked && Audit(g, c, r, env).1.raised == Some(UNAVAILABLE)
  {
  }

  /** A guarded write whose finish fails raises, whatever its body did, and blocks its engine. */
  lemma FailedFinishBlocks(cfg: Config, g: Gov, c: Call, body: Body, env: Env)
    requires c.IsWrite() && Reached(cfg, g, c, env) && env.finishFails
    ensures var (g', r') := Govern(cfg, g, c, body, env);
            g'.engine.blocked && ReplyOf(r') == Raised(UNAVAILABLE)
  {
    var (g1, r1) := Open(cfg, g, c, env);
    OpenKeepsRest(cfg, g, c, env);
    CompleteKeepsAudit(g1, c, r1, body, env);
    var (g2, r2) := Complete(g1, c, r1, body, env);
    RaisedFinishBlocks(Report(cfg, g2.(budget := Budget.Spend(g2.budget, env.seconds)), c, r2, env), c, r2, env);
  }

  // ── undo tokens ─────────────────────────────────────────────────────────

  // A result the wrapper may record a verified inverse for.
  predicate Determined(v: Value) {
    !IsUnknown(v) && !(v.Dict? && Truthy(Get(v, "error")))
  }

  // Where a token comes from: the call it was recorded by, and what that call vouched for.
  predicate Justified(tok: Token, x: Item) {
    && tok.origin == x.c.tool && !x.c.dryRun && x.body.reply.Returned?
    && tok.origParams == Holds(Reload(x.c.params))
    && (if tok.verified then Determined(x.body.reply.v) else IsUnknown(x.body.reply.v) && x.body.captured.Some?)
    && var d := Describe(x.c.declared, x.c.params,
                         if tok.verified then x.body.reply.v else Salvage(x.body.captured.value));
       d.Some? && tok.inverse == d.value.tool && tok.params == Holds(Reload(d.value.params))
  }

  lemma AnnotationKeeps(m: Patterns.Match, v: Value, key: string)
    requires key != "_pattern_id" && key != "_pattern_armed"
    ensures Annotate(m, v).Dict? == v.Dict? && Get(Annotate(m, v), key) == Get(v, key)
  {
    if m.Armed? && v.Dict? {
      var id := Str(m.pattern.id);
      SetDefaultOnlyFills(v, "_pattern_id", id, key);
      SetDefaultOnlyFills(SetDefault(v, "_pattern_id", id), "_pattern_armed", Bool(true), key);
    }
  }

  // The undo callables read nothing that the annotation adds.
  lemma AnnotationKeepsInverse(m: Patterns.Match, v: Value, d: Declared, params: Value)
    ensures Describe(d, params, Annotate(m, v)) == Describe(d, params, v)
  {
    AnnotationKeeps(m, v, "index");
    AnnotationKeeps(m, v, "priorState");
  }

  predicate AddsAtMost(before: Tokens, after: Tokens, x: Item) {
    || after == before
    || (|after.rows| == |before.rows| + 1 && after == before.(rows := before.rows + [after.rows[|before.rows|]])
        && after.rows[|before.rows|].status == Recorded && Justified(after.rows[|before.rows|], x))
  }

  lemma KeepIsJustified(g: Gov, x: Item, v: Value, input: Value, verified: bool)
    requires !x.c.dryRun && x.body.reply.Returned?
    requires if verified then Determined(x.body.reply.v)
             else IsUnknown(x.body.reply.v) && x.body.captured.Some?
    requires Describe(x.c.declared, x.c.params, input) ==
             Describe(x.c.declared, x.c.params, if verified then x.body.reply.v else Salvage(x.body.captured.value))
    ensures AddsAtMost(g.tokens, Keep(g, x.c, v, input, verified, x.env).0.tokens, x)
  {
  }

  lemma RecordIsJustified(g: Gov, x: Item, m: Patterns.Match)
    requires x.body.reply.Returned? && g.prior == x.body.captured
    ensures AddsAtMost(g.tokens, RecordUndo(g, x.c, Annotate(m, x.body.reply.v), x.env).0.tokens, x)
  {
    var v := Annotate(m, x.body.reply.v);
    AnnotationKeeps(m, x.body.reply.v, "outcomeUnknown");
    AnnotationKeeps(m, x.body.reply.v, "error");
    AnnotationKeepsInverse(m, x.body.reply.v, x.c.declared, x.c.params);
    if x.c.declared != NoUndo && !x.c.dryRun {
      if IsUnknown(v) {
        if g.prior.Some? {
          KeepIsJustified(g.(prior := None), x, v, Salvage(g.prior.value), false);
        }
      } else if Determined(v) {
        KeepIsJustified(g, x, v, v, true);
      }
    }
  }

  /** A call adds at most one token, and only one it can vouch for: a verified one from a
      real, error-free, determined result; an unverified one from before-state that this very
      call captured. A preview or a definite failure records nothing. */
  lemma TokensAreSound(cfg: Config, g: Gov, x: Item)
    ensures AddsAtMost(g.tokens, Govern(cfg, g, x.c, x.body, x.env).0.tokens, x)
  {
    var (g1, r1) := Open(cfg, g, x.c, x.env);
    OpenKeepsRest(cfg, g, x.c, x.env);
    CompleteTokens(g1, r1, x);
  }

  lemma CompleteTokens(g: Gov, r: Record, x: Item)
    requires g.prior.None?
    ensures AddsAtMost(g.tokens, Complete(g, x.c, r, x.body, x.env).0.tokens, x)
  {
    if r.raised.None? && x.body.reply.Returned? {
      RecordIsJustified(if x.body.captured.Some? then g.(prior := x.body.captured) else g, x, r.found);
    }
  }

  // Every token was recorded by some call of the sequence that vouches for it.
  ghost predicate AllJustified(rows: seq<Token>, items: seq<Item>) {
    forall i :: 0 <= i < |rows| ==> exists j :: 0 <= j < |items| && Justified(rows[i], items[j])
  }

  /** Over any sequence of calls: no token without a call that vouches for it, and never more
      tokens than calls. */
  lemma {:induction false} EveryTokenIsJustified(cfg: Config, g: Gov, items: seq<Item>)
    requires g.tokens.rows == []
    ensures AllJustified(RunAll(cfg, g, items).tokens.rows, items)
    ensures |RunAll(cfg, g, items).tokens.rows| <= |items|
  {
    if items != [] {
      var n := |items| - 1;
      EveryTokenIsJustified(cfg, g, items[..n]);
      var before := RunAll(cfg, g, items[..n]);
      TokensAreSound(cfg, before, items[n]);
      var after := RunAll(cfg, g, items).tokens.rows;
      forall i | 0 <= i < |after| ensures exists j :: 0 <= j < |items| && Justified(after[i], items[j]) {
        if i < |before.tokens.rows| {
          assert after[i] == before.tokens.rows[i];
          var j :| 0 <= j < n && Justified(before.tokens.rows[i], items[..n][j]);
          assert Justified(after[i], items[j]);
        } else {
          assert Justified(after[i], items[n]);
        }
      }
    }
  }

  // ── the pattern engine and the budget see one run ───────────────────────

  // The consult of a call, if the budget let it through.
  function Asked(cfg: Config, g: Gov, c: Call, env: Env): seq<Patterns.Event> {
    if Budget.Check(g.budget, cfg.limits, c.fp, env.now).1 == Budget.Admitted && !env.patternsFail
    then [Patterns.Ask(SKILL, c.name, c.target, env.askedAt)]
    else []
  }

  // The report of a call, if its pattern was armed.
  function Reported(cfg: Config, g: Gov, x: Item): seq<Patterns.Event> {
    var told := Told(cfg, g, x.c, x.body, x.env);
    if told.found.Armed? && !x.env.reportFails
    then [Patterns.Event.Report(told.found.pattern.id, x.c.target, FinalOf(told) == Okay, x.env.reportedAt)]
    else []
  }

  function PatternEvents(cfg: Config, g: Gov, items: seq<Item>): seq<Patterns.Event> {
    if items == [] then []
    else
      var x := items[|items| - 1];
      var before := RunAll(cfg, g, items[..|items| - 1]);
      PatternEvents(cfg, g, items[..|items| - 1]) + Asked(cfg, before, x.c, x.env) + Reported(cfg, before, x)
  }

  function Feed(ps: seq<Patterns.Pattern>, cs: Patterns.Table, evs: seq<Patterns.Event>): Patterns.Table
    requires |evs| <= 1
  {
    if evs == [] then cs else Patterns.Step(ps, cs, evs[0]).0
  }

  lemma RunFeeds(ps: seq<Patterns.Pattern>, evs: seq<Patterns.Event>, more: seq<Patterns.Event>)
    requires |more| <= 1
    ensures Patterns.Run(ps, evs + more).0 == Feed(ps, Patterns.Run(ps, evs).0, more)
  {
    if more == [] {
      assert evs + more == evs;
    } else {
      assert (evs + more)[..|evs|] == evs && (evs + more)[|evs|] == more[0];
    }
  }

  lemma OpenAsks(cfg: Config, g: Gov, c: Call, env: Env)
    ensures var (g1, r1) := Open(cfg, g, c, env);
            && g1.counters == Feed(cfg.patterns, g.counters, Asked(cfg, g, c, env))
            && (r1.found.Armed? ==> Asked(cfg, g, c, env) != [])
  {
  }

  /** A call consults the engine at most once, and reports exactly one outcome if and only if
      its pattern was armed: success means that its final status is `ok`. */
  lemma OneReportPerArming(cfg: Config, g: Gov, x: Item)
    ensures Govern(cfg, g, x.c, x.body, x.env).0.counters ==
            Feed(cfg.patterns, Feed(cfg.patterns, g.counters, Asked(cfg, g, x.c, x.env)), Reported(cfg, g, x))
    ensures Reported(cfg, g, x) != [] ==> Asked(cfg, g, x.c, x.env) != []
  {
    var (g1, r1) := Open(cfg, g, x.c, x.env);
    OpenAsks(cfg, g, x.c, x.env);
    CompleteKeepsAudit(g1, x.c, r1, x.body, x.env);
  }

  /** The engine's counters after any sequence of calls are those of the run of its own
      events, so the caps and cooldowns of module Patterns bound the armings of the wrapper. */
  lemma {:induction false} CountersAreARun(cfg: Config, g: Gov, items: seq<Item>)
    requires g.counters == map[]
    ensures RunAll(cfg, g, items).counters == Patterns.Run(cfg.patterns, PatternEvents(cfg, g, items)).0
  {
    if items != [] {
      var n := |items| - 1;
      CountersAreARun(cfg, g, items[..n]);
      var before := RunAll(cfg, g, items[..n]);
      var evs := PatternEvents(cfg, g, items[..n]);
      OneReportPerArming(cfg, before, items[n]);
      RunFeeds(cfg.patterns, evs, Asked(cfg, before, items[n].c, items[n].env));
      RunFeeds(cfg.patterns, evs + Asked(cfg, before, items[n].c, items[n].env), Reported(cfg, before, items[n]));
    }
  }

  function BudgetEvents(items: seq<Item>): seq<Budget.Event> {
    if items == [] then []
    else
      var x := items[|items| - 1];
      BudgetEvents(items[..|items| - 1]) + [Budget.Call(x.c.fp, x.env.now), Budget.Took(x.env.seconds)]
  }

  lemma BudgetOfCall(cfg: Config, g: Gov, x: Item)
    ensures Govern(cfg, g, x.c, x.body, x.env).0.budget ==
            Budget.Spend(Budget.Check(g.budget, cfg.limits, x.c.fp, x.env.now).0, x.env.seconds)
    ensures Reached(cfg, g, x.c, x.env) ==> Budget.Check(g.budget, cfg.limits, x.c.fp, x.env.now).1 == Budget.Admitted
  {
    var (g1, r1) := Open(cfg, g, x.c, x.env);
    CompleteKeepsAudit(g1, x.c, r1, x.body, x.env);
  }

  lemma TwoMore(lim: Budget.Limits, evs: seq<Budget.Event>, fp: string, now: real, seconds: real)
    ensures Budget.RunTracker(lim, evs + [Budget.Call(fp, now), Budget.Took(seconds)]).0 ==
            Budget.Spend(Budget.Check(Budget.RunTracker(lim, evs).0, lim, fp, now).0, seconds)
  {
    var one := evs + [Budget.Call(fp, now)];
    var two := evs + [Budget.Call(fp, now), Budget.Took(seconds)];
    assert two[..|two| - 1] == one && one[..|one| - 1] == evs;
  }

  /** The budget after any sequence of calls is that of the run of their events, so the
      bound on every time window holds of the calls whose bodies were reached. */
  lemma {:induction false} BudgetIsARun(cfg: Config, g: Gov, items: seq<Item>)
    requires g.budget == Budget.Tracker(0, 0.0, map[])
    ensures RunAll(cfg, g, items).budget == Budget.RunTracker(cfg.limits, BudgetEvents(items)).0
  {
    if items != [] {
      var n := |items| - 1;
      BudgetIsARun(cfg, g, items[..n]);
      BudgetOfCall(cfg, RunAll(cfg, g, items[..n]), items[n]);
      TwoMore(cfg.limits, BudgetEvents(items[..n]), items[n].c.fp, items[n].env.now, items[n].env.seconds);
    }
  }

  // Calls of one fingerprint whose bodies were reached in the closed interval [from, to].
  function ReachedIn(cfg: Config, g: Gov, items: seq<Item>, fp: string, from: real, to: real): nat {
    if items == [] then 0
    else
      var x := items[|items| - 1];
      ReachedIn(cfg, g, items[..|items| - 1], fp, from, to) +
      if x.c.fp == fp && from <= x.env.now <= to && Reached(cfg, RunAll(cfg, g, items[..|items| - 1]), x.c, x.env)
      then 1 else 0
  }

  // The admitted calls, by the tracker's own verdicts.
  function Let(lim: Budget.Limits, evs: seq<Budget.Event>): seq<Budget.Stamp> {
    Budget.AdmittedBy(evs, Budget.RunTracker(lim, evs).1)
  }

  lemma LetOneMore(lim: Budget.Limits, evs: seq<Budget.Event>, fp: string, now: real)
    ensures Let(lim, evs + [Budget.Call(fp, now)]) ==
            Let(lim, evs) + if Budget.Check(Budget.RunTracker(lim, evs).0, lim, fp, now).1 == Budget.Admitted
                            then [Budget.Stamp(fp, now)] else []
  {
    var one := evs + [Budget.Call(fp, now)];
    assert one[..|one| - 1] == evs;
    var vs := Budget.RunTracker(lim, one).1;
    assert vs[..|vs| - 1] == Budget.RunTracker(lim, evs).1;
  }

  lemma LetTook(lim: Budget.Limits, evs: seq<Budget.Event>, seconds: real)
    ensures Let(lim, evs + [Budget.Took(seconds)]) == Let(lim, evs)
  {
    assert (evs + [Budget.Took(seconds)])[..|evs|] == evs;
  }

  // The stamp a call adds.
  function Stamps(admitted: bool, fp: string, now: real): seq<Budget.Stamp> {
    if admitted then [Budget.Stamp(fp, now)] else []
  }

  predicate LetThrough(lim: Budget.Limits, evs: seq<Budget.Event>, fp: string, now: real) {
    Budget.Check(Budget.RunTracker(lim, evs).0, lim, fp, now).1 == Budget.Admitted
  }

  lemma LetOfCall(lim: Budget.Limits, evs: seq<Budget.Event>, fp: string, now: real, seconds: real)
    ensures Let(lim, evs + [Budget.Call(fp, now), Budget.Took(seconds)]) ==
            Let(lim, evs) + Stamps(LetThrough(lim, evs, fp, now), fp, now)
  {
    LetOneMore(lim, evs, fp, now);
    LetTook(lim, evs + [Budget.Call(fp, now)], seconds);
    assert evs + [Budget.Call(fp, now), Budget.Took(seconds)] == evs + [Budget.Call(fp, now)] + [Budget.Took(seconds)];
  }

  lemma CountStamps(log: seq<Budget.Stamp>, admitted: bool, k: string, now: real, fp: string, from: real, to: real)
    ensures Budget.CountIn(log + Stamps(admitted, k, now), fp, from, to) ==
            Budget.CountIn(log, fp, from, to) + if admitted && k == fp && from <= now <= to then 1 else 0
  {
    if admitted {
      assert (log + [Budget.Stamp(k, now)])[..|log|] == log;
    } else {
      assert log + [] == log;
    }
  }

  lemma {:induction false} ReachedWereLet(cfg: Config, g: Gov, items: seq<Item>, fp: string, from: real, to: real)
    requires g.budget == Budget.Tracker(0, 0.0, map[])
    ensures ReachedIn(cfg, g, items, fp, from, to) <= Budget.CountIn(Let(cfg.limits, BudgetEvents(items)), fp, from, to)
  {
    if items != [] {
      var n := |items| - 1;
      ReachedWereLet(cfg, g, items[..n], fp, from, to);
      BudgetIsARun(cfg, g, items[..n]);
      BudgetOfCall(cfg, RunAll(cfg, g, items[..n]), items[n]);
      var x, evs := items[n], BudgetEvents(items[..n]);
      LetOfCall(cfg.limits, evs, x.c.fp, x.env.now, x.env.seconds);
      CountStamps(Let(cfg.limits, evs), LetThrough(cfg.limits, evs, x.c.fp, x.env.now), x.c.fp, x.env.now, fp, from, to);
    }
  }

  /** Through the wrapper, with fixed limits and a clock that never runs backwards: no closed
      window of the configured length sees more than `runawayMax` bodies of one fingerprint. */
  lemma BodiesStayUnderTheBreaker(cfg: Config, g: Gov, items: seq<Item>, fp: string, from: real, clock: real)
    requires g.budget == Budget.Tracker(0, 0.0, map[]) && cfg.limits.Breaker()
    requires Budget.ClockRuns(BudgetEvents(items)) && Budget.CallsBefore(BudgetEvents(items), clock)
    ensures ReachedIn(cfg, g, items, fp, from, from + cfg.limits.window as real) <= cfg.limits.runawayMax
  {
    ReachedWereLet(cfg, g, items, fp, from, from + cfg.limits.window as real);
    Budget.BreakerBoundsEveryWindow(cfg.limits, BudgetEvents(items), clock, fp, from);
  }

  // ── what the final status says ──────────────────────────────────────────

  predicate IsFailure(v: Value) {
    v.Dict? && Truthy(Get(v, "error"))
  }

  // The keys the wrapper may add.
  predicate Added(key: string) {
    key == "_pattern_id" || key == "_pattern_armed" || key == "_undo_id"
  }

  lemma RecordKeepsField(g: Gov, c: Call, v: Value, env: Env, key: string)
    requires key != "_undo_id"
    ensures var w := RecordUndo(g, c, v, env).1; w.Dict? == v.Dict? && Get(w, key) == Get(v, key)
  {
    var w := RecordUndo(g, c, v, env).1;
    if w != v && v.Dict? {
      SetDefaultOnlyFills(v, "_undo_id", Str(env.tokenId), key);
    }
  }

  lemma CompleteHandsOn(g: Gov, c: Call, r: Record, v: Value, captured: Option<Value>, env: Env, key: string)
    requires r.raised.None? && !Added(key)
    ensures var r' := Complete(g, c, r, Body(Returned(v), captured), env).1;
            && r'.raised.None? && r'.status == r.status
            && r'.result.Dict? == v.Dict? && Get(r'.result, key) == Get(v, key)
  {
    AnnotationKeeps(r.found, v, key);
    RecordKeepsField(if captured.Some? then g.(prior := captured) else g, c, Annotate(r.found, v), env, key);
  }

  // Finalizing leaves what is told of the call.
  lemma FinalizeKeepsTold(cfg: Config, g: Gov, c: Call, r: Record, env: Env)
    ensures var r' := Finalize(cfg, g, c, r, env).1;
            r' == r || r' == r.(raised := Some(UNAVAILABLE))
  {
  }

  // The verdict that a result gets from row and exit code, once a body returned it.
  lemma CloseStatus(cfg: Config, g: Gov, c: Call, r: Record, v: Value, captured: Option<Value>, env: Env)
    requires r.raised.None? && r.status == Okay
    ensures var r' := Close(cfg, g, c, r, Body(Returned(v), captured), env).1;
            && FinalOf(r') == FinalStatus(v) && (r'.raised.Some? ==> r'.raised == Some(UNAVAILABLE))
            && Checked(r'.result) == Checked(v) && FinalStatus(r'.result) == FinalStatus(v)
            && IsFailure(r'.result) == IsFailure(v)
  {
    CompleteHandsOn(g, c, r, v, captured, env, "outcomeUnknown");
    CompleteHandsOn(g, c, r, v, captured, env, "error");
    var (g1, r1) := Complete(g, c, r, Body(Returned(v), captured), env);
    FinalizeKeepsTold(cfg, g1, c, r1, env);
  }

  /** The wrapper hands on the result as the tool made it: it adds its own three keys and
      changes no other. */
  lemma ResultIsHandedOn(cfg: Config, g: Gov, c: Call, v: Value, captured: Option<Value>, env: Env, key: string)
    requires Reached(cfg, g, c, env) && !Added(key)
    ensures var told := Told(cfg, g, c, Body(Returned(v), captured), env);
            told.raised.None? && told.result.Dict? == v.Dict? && Get(told.result, key) == Get(v, key)
    ensures var reply := ReplyOf(Govern(cfg, g, c, Body(Returned(v), captured), env).1);
            reply.Returned? ==> reply.v == Told(cfg, g, c, Body(Returned(v), captured), env).result
  {
    var (g1, r1) := Open(cfg, g, c, env);
    CompleteHandsOn(g1, c, r1, v, captured, env, key);
    var (g2, r2) := Complete(g1, c, r1, Body(Returned(v), captured), env);
    FinalizeKeepsTold(cfg, g2, c, r2, env);
  }

  /** So the row carries the verdict of the result, and so does what the caller sees. */
  lemma StatusIsOfTheResult(cfg: Config, g: Gov, c: Call, v: Value, captured: Option<Value>, env: Env)
    requires Reached(cfg, g, c, env)
    ensures FinalOf(Told(cfg, g, c, Body(Returned(v), captured), env)) == FinalStatus(v)
    ensures var reply := ReplyOf(Govern(cfg, g, c, Body(Returned(v), captured), env).1);
            && (reply.Returned? ==> Checked(reply.v) == Checked(v) && FinalStatus(reply.v) == FinalStatus(v)
                                    && IsFailure(reply.v) == IsFailure(v))
            && (reply.Raised? ==> reply.e == UNAVAILABLE)
  {
    var (g1, r1) := Open(cfg, g, c, env);
    OpenKeepsRest(cfg, g, c, env);
    CloseStatus(cfg, g1, c, r1, v, captured, env);
    CompleteHandsOn(g1, c, r1, v, captured, env, "outcomeUnknown");
    CompleteHandsOn(g1, c, r1, v, captured, env, "error");
  }

  /** A budget stop inside a tool never reaches the wrapper as such: `tool_errors` flattens it,
      and the call is audited as an error and exits 1. */
  lemma FlattenedStopIsAnError(cfg: Config, g: Gov, c: Call, e: Exn, env: Env)
    requires Reached(cfg, g, c, env) && e.kind == Stop
    ensures var body := Body(Returned(ToolErrors(DictShape, Raised(e))), None);
            var reply := ReplyOf(Govern(cfg, g, c, body, env).1);
            FinalOf(Told(cfg, g, c, body, env)) == Error && (reply.Returned? ==> Checked(reply.v) == 1)
  {
    DictShapeClassifiesIff(Raised(e));
    StatusIsOfTheResult(cfg, g, c, ToolErrors(DictShape, Raised(e)), None, env);
  }

  /** A body that raises is audited as an error, except when what it raises is a budget stop
      of its own: the wrapper takes that for its own and audits it `ok`. No tool does, see
      FlattenedStopIsAnError. */
  lemma RaisingBodyIsAnErrorIff(cfg: Config, g: Gov, c: Call, e: Exn, captured: Option<Value>, env: Env)
    requires Reached(cfg, g, c, env)
    ensures var told := Told(cfg, g, c, Body(Raised(e), captured), env);
            && ReplyOf(told) == Raised(e)
            && FinalOf(told) == if e.kind == Stop then Okay else Error
  {
    OpenKeepsRest(cfg, g, c, env);
  }

  lemma UnreachedRaises(cfg: Config, g: Gov, c: Call, body: Body, env: Env)
    requires !Reached(cfg, g, c, env)
    ensures ReplyOf(Govern(cfg, g, c, body, env).1).Raised?
  {
  }
}
