/**
 The wrapper around every tool: budget, pattern consult, write intent, the tool's body,
 undo recording, and the final bookkeeping, with every storage failure as an input.

 Each stage is a function from the harness state before to the state after. `Governor`
 is the wrapper itself, holding the budget tracker, pattern engine, audit engine and undo
 store and changing them and the call's record in place; it is proved to be the functions.
 */
module Governed {
  import opened Common
  import opened Json
  import opened AuditLog
  import opened Outcome
  import opened Remediation
  import opened UndoTokens
  import Budget
  import Patterns

  const SKILL: string := "postgres-aiops"

  // The undo callable a tool declares. A callable that raises records nothing, like none.
  datatype Declared = NoUndo | Inverse(tool: Tool)

  // One call: `params` are already redacted, `fp` is their fingerprint, and `no` tells calls
  // apart in statements.
  datatype Call = Call(
    no: nat,
    tool: Tool,
    name: string,
    params: Value,
    risk: string,
    target: string,
    dryRun: bool,
    declared: Declared,
    fp: string
  ) {
    predicate IsWrite() {
      risk != "low" && !dryRun
    }

    function Meta(): Meta {
      AuditLog.Meta.Meta(no, name, params, risk)
    }
  }

  // What the body did: its reply, and the before-state it captured, if any.
  datatype Body = Body(reply: Reply, captured: Option<Value>)

  datatype Env = Env(
    now: real,
    askedAt: real,
    patternsFail: bool,
    begin: LogEnv,
    tokenId: string,
    recordFails: bool,
    seconds: real,
    reportedAt: real,
    reportFails: bool,
    durationMs: int,
    finishFails: bool,
    log: LogEnv
  )

  datatype Config = Config(limits: Budget.Limits, patterns: seq<Patterns.Pattern>)

  datatype Gov = Gov(
    budget: Budget.Tracker,
    counters: Patterns.Table,
    engine: Engine,
    log: Store,
    tokens: Tokens,
    prior: Option<Value>
  )

  // `_CallState`, and the exception in flight.
  datatype Record = Record(
    status: Status,
    result: Value,
    found: Patterns.Match,
    intent: Option<nat>,
    raised: Option<Exn>
  )

  const FRESH: Record := Record(Okay, Null, Patterns.NoMatch, None, None)
  const UNAVAILABLE: Exn := Exn(Other, "AuditUnavailable")
  const STOPPED: Exn := Exn(Stop, "BudgetExceeded")

  function ErrorResult(e: Exn): Value {
    Dict([Entry("error", Str(e.text)), Entry("traceback", Str(""))])
  }

  // ── the stages ──────────────────────────────────────────────────────────

  function PreCheck(cfg: Config, g: Gov, c: Call, env: Env): (Gov, Record) {
    var (b, v) := Budget.Check(g.budget, cfg.limits, c.fp, env.now);
    var g1 := g.(budget := b, prior := None);
    if v != Budget.Admitted then (g1, FRESH.(status := BudgetExceeded, result := ErrorResult(STOPPED), raised := Some(STOPPED)))
    else if env.patternsFail then (g1, FRESH)
    else
      var (cs, m) := Patterns.MatchStep(cfg.patterns, g.counters, SKILL, c.name, c.target, env.askedAt);
      (g1.(counters := cs), FRESH.(found := m))
  }

  function BeginWrite(g: Gov, c: Call, r: Record, env: Env): (Gov, Record) {
    if r.raised.Some? || !c.IsWrite() then (g, r)
    else
      var out := Begin(g.engine, g.log, c.Meta(), env.begin);
      (g.(engine := out.engine, log := out.store),
       if out.raised then r.(status := Error, result := ErrorResult(UNAVAILABLE), raised := Some(UNAVAILABLE))
       else r.(intent := out.id))
  }

  // Everything before the body. The body runs if nothing is raised.
  function Open(cfg: Config, g: Gov, c: Call, env: Env): (Gov, Record) {
    var (g1, r1) := PreCheck(cfg, g, c, env);
    BeginWrite(g1, c, r1, env)
  }

  predicate Reached(cfg: Config, g: Gov, c: Call, env: Env) {
    Open(cfg, g, c, env).1.raised.None?
  }

  function PatternId(m: Patterns.Match): string {
    if m.NoMatch? then "" else m.pattern.id
  }

  function Annotate(m: Patterns.Match, v: Value): Value {
    if m.Armed? && v.Dict? then SetDefault(SetDefault(v, "_pattern_id", Str(m.pattern.id)), "_pattern_armed", Bool(true))
    else v
  }

  // What the undo callable is given when the outcome is undetermined.
  function Salvage(prior: Value): Value {
    Dict([Entry("priorState", prior), Entry("outcomeUnknown", Bool(true))])
  }

  function Describe(d: Declared, params: Value, input: Value): Option<Descriptor> {
    match d case NoUndo => None case Inverse(tool) => Undo(tool, params, input)
  }

  function Keep(g: Gov, c: Call, v: Value, input: Value, verified: bool, env: Env): (Gov, Value) {
    match Describe(c.declared, c.params, input)
    case None => (g, v)
    case Some(d) =>
      var (ts, id) := UndoTokens.Record(g.tokens, env.tokenId, c.tool, d, c.params, verified, env.recordFails);
      (g.(tokens := ts), if id.Some? && id.value != "" then SetDefault(v, "_undo_id", Str(id.value)) else v)
  }

  function RecordUndo(g: Gov, c: Call, v: Value, env: Env): (Gov, Value) {
    if c.declared == NoUndo || c.dryRun then (g, v)
    else if IsUnknown(v) then
      (match g.prior
       case None => (g, v)
       case Some(prior) => Keep(g.(prior := None), c, v, Salvage(prior), false, env))
    else if v.Dict? && Truthy(Get(v, "error")) then (g, v)
    else Keep(g, c, v, v, true, env)
  }

  function Complete(g: Gov, c: Call, r: Record, body: Body, env: Env): (Gov, Record) {
    if r.raised.Some? then (g, r)
    else
      var g1 := if body.captured.Some? then g.(prior := body.captured) else g;
      match body.reply
      case Raised(e) =>
        (g1, if e.kind == Stop then r.(raised := Some(e))
             else r.(status := Error, result := ErrorResult(e), raised := Some(e)))
      case Returned(v) =>
        var (g2, v2) := RecordUndo(g1, c, Annotate(r.found, v), env);
        (g2, r.(result := v2))
  }

  function FinalOf(r: Record): Status {
    if r.status == Okay then FinalStatus(r.result) else r.status
  }

  function Shown(r: Record): Value {
    if PatternId(r.found) != "" && r.result.Dict? then
      SetDefault(SetDefault(r.result, "_pattern_id", Str(PatternId(r.found))), "_pattern_armed", Bool(r.found.Armed?))
    else r.result
  }

  // `report_outcome`, for an armed pattern only.
  function Report(cfg: Config, g: Gov, c: Call, r: Record, env: Env): Gov {
    if r.found.Armed? && !env.reportFails then
      g.(counters := Patterns.ReportStep(cfg.patterns, g.counters, r.found.pattern.id, c.target,
                                         FinalOf(r) == Okay, env.reportedAt))
    else g
  }

  function Audit(g: Gov, c: Call, r: Record, env: Env): (Gov, Record) {
    match r.intent
    case Some(id) =>
      var out := Finish(g.engine, g.log, id, Shown(r), FinalOf(r), env.durationMs, env.finishFails);
      (g.(engine := out.engine, log := out.store), if out.raised then r.(raised := Some(UNAVAILABLE)) else r)
    case None =>
      var out := Log(g.engine, g.log, c.Meta(), FinalOf(r), Shown(r), env.durationMs, false, env.log);
      (g.(engine := out.engine, log := out.store), r)
  }

  function Finalize(cfg: Config, g: Gov, c: Call, r: Record, env: Env): (Gov, Record) {
    Audit(Report(cfg, g.(budget := Budget.Spend(g.budget, env.seconds)), c, r, env), c, r, env)
  }

  function ReplyOf(r: Record): Reply {
    match r.raised case Some(e) => Raised(e) case None => Returned(r.result)
  }

  // Everything after the body.
  function Close(cfg: Config, g: Gov, c: Call, r: Record, body: Body, env: Env): (Gov, Record) {
    var (g1, r1) := Complete(g, c, r, body, env);
    Finalize(cfg, g1, c, r1, env)
  }

  // The whole call; `body` matters only if it is reached.
  function Govern(cfg: Config, g: Gov, c: Call, body: Body, env: Env): (Gov, Record) {
    var (g1, r1) := Open(cfg, g, c, env);
    Close(cfg, g1, c, r1, body, env)
  }

  // ── the wrapper ─────────────────────────────────────────────────────────

  class CallState {
    var status: Status
    var result: Value
    var found: Patterns.Match
    var intent: Option<nat>
    var raised: Option<Exn>

    function State(): Record
      reads this
    {
      Record(status, result, found, intent, raised)
    }

    constructor ()
      ensures State() == FRESH
    {
      status, result, found, intent, raised := Okay, Null, Patterns.NoMatch, None, None;
    }
  }

  class Governor {
    const limits: Budget.Limits
    const budget: Budget.BudgetTracker
    const patterns: Patterns.PatternEngine
    const audit: AuditEngine
    const undo: UndoStore
    var prior: Option<Value>

    function Cfg(): Config {
      Config(limits, patterns.patterns)
    }

    function State(): Gov
      reads this, budget, patterns, audit, audit.file, undo
    {
      Gov(budget.State(), patterns.counters, audit.State(), audit.file.store, undo.State(), prior)
    }

    constructor (limits: Budget.Limits, budget: Budget.BudgetTracker, patterns: Patterns.PatternEngine,
                 audit: AuditEngine, undo: UndoStore)
      ensures this.limits == limits && this.budget == budget && this.patterns == patterns
      ensures this.audit == audit && this.undo == undo && prior == None
    {
      this.limits, this.budget, this.patterns, this.audit, this.undo := limits, budget, patterns, audit, undo;
      prior := None;
    }

    method Check(st: CallState, c: Call, env: Env)
      requires st.State() == FRESH
      modifies this, budget, patterns, st
      ensures (State(), st.State()) == PreCheck(Cfg(), old(State()), c, env)
    {
      prior := None;
      var v := budget.CheckAndRecord(c.fp, env.now, limits);
      if v != Budget.Admitted {
        st.status, st.result, st.raised := BudgetExceeded, ErrorResult(STOPPED), Some(STOPPED);
        return;
      }
      if !env.patternsFail {
        var m := patterns.Match(SKILL, c.name, c.target, env.askedAt);
        st.found := m;
      }
    }

    method Commit(st: CallState, c: Call, env: Env)
      modifies audit, audit.file, st
      ensures (State(), st.State()) == BeginWrite(old(State()), c, old(st.State()), env)
    {
      if st.raised.Some? || !c.IsWrite() {
        return;
      }
      var id, raised := audit.BeginWrite(c.Meta(), env.begin);
      if raised {
        st.status, st.result, st.raised := Error, ErrorResult(UNAVAILABLE), Some(UNAVAILABLE);
      } else {
        st.intent := id;
      }
    }

    method KeepInverse(c: Call, v: Value, input: Value, verified: bool, env: Env) returns (out: Value)
      modifies undo
      ensures (State(), out) == Keep(old(State()), c, v, input, verified, env)
    {
      out := v;
      var d := Describe(c.declared, c.params, input);
      if d.Some? {
        var id := undo.Insert(env.tokenId, c.tool, d.value, c.params, verified, env.recordFails);
        if id.Some? && id.value != "" {
          out := SetDefault(v, "_undo_id", Str(id.value));
        }
      }
    }

    method RecordInverse(c: Call, v: Value, env: Env) returns (out: Value)
      modifies this, undo
      ensures (State(), out) == RecordUndo(old(State()), c, v, env)
    {
      if c.declared == NoUndo || c.dryRun {
        return v;
      }
      if IsUnknown(v) {
        var taken := prior;
        prior := None;
        if taken.None? {
          return v;
        }
        out := KeepInverse(c, v, Salvage(taken.value), false, env);
      } else if v.Dict? && Truthy(Get(v, "error")) {
        out := v;
      } else {
        out := KeepInverse(c, v, v, true, env);
      }
    }

    method Finish(st: CallState, body: Body, c: Call, env: Env)
      modifies this, undo, st
      ensures (State(), st.State()) == Complete(old(State()), c, old(st.State()), body, env)
    {
      if st.raised.Some? {
        return;
      }
      if body.captured.Some? {
        prior := body.captured;
      }
      match body.reply {
        case Raised(e) =>
          st.raised := Some(e);
          if e.kind != Stop {
            st.status, st.result := Error, ErrorResult(e);
          }
        case Returned(v) =>
          var out := RecordInverse(c, Annotate(st.found, v), env);
          st.result := out;
      }
    }

    method Conclude(st: CallState, c: Call, env: Env)
      modifies budget, patterns, audit, audit.file, st
      ensures (State(), ReplyOf(st.State())) ==
              (Finalize(Cfg(), old(State()), c, old(st.State()), env).0,
               ReplyOf(Finalize(Cfg(), old(State()), c, old(st.State()), env).1))
      ensures st.status == FinalOf(old(st.State()))
    {
      var r := st.State();
      st.status := FinalOf(r);
      budget.AddDuration(env.seconds);
      if st.found.Armed? && !env.reportFails {
        patterns.ReportOutcome(st.found.pattern.id, c.target, st.status == Okay, env.reportedAt);
      }
      if st.intent.Some? {
        var raised := audit.FinishWrite(st.intent.value, Shown(r), st.status, env.durationMs, env.finishFails);
        if raised {
          st.raised := Some(UNAVAILABLE);
        }
      } else {
        var id, raised := audit.WriteRow(c.Meta(), st.status, Shown(r), env.durationMs, false, env.log);
      }
    }

    // The whole call. `body` is what the tool's function does, if it is reached.
    method Run(c: Call, body: Body, env: Env) returns (reply: Reply)
      modifies this, budget, patterns, audit, audit.file, undo
      ensures State() == Govern(Cfg(), old(State()), c, body, env).0
      ensures reply == ReplyOf(Govern(Cfg(), old(State()), c, body, env).1)
    {
      var st := new CallState();
      Check(st, c, env);
      Commit(st, c, env);
      Finish(st, body, c, env);
      Conclude(st, c, env);
      reply := ReplyOf(st.State());
    }
  }
}
