/**
 Previews of the nine guarded tools, and the self-lockout guards in front of them.

 A preview must change nothing and must report a refusal exactly when the real call would
 be refused for locking the tool out. The first holds always. The second holds for settings,
 and for backends exactly when the identity probes of the two calls turn out alike.
 */
module Previews {
  import opened Common
  import opened Json
  import AuditLog
  import opened Sql
  import opened Server
  import opened Outcome
  import opened Remediation

  // The tools without an inverse; the other three are a `Remediation.Tool` and its parameters.
  datatype Op =
    | Guarded(tool: Tool, params: Value)
    | Terminate(pid: int)
    | Cancel(pid: int)
    | Vacuum(table: string, full: bool, analyze: bool)
    | Analyze(table: string)
    | Reindex(name: string, kind: string, concurrently: bool)
    | ResetStats

  // What `SELECT pg_backend_pid()` answers; None if it fails or is NULL.
  type Probe = Option<int>

  // The wrapper probes once, and a real terminate or cancel probes again.
  datatype Wire = Wire(first: Probe, second: Probe, q: Fault, f: Fault)

  // `guard_terminate_backend`: unknown is never "it is me".
  predicate Myself(probe: Probe, pid: int) {
    probe == Some(pid)
  }

  const PREVIEWED: Reply := Returned(Dict([Entry("dryRun", Bool(true))]))
  const DONE: Reply := Returned(Dict([]))

  // A statement that maintains the server without touching catalogue or settings.
  function Maintain(s: Server, text: string, f: Fault): (Server, Reply) {
    match f
    case Runs => (s.(upkeep := s.upkeep + [text]), DONE)
    case Refuses => (s, Raised(PG_ERROR))
    case Dies(applied) => (if applied then s.(upkeep := s.upkeep + [text]) else s, Raised(LOST))
  }

  // pg_terminate_backend and pg_cancel_backend go through `query`: a dead link is a PgError.
  function Signal(s: Server, pid: int, kill: bool, f: Fault): (Server, Reply) {
    var hit := if pid !in s.sessions then s
               else s.(sessions := if kill then s.sessions - {pid} else s.sessions[pid := false]);
    match f
    case Runs => (hit, DONE)
    case Refuses => (s, Raised(PG_ERROR))
    case Dies(applied) => (if applied then hit else s, Raised(PG_ERROR))
  }

  function Backend(s: Server, pid: int, kill: bool, dryRun: bool, w: Wire): (Server, Reply) {
    if Myself(w.first, pid) then (s, Raised(REFUSED))
    else if dryRun then (s, PREVIEWED)
    else if Myself(w.second, pid) then (s, Raised(REFUSED))
    else if w.q != Runs then (s, Raised(PG_ERROR))
    else Signal(s, pid, kill, w.f)
  }

  const RESET_TEXT: string := "SELECT pg_stat_statements_reset()"

  const REINDEX_KINDS: set<string> := {"index", "table", "schema"}

  function OnTable(s: Server, table: string, lead: string, dryRun: bool, w: Wire): (Server, Reply) {
    if dryRun then (s, PREVIEWED)
    else if Qualify(table).Failure? then (s, Raised(REFUSED))
    else if w.q != Runs then (s, Raised(PG_ERROR))
    else Maintain(s, lead + Qualify(table).value, w.f)
  }

  function VacuumLead(full: bool, analyze: bool): string {
    if full && analyze then "VACUUM (FULL, ANALYZE) "
    else if full then "VACUUM (FULL) "
    else if analyze then "VACUUM (ANALYZE) "
    else "VACUUM "
  }

  function ReindexOp(s: Server, name: string, kind: string, concurrently: bool, dryRun: bool, w: Wire): (Server, Reply) {
    var k := Fold(if kind == "" then "index" else kind);
    if dryRun then (s, PREVIEWED)
    else if k !in REINDEX_KINDS || Qualify(name).Failure? then (s, Raised(REFUSED))
    else Maintain(s, "REINDEX " + (if concurrently then "CONCURRENTLY " else "") + k + " " + Qualify(name).value, w.f)
  }

  function RunOp(s: Server, op: Op, dryRun: bool, w: Wire): (Server, Reply) {
    match op
    case Guarded(tool, params) => RunTool(s, tool, params, dryRun, w.q, w.f)
    case Terminate(pid) => Backend(s, pid, true, dryRun, w)
    case Cancel(pid) => Backend(s, pid, false, dryRun, w)
    case Vacuum(table, full, analyze) => OnTable(s, table, VacuumLead(full, analyze), dryRun, w)
    case Analyze(table) => OnTable(s, table, "ANALYZE ", dryRun, w)
    case Reindex(name, kind, concurrently) => ReindexOp(s, name, kind, concurrently, dryRun, w)
    case ResetStats => if dryRun then (s, PREVIEWED) else Maintain(s, RESET_TEXT, w.f)
  }

  /** No preview of any of the nine tools changes the server, whatever the link does. */
  lemma PreviewsChangeNothing(s: Server, op: Op, w: Wire)
    ensures RunOp(s, op, true, w).0 == s
  {
    if op.Guarded? {
      ToolSendsOneStatement(s, op.tool, op.params, true, w.q, w.f);
    }
  }

  // The tools whose statement goes through `query`.
  predicate Signals(op: Op) {
    op.Terminate? || op.Cancel?
  }

  lemma CreateLost(s: Server, params: Value, dryRun: bool, f: Fault)
    ensures CreateIndexTool(s, params, dryRun, f).1 == Raised(LOST) ==> f.Dies? && !dryRun
  {
  }

  lemma DropLost(s: Server, params: Value, dryRun: bool, q: Fault, f: Fault)
    ensures DropIndexTool(s, params, dryRun, q, f).1 == Raised(LOST) ==> f.Dies? && !dryRun && q == Runs
  {
  }

  lemma SettingLost(s: Server, params: Value, dryRun: bool, q: Fault, f: Fault)
    ensures UpdateSettingTool(s, params, dryRun, q, f).1 == Raised(LOST) ==> f.Dies? && !dryRun && q == Runs
  {
  }

  lemma ToolLost(s: Server, tool: Tool, params: Value, dryRun: bool, q: Fault, f: Fault)
    ensures RunTool(s, tool, params, dryRun, q, f).1 == Raised(LOST) ==>
              f.Dies? && !dryRun && (q == Runs || tool == CreateTool)
  {
    match tool
    case CreateTool => CreateLost(s, params, dryRun, f);
    case DropTool => DropLost(s, params, dryRun, q, f);
    case SettingTool => SettingLost(s, params, dryRun, q, f);
    case Named(_) =>
  }

  lemma CreateDies(s: Server, params: Value, applied: bool)
    requires CreateIndexTool(s, params, false, Runs).1.Returned?
    ensures CreateIndexTool(s, params, false, Dies(applied)).1 == Raised(LOST)
  {
  }

  lemma DropDies(s: Server, params: Value, q: Fault, applied: bool)
    requires DropIndexTool(s, params, false, q, Runs).1.Returned?
    ensures DropIndexTool(s, params, false, q, Dies(applied)).1 == Raised(LOST)
  {
  }

  lemma SettingDies(s: Server, params: Value, q: Fault, applied: bool)
    requires UpdateSettingTool(s, params, false, q, Runs).1.Returned?
    ensures UpdateSettingTool(s, params, false, q, Dies(applied)).1 == Raised(LOST)
  {
  }

  lemma ToolDies(s: Server, tool: Tool, params: Value, q: Fault, applied: bool)
    requires !tool.Named? && RunTool(s, tool, params, false, q, Runs).1.Returned?
    ensures RunTool(s, tool, params, false, q, Dies(applied)).1 == Raised(LOST)
  {
    match tool
    case CreateTool => CreateDies(s, params, applied);
    case DropTool => DropDies(s, params, q, applied);
    case SettingTool => SettingDies(s, params, q, applied);
  }

  // Only a real call whose link died is undetermined.
  lemma LostMeansDied(s: Server, op: Op, dryRun: bool, w: Wire)
    ensures Verdict(RunOp(s, op, dryRun, w).1) == AuditLog.Unknown ==> w.f.Dies? && !dryRun && !Signals(op)
  {
    if op.Guarded? {
      ToolLost(s, op.tool, op.params, dryRun, w.q, w.f);
    }
  }

  /** A call that would have gone through but for its link is undetermined, unless it signals
      a backend: then the lost response is taken for an error, also when the backend is gone.
      Nothing else is undetermined. */
  lemma LostResponses(s: Server, op: Op, dryRun: bool, w: Wire, applied: bool)
    requires op.Guarded? ==> !op.tool.Named?
    ensures Verdict(RunOp(s, op, dryRun, w).1) == AuditLog.Unknown ==> w.f.Dies? && !dryRun && !Signals(op)
    ensures RunOp(s, op, false, w.(f := Runs)).1.Returned? ==>
              Verdict(RunOp(s, op, false, w.(f := Dies(applied))).1) == if Signals(op) then AuditLog.Error else AuditLog.Unknown
  {
    LostMeansDied(s, op, dryRun, w);
    if op.Guarded? && RunTool(s, op.tool, op.params, false, w.q, Runs).1.Returned? {
      ToolDies(s, op.tool, op.params, w.q, applied);
    }
  }

  // The call ends in the refusal of the backend guard.
  predicate RefusedBackend(op: Op, dryRun: bool, w: Wire) {
    Signals(op) && (Myself(w.first, op.pid) || (!dryRun && Myself(w.second, op.pid)))
  }

  // Every probe answers this session's own pid or nothing.
  predicate Probes(w: Wire, own: int) {
    (w.first.Some? ==> w.first.value == own) && (w.second.Some? ==> w.second.value == own)
  }

  /** A preview of terminating or cancelling reports the self-lockout exactly when the real
      call would be refused for it, if and only if the target is another backend or the
      preview's probe answers exactly when one of the real call's two probes does. A probe
      that fails open makes them differ, in either direction. */
  lemma BackendPreviewAgreesIff(s: Server, op: Op, dry: Wire, live: Wire, own: int)
    requires Signals(op) && Probes(dry, own) && Probes(live, own)
    ensures RefusedBackend(op, true, dry) == (RunOp(s, op, true, dry).1 == Raised(REFUSED))
    ensures RefusedBackend(op, false, live) ==> RunOp(s, op, false, live) == (s, Raised(REFUSED))
    ensures (RefusedBackend(op, true, dry) <==> RefusedBackend(op, false, live)) <==>
              op.pid != own || (dry.first.Some? <==> live.first.Some? || live.second.Some?)
  {
  }

  /** The one session this tool cannot end is its own, as long as either probe answers. */
  lemma OwnBackendSurvives(s: Server, op: Op, w: Wire, own: int)
    requires Signals(op) && Probes(w, own) && (w.first.Some? || w.second.Some?)
    requires own in s.sessions
    ensures var s' := RunOp(s, op, false, w).0; own in s'.sessions && s'.sessions[own] == s.sessions[own]
  {
  }

  /** For settings the guard is static: preview and real call are refused for the same names,
      before anything is read or sent. */
  lemma SettingPreviewAgrees(s: Server, params: Value, name: string, dry: Wire, live: Wire)
    requires Get(params, "name") == Str(name)
    ensures RunOp(s, Guarded(SettingTool, params), true, dry).1.Raised? <==> LocksOut(name)
    ensures LocksOut(name) ==> RunOp(s, Guarded(SettingTool, params), false, live) == (s, Raised(REFUSED))
  {
  }
}
