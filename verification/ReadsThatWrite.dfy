/**
 Statements of the guarded writes, sent as a read.

 Terminating a backend, cancelling its query and resetting the query statistics are one
 SELECT each. As the argument of `explain_query` the same text passes every check, is
 executed, and does what the governed write does: with no intent row in front of it, without
 the self-lockout guard, and on an engine that refuses writes.
 */
module ReadsThatWrite {
  import opened Common
  import opened Json
  import opened Sql
  import opened IndexDef
  import opened Outcome
  import opened Server
  import opened Remediation
  import opened Previews
  import opened Governed
  import opened Harness
  import opened ClosedLoop
  import AuditLog
  import Explain
  import Budget

  // ── the texts ───────────────────────────────────────────────────────────

  function Digits(n: nat): string {
    if n < 10 then [('0' as int + n) as char] else Digits(n / 10) + Digits(n % 10)
  }

  // The tools whose whole effect is one SELECT, for pids the server can hold.
  predicate IsSelect(op: Op) {
    op.ResetStats? || (Signals(op) && 0 <= op.pid < 0x8000_0000)
  }

  const TERMINATE: string := "pg_terminate_backend("
  const CANCEL: string := "pg_cancel_backend("

  // What the tool sends, with the pid in place.
  function OwnText(op: Op): string
    requires IsSelect(op)
  {
    match op
    case Terminate(pid) => "SELECT " + (TERMINATE + (Digits(pid) + ")"))
    case Cancel(pid) => "SELECT " + (CANCEL + (Digits(pid) + ")"))
    case ResetStats => RESET_TEXT
  }

  // What executing it does to the server.
  function Performed(s: Server, op: Op): Server
    requires IsSelect(op)
  {
    match op
    case Terminate(pid) => Signal(s, pid, true, Runs).0
    case Cancel(pid) => Signal(s, pid, false, Runs).0
    case ResetStats => Maintain(s, RESET_TEXT, Runs).0
  }

  // ── the checks ──────────────────────────────────────────────────────────

  lemma {:induction false} ChunkOf(w: string, rest: string)
    requires forall i :: 0 <= i < |w| ==> !PySpace(w[i])
    requires rest != "" && PySpace(rest[0])
    ensures Explain.FirstChunk(w + rest) == w
  {
    if w == "" {
      assert w + rest == rest;
    } else {
      assert (w + rest)[1..] == w[1..] + rest;
      ChunkOf(w[1..], rest);
    }
  }

  // A call that can stand behind SELECT: one statement, trimmed, and not too long.
  predicate Plain(call: string) {
    call != "" && ';' !in call && !PySpace(call[|call| - 1]) && |call| + 7 <= Explain.MAX_STATEMENT
  }

  /** Whatever is called, `SELECT f(..)` passes both checks as it is. */
  lemma SelectPasses(call: string)
    requires Plain(call)
    ensures var text := "SELECT " + call; Explain.Validate(text) == Some(text) && Explain.ReadOnlyLeader(text)
  {
    var text := "SELECT " + call;
    assert text[0] == 'S' && text[|text| - 1] == call[|call| - 1];
    assert text == "SELECT" + (" " + call);
    ChunkOf("SELECT", " " + call);
    SelectFolds();
    assert call[|call| - 1] in call;
  }

  lemma SelectFolds()
    ensures Fold("SELECT") == "select"
  {
  }

  function Pow10(k: nat): nat {
    if k == 0 then 1 else 10 * Pow10(k - 1)
  }

  lemma {:induction false} DigitsAreShort(n: nat, k: nat)
    requires k > 0 && n < Pow10(k)
    ensures 0 < |Digits(n)| <= k && ';' !in Digits(n)
  {
    if n >= 10 {
      DigitsAreShort(n / 10, k - 1);
      assert Digits(n) == Digits(n / 10) + Digits(n % 10);
    }
  }

  lemma PidsAreShort(pid: nat)
    requires pid < 0x8000_0000
    ensures |Digits(pid)| <= 10 && ';' !in Digits(pid)
  {
    assert Pow10(5) == 100000;
    assert Pow10(10) == 10000000000;
    DigitsAreShort(pid, 10);
  }

  lemma CallIsPlain(f: string, pid: nat)
    requires pid < 0x8000_0000 && ';' !in f && |f| < 30
    ensures Plain(f + (Digits(pid) + ")"))
  {
    PidsAreShort(pid);
    var call := f + (Digits(pid) + ")");
    assert call[|call| - 1] == ')';
  }

  lemma NamesArePlain()
    ensures ';' !in TERMINATE && ';' !in CANCEL && |TERMINATE| < 30 && |CANCEL| < 30
  {
  }

  lemma ResetIsPlain()
    ensures Plain("pg_stat_statements_reset()") && RESET_TEXT == "SELECT " + "pg_stat_statements_reset()"
  {
  }

  /** Every such statement passes `explain_query`'s checks unchanged, so with analyze and a
      BEGIN that works it is executed. */
  lemma OwnTextPasses(op: Op, c: Explain.Call)
    requires IsSelect(op) && c.sql == OwnText(op)
    ensures Explain.Validate(c.sql) == Some(OwnText(op))
    ensures c.Executes() <==> c.analyze && c.begin == Explain.Fine
  {
    NamesArePlain();
    match op
    case Terminate(pid) =>
      CallIsPlain(TERMINATE, pid);
      SelectPasses(TERMINATE + (Digits(pid) + ")"));
    case Cancel(pid) =>
      CallIsPlain(CANCEL, pid);
      SelectPasses(CANCEL + (Digits(pid) + ")"));
    case ResetStats =>
      ResetIsPlain();
      SelectPasses("pg_stat_statements_reset()");
  }

  // ── a governed read with a write's effect ───────────────────────────────

  const PLAN: Value := Dict([])

  // The server after a call of `explain_query` with op's own text, and what the call replies.
  // `e` is what it raises if it does not go through.
  function Read(s: Server, op: Op, session: Explain.Session, c: Explain.Call, e: Exn): (Server, Reply)
    requires IsSelect(op) && c.sql == OwnText(op)
  {
    (if session.alive && c.Executes() then Performed(s, op) else s,
     if Explain.ExplainQuery(session, c).1 then Returned(PLAN) else Raised(e))
  }

  predicate Smooth(session: Explain.Session, c: Explain.Call) {
    && session.alive && c.analyze && c.begin == Explain.Fine && c.rollback == Explain.Fine
    && !c.x.raises && !c.x.linkDies
  }

  lemma ReadOpens(cfg: Config, g: Gov, call: Governed.Call, env: Env)
    requires call.risk == "low"
    ensures var (g1, r1) := Open(cfg, g, call, env);
            g1.log == g.log && g1.engine == g.engine && r1.intent.None?
  {
  }

  lemma ReadPerforms(s: Server, op: Op, session: Explain.Session, c: Explain.Call, e: Exn)
    requires IsSelect(op) && c.sql == OwnText(op) && Smooth(session, c)
    ensures Read(s, op, session, c, e) == (Performed(s, op), Returned(PLAN))
  {
    OwnTextPasses(op, c);
  }

  lemma WritePerforms(s: Server, op: Op)
    requires IsSelect(op)
    ensures RunOp(s, op, false, Wire(None, None, Runs, Runs)).0 == Performed(s, op)
  {
  }

  lemma ReadIsAuditedOkay(cfg: Config, g: Gov, call: Governed.Call, env: Env)
    requires Reached(cfg, g, call, env)
    ensures FinalOf(Told(cfg, g, call, BodyOf(Returned(PLAN)), env)) == AuditLog.Okay
  {
    StatusIsOfTheResult(cfg, g, call, PLAN, None, env);
  }

  /** The read does what the write does: the server is as after the real call whose probes are
      silent; the call returns; when its body runs no row of it is in the log; and it is
      audited `ok`. */
  lemma ReadDoesTheWrite(cfg: Config, g: Gov, call: Governed.Call, env: Env,
                         s: Server, op: Op, session: Explain.Session, c: Explain.Call, e: Exn)
    requires IsSelect(op) && c.sql == OwnText(op) && Smooth(session, c)
    requires call.risk == "low" && Reached(cfg, g, call, env)
    ensures Read(s, op, session, c, e) == (RunOp(s, op, false, Wire(None, None, Runs, Runs)).0, Returned(PLAN))
    ensures var (g1, r1) := Open(cfg, g, call, env);
            g1.log == g.log && g1.engine == g.engine && r1.intent.None?
    ensures FinalOf(Told(cfg, g, call, BodyOf(Returned(PLAN)), env)) == AuditLog.Okay
  {
    ReadPerforms(s, op, session, c, e);
    WritePerforms(s, op);
    ReadOpens(cfg, g, call, env);
    ReadIsAuditedOkay(cfg, g, call, env);
  }

  /** Only the write has to get past the audit log. On a blocked engine no guarded write runs,
      and the read does if and only if the budget admits it. */
  lemma BlockedEngineStillReads(cfg: Config, g: Gov, write: Governed.Call, read: Governed.Call, env: Env)
    requires g.engine.blocked && write.IsWrite() && read.risk == "low"
    ensures !Reached(cfg, g, write, env)
    ensures Reached(cfg, g, read, env) <==> Budget.Check(g.budget, cfg.limits, read.fp, env.now).1 == Budget.Admitted
  {
  }

  lemma UnloggedRead(g: Gov, call: Governed.Call, r: Governed.Record, env: Env)
    requires r.intent.None? && (!g.engine.ok || env.log.guardFails)
    ensures var (g', r') := Audit(g, call, r, env);
            g'.log == g.log && g'.engine.blocked == g.engine.blocked && r' == r
  {
  }

  /** And if its one row cannot be written, the read goes on as if it had been: the effect
      leaves no trace in the log at all, and nothing blocks. */
  lemma UnrecordedEffect(cfg: Config, g: Gov, call: Governed.Call, body: Body, env: Env)
    requires call.risk == "low" && Reached(cfg, g, call, env)
    requires !g.engine.ok || env.log.guardFails
    ensures var (g', r) := Govern(cfg, g, call, body, env);
            g'.log == g.log && g'.engine.blocked == g.engine.blocked && r == Told(cfg, g, call, body, env)
  {
    ReadOpens(cfg, g, call, env);
    var (g1, r1) := Open(cfg, g, call, env);
    CompleteKeepsAudit(g1, call, r1, body, env);
    var (g2, r2) := Complete(g1, call, r1, body, env);
    var g3 := Report(cfg, g2.(budget := Budget.Spend(g2.budget, env.seconds)), call, r2, env);
    UnloggedRead(g3, call, r2, env);
  }

  /** Nor does the self-lockout guard stand in front of it: where the real call is refused, the
      read ends the own backend. */
  lemma OwnBackendIsUnguarded(s: Server, own: int, op: Op, w: Wire)
    requires op == Terminate(own) && IsSelect(op) && own in s.sessions && w.first == Some(own)
    ensures RunOp(s, op, false, w) == (s, Raised(REFUSED))
    ensures own !in Performed(s, op).sessions
  {
  }
}
