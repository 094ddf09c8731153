/**
 Tokens over whole runs of governed calls.

 The executor's results on single use, carried over to what really happens: tool calls and
 `undo_apply` calls through the wrapper, each dispatch a governed call of its own that may
 leave a token, and a server that others change in between.
 */
module TokenRuns {
  import opened Common
  import opened Json
  import opened Server
  import opened Outcome
  import opened Remediation
  import opened UndoStack
  import opened UndoTokens
  import opened UndoExecutor
  import opened Governed
  import opened Harness
  import opened ClosedLoop
  import AuditLog
  import Previews

  datatype Happening =
    | Calls(c: Governed.Call, link: Link, env: Env)
    | Undoes(x: Replay)
    | Elsewhere(server: Server)

  // `undo_apply` declares no undo callable.
  predicate Proper(h: Happening) {
    h.Undoes? ==> h.x.c.declared == NoUndo
  }

  predicate AllProper(hs: seq<Happening>) {
    forall i :: 0 <= i < |hs| ==> Proper(hs[i])
  }

  function Next(cfg: Config, w: World, h: Happening): World {
    match h
    case Calls(c, link, env) => ToolCall(cfg, w, c, link, env).0
    case Undoes(x) => UndoApply(cfg, w, x).0
    case Elsewhere(server) => w.(server := server)
  }

  function Played(cfg: Config, w: World, hs: seq<Happening>): World {
    if hs == [] then w else Next(cfg, Played(cfg, w, hs[..|hs| - 1]), hs[|hs| - 1])
  }

  // ── one step ────────────────────────────────────────────────────────────

  // At most one token more, recorded and verified.
  predicate Grows(t: Tokens, t': Tokens) {
    || t' == t
    || (|t'.rows| == |t.rows| + 1 && t' == t.(rows := t.rows + [t'.rows[|t.rows|]])
        && t'.rows[|t.rows|].status == Recorded && t'.rows[|t.rows|].verified)
  }

  // Every token in it is verified.
  predicate AllVerified(t: Tokens) {
    forall i :: 0 <= i < |t.rows| ==> t.rows[i].verified
  }

  lemma AddedIsVerified(cfg: Config, w: World, c: Governed.Call, link: Link, env: Env)
    requires Reached(cfg, w.gov, c, env)
    ensures var reply := RunTool(w.server, c.tool, c.params, c.dryRun, link.q, link.f).1;
            var t' := Govern(cfg, w.gov, c, BodyOf(reply), env).0.tokens;
            Grows(w.gov.tokens, t') && (reply.Raised? ==> t' == w.gov.tokens)
  {
    var reply := RunTool(w.server, c.tool, c.params, c.dryRun, link.q, link.f).1;
    TokensAreSound(cfg, w.gov, Item(c, BodyOf(reply), env));
    var t, t' := w.gov.tokens, Govern(cfg, w.gov, c, BodyOf(reply), env).0.tokens;
    if t' != t {
      JustifiedMeansReturned(w.server, c, link, env, t'.rows[|t.rows|]);
    }
  }

  /** A tool call leaves at most one token, a verified one, and none at all if the tool raised:
      the branch of the wrapper that salvages an undetermined write from captured before-state
      is reached by no tool. */
  lemma ToolTokensAreVerified(cfg: Config, w: World, c: Governed.Call, link: Link, env: Env)
    ensures Grows(w.gov.tokens, ToolCall(cfg, w, c, link, env).0.gov.tokens)
  {
    if Reached(cfg, w.gov, c, env) {
      AddedIsVerified(cfg, w, c, link, env);
    } else {
      UnreachedRecordsNothing(cfg, w.gov, c, FINISHED, env);
    }
  }

  /** A write whose response was lost after the server applied it: the server is changed, the
      call is audited `unknown` and exits 2, and no inverse is recorded for it. */
  lemma LostWriteHasNoInverse(cfg: Config, w: World, c: Governed.Call, link: Link, env: Env)
    requires Reached(cfg, w.gov, c, env)
    requires RunTool(w.server, c.tool, c.params, c.dryRun, link.q, link.f).1 == Raised(LOST)
    requires link.f == Dies(true)
    ensures var (w', r) := ToolCall(cfg, w, c, link, env);
            && w'.server == Apply(w.server, c.tool, c.params).0
            && FinalOf(Told(cfg, w.gov, c, BodyOf(Raised(LOST)), env)) == AuditLog.Unknown
            && (ReplyOf(r).Returned? ==> Checked(ReplyOf(r).v) == 2)
            && w'.gov.tokens == w.gov.tokens
  {
    AddedIsVerified(cfg, w, c, link, env);
    LostIsUnknown(cfg, w.gov, c, env);
    LostButApplied(w.server, c.tool, c.params, c.dryRun, link.q);
  }

  lemma LostIsUnknown(cfg: Config, g: Gov, c: Governed.Call, env: Env)
    requires Reached(cfg, g, c, env)
    ensures FinalOf(Told(cfg, g, c, BodyOf(Raised(LOST)), env)) == AuditLog.Unknown
    ensures var out := ReplyOf(Govern(cfg, g, c, BodyOf(Raised(LOST)), env).1); out.Returned? ==> Checked(out.v) == 2
  {
    OursAreToldRightly(cfg, g, c, Raised(LOST), env);
  }

  lemma LostButApplied(s: Server, tool: Tool, params: Value, dryRun: bool, q: Fault)
    requires RunTool(s, tool, params, dryRun, q, Dies(true)).1 == Raised(LOST)
    ensures RunTool(s, tool, params, dryRun, q, Dies(true)).0 == Apply(s, tool, params).0
  {
    ToolSendsOneStatement(s, tool, params, dryRun, q, Dies(true));
    ToolSendsOneStatement(s, tool, params, false, Runs, Runs);
    Previews.ToolLost(s, tool, params, dryRun, q, Dies(true));
  }

  // ── applied tokens ──────────────────────────────────────────────────────

  lemma GrowingKeepsApplied(t: Tokens, t': Tokens, id: string)
    requires Grows(t, t')
    ensures IsApplied(t', id) <==> IsApplied(t, id)
  {
    if t' != t {
      FindAppended(t.rows, t'.rows[|t.rows|], id);
    }
  }

  // The happening dispatches the token's inverse, and the inverse goes through.
  predicate ReplaysIn(cfg: Config, w: World, h: Happening, id: string) {
    h.Undoes? && h.x.q.id == id && Dispatches(cfg, w, h.x) && WentThrough(ReplyOf(Inner(cfg, w, h.x).1))
  }

  // ... and marking the token afterwards fails.
  predicate Slips(cfg: Config, w: World, h: Happening, id: string) {
    ReplaysIn(cfg, w, h, id) && h.x.markFails
  }

  lemma InnerGrows(cfg: Config, w: World, x: Replay)
    requires Dispatches(cfg, w, x)
    ensures Grows(w.gov.tokens, Inner(cfg, w, x).0.gov.tokens)
  {
    OpenKeepsRest(cfg, w.gov, x.c, x.env);
    ToolTokensAreVerified(cfg, Inside(cfg, w, x), DispatchedCall(cfg, w, x), x.link, x.innerEnv);
  }

  lemma DispatchedIsRecorded(cfg: Config, w: World, x: Replay)
    requires Dispatches(cfg, w, x)
    ensures w.gov.tokens.ok && GetToken(w.gov.tokens, x.q.id).Some? && !IsApplied(w.gov.tokens, x.q.id)
  {
    OpenKeepsRest(cfg, w.gov, x.c, x.env);
  }

  lemma SettleApplies(t: Tokens, q: Request, verified: bool, inner: Reply, markFails: bool, id: string)
    requires GetToken(t, q.id).Some?
    ensures var t' := Settle(t, q, verified, inner, markFails).0;
            IsApplied(t', id) <==> IsApplied(t, id) || (q.id == id && WentThrough(inner) && !markFails)
  {
    MarkedIsFound(t, q.id, Applied, id);
  }

  lemma UndoneStep(cfg: Config, w: World, x: Replay, id: string)
    requires x.c.declared == NoUndo
    ensures IsApplied(UndoApply(cfg, w, x).0.gov.tokens, id) <==>
              IsApplied(w.gov.tokens, id) || (ReplaysIn(cfg, w, Undoes(x), id) && !x.markFails)
  {
    TokensAfterApply(cfg, w, x);
    if Dispatches(cfg, w, x) {
      var t, t' := w.gov.tokens, Inner(cfg, w, x).0.gov.tokens;
      InnerGrows(cfg, w, x);
      DispatchedIsRecorded(cfg, w, x);
      GrowingKeepsApplied(t, t', id);
      GrowingKeepsToken(t, t', x.q.id);
      SettleApplies(t', x.q, GetToken(Inside(cfg, w, x).gov.tokens, x.q.id).value.verified,
                    ReplyOf(Inner(cfg, w, x).1), x.markFails, id);
    }
  }

  lemma GrowingKeepsToken(t: Tokens, t': Tokens, id: string)
    requires Grows(t, t') && GetToken(t, id).Some?
    ensures GetToken(t', id) == GetToken(t, id)
  {
    if t' != t {
      FindAppended(t.rows, t'.rows[|t.rows|], id);
    }
  }

  // A token becomes applied by one kind of happening only.
  lemma NextApplies(cfg: Config, w: World, h: Happening, id: string)
    requires Proper(h)
    ensures IsApplied(Next(cfg, w, h).gov.tokens, id) <==>
              IsApplied(w.gov.tokens, id) || (ReplaysIn(cfg, w, h, id) && !Slips(cfg, w, h, id))
    ensures ReplaysIn(cfg, w, h, id) ==> !IsApplied(w.gov.tokens, id)
  {
    match h
    case Calls(c, link, env) =>
      ToolTokensAreVerified(cfg, w, c, link, env);
      GrowingKeepsApplied(w.gov.tokens, Next(cfg, w, h).gov.tokens, id);
    case Undoes(x) =>
      UndoneStep(cfg, w, x, id);
      if Dispatches(cfg, w, x) {
        DispatchedIsRecorded(cfg, w, x);
      }
    case Elsewhere(_) =>
  }

  // ── whole runs ──────────────────────────────────────────────────────────

  // How often the token's inverse went through, and how often marking it then failed.
  function ReplayCount(cfg: Config, w: World, hs: seq<Happening>, id: string): nat {
    if hs == [] then 0
    else
      var rest, h := hs[..|hs| - 1], hs[|hs| - 1];
      ReplayCount(cfg, w, rest, id) + if ReplaysIn(cfg, Played(cfg, w, rest), h, id) then 1 else 0
  }

  function SlipCount(cfg: Config, w: World, hs: seq<Happening>, id: string): nat {
    if hs == [] then 0
    else
      var rest, h := hs[..|hs| - 1], hs[|hs| - 1];
      SlipCount(cfg, w, rest, id) + if Slips(cfg, Played(cfg, w, rest), h, id) then 1 else 0
  }

  function Count(b: bool): nat {
    if b then 1 else 0
  }

  /** Single use, through the wrapper: over any run of governed tool calls and `undo_apply`
      calls from a world where the token is not applied, on a server others may change, the
      token's inverse goes through exactly as often as marking it failed, and once more if the
      token ends up applied. */
  lemma {:induction false} GovernedSingleUse(cfg: Config, w: World, hs: seq<Happening>, id: string)
    requires AllProper(hs) && !IsApplied(w.gov.tokens, id)
    ensures ReplayCount(cfg, w, hs, id) == SlipCount(cfg, w, hs, id) + Count(IsApplied(Played(cfg, w, hs).gov.tokens, id))
  {
    if hs != [] {
      var rest, h := hs[..|hs| - 1], hs[|hs| - 1];
      GovernedSingleUse(cfg, w, rest, id);
      NextApplies(cfg, Played(cfg, w, rest), h, id);
    }
  }

  /** Applied is terminal, through the wrapper: from a world where the token is applied it
      stays applied, and its inverse never goes through again. */
  lemma {:induction false} GovernedAppliedIsTerminal(cfg: Config, w: World, hs: seq<Happening>, id: string)
    requires AllProper(hs) && IsApplied(w.gov.tokens, id)
    ensures IsApplied(Played(cfg, w, hs).gov.tokens, id) && ReplayCount(cfg, w, hs, id) == 0
  {
    if hs != [] {
      var rest, h := hs[..|hs| - 1], hs[|hs| - 1];
      GovernedAppliedIsTerminal(cfg, w, rest, id);
      NextApplies(cfg, Played(cfg, w, rest), h, id);
    }
  }

  lemma GrowingKeepsVerified(t: Tokens, t': Tokens)
    requires Grows(t, t') && AllVerified(t)
    ensures AllVerified(t')
  {
  }

  // A dispatch lets the inner call add its token, and then at most marks the one applied.
  ghost predicate MovesOn(t: Tokens, t'': Tokens, id: string) {
    exists t' :: Grows(t, t') && (t'' == t' || t'' == Mark(t', id, Applied))
  }

  lemma UndoMovesOn(cfg: Config, w: World, x: Replay)
    requires x.c.declared == NoUndo
    ensures MovesOn(w.gov.tokens, UndoApply(cfg, w, x).0.gov.tokens, x.q.id)
  {
    TokensAfterApply(cfg, w, x);
    if Dispatches(cfg, w, x) {
      InnerGrows(cfg, w, x);
    } else {
      assert Grows(w.gov.tokens, w.gov.tokens);
    }
  }

  lemma MovingKeepsVerified(t: Tokens, t'': Tokens, id: string)
    requires MovesOn(t, t'', id) && AllVerified(t)
    ensures AllVerified(t'')
  {
    var t' :| Grows(t, t') && (t'' == t' || t'' == Mark(t', id, Applied));
    GrowingKeepsVerified(t, t');
  }

  lemma NextKeepsVerified(cfg: Config, w: World, h: Happening)
    requires Proper(h) && AllVerified(w.gov.tokens)
    ensures AllVerified(Next(cfg, w, h).gov.tokens)
  {
    match h
    case Calls(c, link, env) =>
      ToolTokensAreVerified(cfg, w, c, link, env);
    case Undoes(x) =>
      UndoMovesOn(cfg, w, x);
      MovingKeepsVerified(w.gov.tokens, Next(cfg, w, h).gov.tokens, x.q.id);
    case Elsewhere(_) =>
  }

  /** Over any such run every token is a verified one. */
  lemma {:induction false} EveryTokenIsVerified(cfg: Config, w: World, hs: seq<Happening>)
    requires AllProper(hs) && AllVerified(w.gov.tokens)
    ensures AllVerified(Played(cfg, w, hs).gov.tokens)
  {
    if hs != [] {
      EveryTokenIsVerified(cfg, w, hs[..|hs| - 1]);
      NextKeepsVerified(cfg, Played(cfg, w, hs[..|hs| - 1]), hs[|hs| - 1]);
    }
  }
}
