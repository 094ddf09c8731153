/**
 Stacks of governed writes, undone through `undo_apply`.

 The writes go through the wrapper one after the other and leave a token each; then the
 tokens are applied last to first, each dispatch again through the wrapper and leaving a
 token of its own. Nothing is taken for granted in between but that the settings view may
 change: that the server is still alike and that the older tokens are untouched is what the
 induction establishes.
 */
module GovernedStack {
  import opened Common
  import opened Json
  import opened Server
  import opened Outcome
  import opened Remediation
  import opened UndoStack
  import opened UndoTokens
  import opened UndoExecutor
  import opened Governed
  import opened Harness
  import opened ClosedLoop

  type View = map<string, Setting>

  // A governed write, and what the settings view shows when it runs.
  datatype Step = Step(c: Governed.Call, link: Link, env: Env, view: View)

  // An application of a token, likewise.
  datatype Back = Back(x: Replay, view: View)

  function Looking(w: World, view: View): World {
    w.(server := w.server.(view := view))
  }

  // ── the two kinds of steps ──────────────────────────────────────────────

  // From a to b by a write that meets the condition of its inverse and leaves a token under
  // an identifier that was free.
  ghost predicate Wrote(cfg: Config, a: World, z: Step, b: World) {
    var seen := Looking(a, z.view);
    && b == ToolCall(cfg, seen, z.c, z.link, z.env).0
    && z.c.declared == Inverse(z.c.tool) && Undoable(seen.server, z.c.tool, z.c.params)
    && GetToken(seen.gov.tokens, z.env.tokenId).None? && GetToken(b.gov.tokens, z.env.tokenId).Some?
  }

  // From a to b by an application that dispatches its inverse, and the inverse takes.
  predicate WentBack(cfg: Config, a: World, k: Back, b: World) {
    var seen := Looking(a, k.view);
    && b == UndoApply(cfg, seen, k.x).0 && k.x.c.declared == NoUndo
    && Dispatches(cfg, seen, k.x) && Takes(cfg, seen, k.x)
  }

  // f[0] to f[n] by the writes, in order.
  ghost predicate Forward(cfg: Config, f: seq<World>, steps: seq<Step>) {
    && |f| == |steps| + 1
    && forall i {:trigger Wrote(cfg, f[i], steps[i], f[i + 1])} :: 0 <= i < |steps| ==>
         Wrote(cfg, f[i], steps[i], f[i + 1])
  }

  // u[n] back to u[0], the last token first.
  ghost predicate Backward(cfg: Config, u: seq<World>, steps: seq<Step>, backs: seq<Back>) {
    && |u| == |steps| + 1 && |backs| == |steps|
    && (forall i :: 0 <= i < |steps| ==> backs[i].x.q.id == steps[i].env.tokenId)
    && forall i {:trigger WentBack(cfg, u[i + 1], backs[i], u[i])} :: 0 <= i < |steps| ==>
         WentBack(cfg, u[i + 1], backs[i], u[i])
  }

  // ── tokens ──────────────────────────────────────────────────────────────

  // Every token of w is in w' as it was, one excepted.
  ghost predicate KeepsTokens(w: World, w': World, but: Option<string>) {
    forall id :: Some(id) != but && GetToken(w.gov.tokens, id).Some? ==>
      GetToken(w'.gov.tokens, id) == GetToken(w.gov.tokens, id)
  }

  lemma ToolCallKeepsTokens(cfg: Config, w: World, c: Governed.Call, link: Link, env: Env)
    ensures KeepsTokens(w, ToolCall(cfg, w, c, link, env).0, None)
  {
    var w' := ToolCall(cfg, w, c, link, env).0;
    forall id | GetToken(w.gov.tokens, id).Some? ensures GetToken(w'.gov.tokens, id) == GetToken(w.gov.tokens, id) {
      ToolCallKeepsToken(cfg, w, c, link, env, id);
    }
  }

  lemma WroteKeepsTokens(cfg: Config, a: World, z: Step, b: World)
    requires Wrote(cfg, a, z, b)
    ensures KeepsTokens(a, b, None)
  {
    ToolCallKeepsTokens(cfg, Looking(a, z.view), z.c, z.link, z.env);
  }

  lemma InnerKeepsToken(cfg: Config, w: World, x: Replay, id: string)
    requires Dispatches(cfg, w, x) && GetToken(w.gov.tokens, id).Some?
    ensures GetToken(Inner(cfg, w, x).0.gov.tokens, id) == GetToken(w.gov.tokens, id)
  {
    OpenKeepsRest(cfg, w.gov, x.c, x.env);
    ToolCallKeepsToken(cfg, Inside(cfg, w, x), DispatchedCall(cfg, w, x), x.link, x.innerEnv, id);
  }

  lemma SettleKeepsToken(t: Tokens, q: Request, verified: bool, inner: Reply, markFails: bool, id: string)
    requires id != q.id
    ensures GetToken(Settle(t, q, verified, inner, markFails).0, id) == GetToken(t, id)
  {
    MarkedIsFound(t, q.id, Applied, id);
  }

  lemma UndoApplyKeepsToken(cfg: Config, w: World, x: Replay, id: string)
    requires x.c.declared == NoUndo && id != x.q.id && GetToken(w.gov.tokens, id).Some?
    ensures GetToken(UndoApply(cfg, w, x).0.gov.tokens, id) == GetToken(w.gov.tokens, id)
  {
    TokensAfterApply(cfg, w, x);
    if Dispatches(cfg, w, x) {
      InnerKeepsToken(cfg, w, x, id);
      SettleKeepsToken(Inner(cfg, w, x).0.gov.tokens, x.q, GetToken(Inside(cfg, w, x).gov.tokens, x.q.id).value.verified,
                       ReplyOf(Inner(cfg, w, x).1), x.markFails, id);
    }
  }

  lemma WentBackKeepsTokens(cfg: Config, a: World, k: Back, b: World)
    requires WentBack(cfg, a, k, b)
    ensures KeepsTokens(a, b, Some(k.x.q.id))
  {
    forall id | id != k.x.q.id && GetToken(a.gov.tokens, id).Some?
      ensures GetToken(b.gov.tokens, id) == GetToken(a.gov.tokens, id)
    {
      UndoApplyKeepsToken(cfg, Looking(a, k.view), k.x, id);
    }
  }

  // w holds the token of step j as it was recorded.
  predicate HoldsOne(f: seq<World>, steps: seq<Step>, j: nat, w: World)
    requires |f| == |steps| + 1 && j < |steps|
  {
    var id := steps[j].env.tokenId;
    GetToken(w.gov.tokens, id).Some? && GetToken(w.gov.tokens, id) == GetToken(f[j + 1].gov.tokens, id)
  }

  predicate Holds(f: seq<World>, steps: seq<Step>, n: nat, w: World)
    requires |f| == |steps| + 1 && n <= |steps|
  {
    forall j :: 0 <= j < n ==> HoldsOne(f, steps, j, w)
  }

  lemma HoldsOn(f: seq<World>, steps: seq<Step>, n: nat, w: World, w': World, but: Option<string>)
    requires |f| == |steps| + 1 && n <= |steps| && Holds(f, steps, n, w) && KeepsTokens(w, w', but)
    requires but.Some? ==> forall j :: 0 <= j < n ==> steps[j].env.tokenId != but.value
    ensures Holds(f, steps, n, w')
  {
    forall j | 0 <= j < n ensures HoldsOne(f, steps, j, w') {
      assert HoldsOne(f, steps, j, w);
    }
  }

  lemma HoldsAfterWrite(cfg: Config, f: seq<World>, steps: seq<Step>, n: nat)
    requires Forward(cfg, f, steps) && n < |steps| && Holds(f, steps, n, f[n])
    ensures Holds(f, steps, n + 1, f[n + 1])
  {
    assert Wrote(cfg, f[n], steps[n], f[n + 1]);
    WroteKeepsTokens(cfg, f[n], steps[n], f[n + 1]);
    HoldsOn(f, steps, n, f[n], f[n + 1], None);
    assert HoldsOne(f, steps, n, f[n + 1]);
  }

  lemma {:induction false} WritesHold(cfg: Config, f: seq<World>, steps: seq<Step>, n: nat)
    requires Forward(cfg, f, steps) && n <= |steps|
    ensures Holds(f, steps, n, f[n])
  {
    if n > 0 {
      WritesHold(cfg, f, steps, n - 1);
      HoldsAfterWrite(cfg, f, steps, n - 1);
    }
  }

  // No earlier token has the identifier of step n's.
  lemma IdIsFresh(cfg: Config, f: seq<World>, steps: seq<Step>, n: nat)
    requires Forward(cfg, f, steps) && n < |steps|
    ensures forall j :: 0 <= j < n ==> steps[j].env.tokenId != steps[n].env.tokenId
  {
    WritesHold(cfg, f, steps, n);
    assert Wrote(cfg, f[n], steps[n], f[n + 1]);
    forall j | 0 <= j < n ensures steps[j].env.tokenId != steps[n].env.tokenId {
      assert HoldsOne(f, steps, j, f[n]);
    }
  }

  // ── the server ──────────────────────────────────────────────────────────

  lemma ToolKeepsSane(s: Server, tool: Tool, params: Value, dryRun: bool, q: Fault, f: Fault)
    requires Sane(s)
    ensures Sane(RunTool(s, tool, params, dryRun, q, f).0)
  {
    ToolSendsOneStatement(s, tool, params, dryRun, q, f);
    var sent := Sends(s, tool, params);
    if sent.Some? {
      SubmitKeepsSane(s, sent.value);
    }
  }

  lemma ToolCallServer(cfg: Config, w: World, c: Governed.Call, link: Link, env: Env)
    ensures var s := ToolCall(cfg, w, c, link, env).0.server;
            s == w.server || s == RunTool(w.server, c.tool, c.params, c.dryRun, link.q, link.f).0
  {
  }

  lemma WroteKeepsSane(cfg: Config, a: World, z: Step, b: World)
    requires Wrote(cfg, a, z, b) && Sane(a.server)
    ensures Sane(b.server) && Sane(Looking(a, z.view).server)
  {
    var seen := Looking(a, z.view);
    SameCatalogueSane(a.server, seen.server);
    ToolCallServer(cfg, seen, z.c, z.link, z.env);
    ToolKeepsSane(seen.server, z.c.tool, z.c.params, z.c.dryRun, z.link.q, z.link.f);
  }

  lemma SaneAfterWrite(cfg: Config, f: seq<World>, steps: seq<Step>, n: nat)
    requires Forward(cfg, f, steps) && n < |steps| && Sane(f[n].server)
    ensures Sane(f[n + 1].server)
  {
    assert Wrote(cfg, f[n], steps[n], f[n + 1]);
    WroteKeepsSane(cfg, f[n], steps[n], f[n + 1]);
  }

  lemma {:induction false} WritesKeepSane(cfg: Config, f: seq<World>, steps: seq<Step>, n: nat)
    requires Forward(cfg, f, steps) && n <= |steps| && Sane(f[0].server)
    ensures Sane(f[n].server)
  {
    if n > 0 {
      WritesKeepSane(cfg, f, steps, n - 1);
      SaneAfterWrite(cfg, f, steps, n - 1);
    }
  }

  // One write, and later one application of its token, on a server alike and with the token.
  lemma OneBack(cfg: Config, a: World, z: Step, b: World, w: World, k: Back, w': World)
    requires Sane(a.server) && Wrote(cfg, a, z, b) && WentBack(cfg, w, k, w')
    requires Alike(w.server, b.server) && k.x.q.id == z.env.tokenId
    requires GetToken(w.gov.tokens, z.env.tokenId) == GetToken(b.gov.tokens, z.env.tokenId)
    ensures Alike(w'.server, a.server)
  {
    var seen, before := Looking(w, k.view), Looking(a, z.view);
    SameCatalogueSane(a.server, before.server);
    DispatchRestores(cfg, before, z.c, z.link, z.env, seen, k.x);
    AlikeIsTransitive(w'.server, before.server, a.server);
  }

  lemma OneStepBack(cfg: Config, f: seq<World>, u: seq<World>, steps: seq<Step>, backs: seq<Back>, n: nat)
    requires Forward(cfg, f, steps) && Backward(cfg, u, steps, backs) && n < |steps| && Sane(f[0].server)
    requires Alike(u[n + 1].server, f[n + 1].server) && Holds(f, steps, n + 1, u[n + 1])
    ensures Alike(u[n].server, f[n].server) && Holds(f, steps, n, u[n])
  {
    WritesKeepSane(cfg, f, steps, n);
    IdIsFresh(cfg, f, steps, n);
    assert HoldsOne(f, steps, n, u[n + 1]);
    assert Wrote(cfg, f[n], steps[n], f[n + 1]);
    assert WentBack(cfg, u[n + 1], backs[n], u[n]);
    OneBack(cfg, f[n], steps[n], f[n + 1], u[n + 1], backs[n], u[n]);
    WentBackKeepsTokens(cfg, u[n + 1], backs[n], u[n]);
    HoldsOn(f, steps, n, u[n + 1], u[n], Some(backs[n].x.q.id));
  }

  lemma {:induction false} UnwoundTo(cfg: Config, f: seq<World>, u: seq<World>, steps: seq<Step>, backs: seq<Back>, n: nat)
    requires Forward(cfg, f, steps) && Backward(cfg, u, steps, backs) && Sane(f[0].server)
    requires n <= |steps| && u[|steps|] == f[|steps|]
    ensures Alike(u[n].server, f[n].server) && Holds(f, steps, n, u[n])
    decreases |steps| - n
  {
    if n == |steps| {
      WritesHold(cfg, f, steps, n);
    } else {
      UnwoundTo(cfg, f, u, steps, backs, n + 1);
      OneStepBack(cfg, f, u, steps, backs, n);
    }
  }

  /** Any number of governed writes, each meeting the condition of its inverse and leaving a
      token, then undone last to first by `undo_apply`: if every inverse is dispatched, and
      reports success or is reached on a link that lives, the server is as it was at the start,
      however budget, patterns, audit log and the tokens recorded by the undos moved on. */
  lemma GovernedStackUndone(cfg: Config, f: seq<World>, u: seq<World>, steps: seq<Step>, backs: seq<Back>)
    requires Forward(cfg, f, steps) && Backward(cfg, u, steps, backs)
    requires Sane(f[0].server) && u[|steps|] == f[|steps|]
    ensures Alike(u[0].server, f[0].server)
  {
    UnwoundTo(cfg, f, u, steps, backs, 0);
  }
}
