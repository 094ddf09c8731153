/**
 The loop closed: a governed write on a server, its recorded token, and `undo_apply`
 dispatching the inverse through the same governance.

 Everything the other modules prove separately meets here: the wrapper, the error
 flattening, the token's trip through the store, the dispatch with its own wrapper, and the
 server. Budget stops, audit failures and dead links may happen at every step.
 */
module ClosedLoop {
  import opened Common
  import opened Json
  import opened AuditLog
  import opened Outcome
  import opened Server
  import opened IndexDef
  import opened Remediation
  import opened UndoStack
  import Reversal
  import opened UndoTokens
  import opened UndoExecutor
  import opened Governed
  import opened Harness
  import Budget
  import Previews
  import Sanitize

  datatype World = World(gov: Gov, server: Server)

  // How the link treats the call's read and its statement.
  datatype Link = Link(q: Fault, f: Fault)

  // ── a governed write ────────────────────────────────────────────────────

  function BodyOf(r: Reply): Body {
    Body(Returned(ToolErrors(DictShape, r)), None)
  }

  function ToolCall(cfg: Config, w: World, c: Governed.Call, link: Link, env: Env): (World, Governed.Record) {
    if !Reached(cfg, w.gov, c, env) then
      var (g, r) := Govern(cfg, w.gov, c, FINISHED, env);
      (World(g, w.server), r)
    else
      var (s, reply) := RunTool(w.server, c.tool, c.params, c.dryRun, link.q, link.f);
      var (g, r) := Govern(cfg, w.gov, c, BodyOf(reply), env);
      (World(g, s), r)
  }

  // The tool's own errors, none of which is without words.
  predicate Ours(r: Reply) {
    r.Raised? ==> r.e == REFUSED || r.e == PG_ERROR || r.e == LOST
  }

  lemma SpokenIsNotWordless(e: Exn)
    requires e.text != "" && Sanitize.IsPlain(e.text[0])
    ensures !Wordless(e)
  {
    assert Sanitize.Strip(e.text) != "";
  }

  lemma OursIsNotWordless(r: Reply)
    requires Ours(r)
    ensures r.Raised? ==> !Wordless(r.e)
  {
    if r.Raised? {
      SpokenIsNotWordless(r.e);
    }
  }

  lemma CreateErrorsAreOurs(s: Server, params: Value, dryRun: bool, f: Fault)
    ensures Ours(CreateIndexTool(s, params, dryRun, f).1)
  {
  }

  lemma DropErrorsAreOurs(s: Server, params: Value, dryRun: bool, q: Fault, f: Fault)
    ensures Ours(DropIndexTool(s, params, dryRun, q, f).1)
  {
  }

  lemma SettingErrorsAreOurs(s: Server, params: Value, dryRun: bool, q: Fault, f: Fault)
    ensures Ours(UpdateSettingTool(s, params, dryRun, q, f).1)
  {
  }

  lemma ToolErrorsAreOurs(s: Server, tool: Tool, params: Value, dryRun: bool, q: Fault, f: Fault)
    ensures Ours(RunTool(s, tool, params, dryRun, q, f).1)
  {
    match tool
    case CreateTool => CreateErrorsAreOurs(s, params, dryRun, f);
    case DropTool => DropErrorsAreOurs(s, params, dryRun, q, f);
    case SettingTool => SettingErrorsAreOurs(s, params, dryRun, q, f);
    case Named(_) =>
  }

  lemma CreateRan(s: Server, params: Value, f: Fault)
    requires CreateIndexTool(s, params, false, f).1.Returned?
    ensures f == Runs
  {
  }

  lemma DropRan(s: Server, params: Value, q: Fault, f: Fault)
    requires DropIndexTool(s, params, false, q, f).1.Returned?
    ensures q == Runs && f == Runs
  {
  }

  lemma SettingRan(s: Server, params: Value, q: Fault, f: Fault)
    requires UpdateSettingTool(s, params, false, q, f).1.Returned?
    ensures q == Runs && f == Runs
  {
  }

  // A tool that returns ran undisturbed.
  lemma ReturnedMeansRan(s: Server, tool: Tool, params: Value, q: Fault, f: Fault)
    requires RunTool(s, tool, params, false, q, f).1.Returned?
    ensures RunTool(s, tool, params, false, q, f) == Apply(s, tool, params)
  {
    match tool
    case CreateTool => CreateRan(s, params, f);
    case DropTool => DropRan(s, params, q, f);
    case SettingTool => SettingRan(s, params, q, f);
    case Named(_) =>
  }

  // A flattened failure is not taken for a result.
  lemma FailureIsNotDetermined(r: Reply)
    requires Ours(r) && Determined(ToolErrors(DictShape, r))
    ensures r.Returned?
  {
    if r.Raised? {
      OursIsNotWordless(r);
      PayloadFields(r.e);
      MarkedIsUnknown(Payload(r.e), "error");
    }
  }

  // A token that appears under the call's fresh identifier is the one the call recorded.
  lemma NewTokenIsJustified(cfg: Config, g: Gov, x: Item)
    requires GetToken(g.tokens, x.env.tokenId).None?
    requires GetToken(Govern(cfg, g, x.c, x.body, x.env).0.tokens, x.env.tokenId).Some?
    ensures var tok := GetToken(Govern(cfg, g, x.c, x.body, x.env).0.tokens, x.env.tokenId).value;
            Justified(tok, x) && tok.status == Recorded
  {
    var before, after := g.tokens, Govern(cfg, g, x.c, x.body, x.env).0.tokens;
    TokensAreSound(cfg, g, x);
    FindAppended(before.rows, after.rows[|before.rows|], x.env.tokenId);
  }

  lemma UnreachedRecordsNothing(cfg: Config, g: Gov, c: Governed.Call, body: Body, env: Env)
    requires !Reached(cfg, g, c, env)
    ensures Govern(cfg, g, c, body, env).0.tokens == g.tokens
  {
    OpenKeepsRest(cfg, g, c, env);
  }

  /** A token under the call's fresh identifier means the write ran and returned, undisturbed,
      and the token holds the inverse of exactly that result. */
  lemma TokenTellsTheInverse(cfg: Config, w: World, c: Governed.Call, link: Link, env: Env)
    requires c.declared == Inverse(c.tool) && GetToken(w.gov.tokens, env.tokenId).None?
    requires GetToken(ToolCall(cfg, w, c, link, env).0.gov.tokens, env.tokenId).Some?
    ensures var w1 := ToolCall(cfg, w, c, link, env).0;
            var tok := GetToken(w1.gov.tokens, env.tokenId).value;
            var (s, r) := Apply(w.server, c.tool, c.params);
            && w1.server == s && r.Returned? && tok.status == Recorded
            && var d := UndoOf(c.tool, c.params, r);
            d.Some? && tok.inverse == d.value.tool && tok.params == Holds(Reload(d.value.params))
  {
    var w1 := ToolCall(cfg, w, c, link, env).0;
    var reply := RunTool(w.server, c.tool, c.params, c.dryRun, link.q, link.f).1;
    TokenMeansReached(cfg, w, c, link, env);
    NewTokenIsJustified(cfg, w.gov, Item(c, BodyOf(reply), env));
    JustifiedMeansReturned(w.server, c, link, env, GetToken(w1.gov.tokens, env.tokenId).value);
  }

  lemma TokenMeansReached(cfg: Config, w: World, c: Governed.Call, link: Link, env: Env)
    requires GetToken(w.gov.tokens, env.tokenId).None?
    requires GetToken(ToolCall(cfg, w, c, link, env).0.gov.tokens, env.tokenId).Some?
    ensures var (s, reply) := RunTool(w.server, c.tool, c.params, c.dryRun, link.q, link.f);
            ToolCall(cfg, w, c, link, env).0 == World(Govern(cfg, w.gov, c, BodyOf(reply), env).0, s)
  {
    if !Reached(cfg, w.gov, c, env) {
      UnreachedRecordsNothing(cfg, w.gov, c, FINISHED, env);
    }
  }

  lemma JustifiedMeansReturned(s: Server, c: Governed.Call, link: Link, env: Env, tok: Token)
    requires Justified(tok, Item(c, BodyOf(RunTool(s, c.tool, c.params, c.dryRun, link.q, link.f).1), env))
    ensures !c.dryRun && tok.verified
    ensures RunTool(s, c.tool, c.params, c.dryRun, link.q, link.f) == Apply(s, c.tool, c.params)
    ensures Apply(s, c.tool, c.params).1.Returned?
    ensures var d := Describe(c.declared, c.params, Apply(s, c.tool, c.params).1.v);
            d.Some? && tok.inverse == d.value.tool && tok.params == Holds(Reload(d.value.params))
  {
    var reply := RunTool(s, c.tool, c.params, c.dryRun, link.q, link.f).1;
    ToolErrorsAreOurs(s, c.tool, c.params, c.dryRun, link.q, link.f);
    FailureIsNotDetermined(reply);
    ReturnedMeansRan(s, c.tool, c.params, link.q, link.f);
  }

  // ── outcomes, end to end ────────────────────────────────────────────────

  lemma {:induction false} NoSuchKey(es: seq<Entry>, key: string)
    requires forall i :: 0 <= i < |es| ==> es[i].key != key
    ensures Lookup(es, key).None?
  {
    if es != [] {
      NoSuchKey(es[1..], key);
    }
  }

  predicate NoOutcomeKeys(v: Value) {
    v.Dict? && forall i :: 0 <= i < |v.entries| ==> v.entries[i].key != "error" && v.entries[i].key != "outcomeUnknown"
  }

  lemma KeylessIsClean(v: Value)
    requires NoOutcomeKeys(v)
    ensures CleanResult(v)
  {
    NoSuchKey(v.entries, "error");
    NoSuchKey(v.entries, "outcomeUnknown");
  }

  lemma CreatedIsKeyless(name: string, table: string, columns: seq<string>, concurrently: bool)
    ensures NoOutcomeKeys(CreatedResult(name, table, columns, concurrently)) && NoOutcomeKeys(ReplayedResult(name))
  {
  }

  lemma UpdatedIsKeyless(name: string, value: Option<string>, r: Option<Setting>)
    ensures NoOutcomeKeys(UpdatedResult(name, value, r))
  {
  }

  lemma PreviewedIsKeyless()
    ensures NoOutcomeKeys(Dict([Entry("dryRun", Bool(true))]))
  {
  }

  lemma CreateResultsAreKeyless(s: Server, params: Value, dryRun: bool, f: Fault)
    ensures var r := CreateIndexTool(s, params, dryRun, f).1; r.Returned? ==> NoOutcomeKeys(r.v)
  {
    PreviewedIsKeyless();
    var definition, table, cols := OptStr(params, "definition"), OptStr(params, "table"), NonBlank(Columns(params));
    if definition.Some? && Gate(definition.value).Pass? {
      CreatedIsKeyless(Gate(definition.value).index, "", [], false);
    }
    if table.Some? {
      CreatedIsKeyless(IndexName(table.value, cols, OptStr(params, "name")), table.value, cols,
                       Truthy(Get(params, "concurrently")));
    }
  }

  lemma DropResultsAreKeyless(s: Server, params: Value, dryRun: bool, q: Fault, f: Fault)
    ensures var r := DropIndexTool(s, params, dryRun, q, f).1; r.Returned? ==> NoOutcomeKeys(r.v)
  {
  }

  lemma SettingResultsAreKeyless(s: Server, params: Value, dryRun: bool, q: Fault, f: Fault)
    ensures var r := UpdateSettingTool(s, params, dryRun, q, f).1; r.Returned? ==> NoOutcomeKeys(r.v)
  {
    PreviewedIsKeyless();
    var name := Text(Get(params, "name"));
    UpdatedIsKeyless(name, if Truthy(Get(params, "reset")) then None else OptStr(params, "value"), PriorRow(s, name));
  }

  lemma ToolResultsAreKeyless(s: Server, tool: Tool, params: Value, dryRun: bool, q: Fault, f: Fault)
    ensures var r := RunTool(s, tool, params, dryRun, q, f).1; r.Returned? ==> NoOutcomeKeys(r.v)
  {
    match tool
    case CreateTool => CreateResultsAreKeyless(s, params, dryRun, f);
    case DropTool => DropResultsAreKeyless(s, params, dryRun, q, f);
    case SettingTool => SettingResultsAreKeyless(s, params, dryRun, q, f);
    case Named(_) =>
  }

  lemma KeylessReplyIsClean(r: Reply)
    requires r.Returned? ==> NoOutcomeKeys(r.v)
    ensures r.Returned? ==> CleanResult(r.v)
  {
    if r.Returned? {
      KeylessIsClean(r.v);
    }
  }

  // Audit row and exit code say of a reply what they should.
  predicate ToldRightly(cfg: Config, g: Gov, c: Governed.Call, reply: Reply, env: Env) {
    var out := ReplyOf(Govern(cfg, g, c, BodyOf(reply), env).1);
    && FinalOf(Told(cfg, g, c, BodyOf(reply), env)) == Verdict(reply)
    && (out.Returned? ==> Checked(out.v) == ExitFor(Verdict(reply)))
  }

  lemma OursAreToldRightly(cfg: Config, g: Gov, c: Governed.Call, reply: Reply, env: Env)
    requires Reached(cfg, g, c, env) && Ours(reply) && (reply.Returned? ==> NoOutcomeKeys(reply.v))
    ensures ToldRightly(cfg, g, c, reply, env)
  {
    KeylessReplyIsClean(reply);
    OursIsNotWordless(reply);
    DictShapeClassifiesIff(reply);
    StatusIsOfTheResult(cfg, g, c, ToolErrors(DictShape, reply), None, env);
  }

  lemma OpRepliesAreOurs(s: Server, op: Previews.Op, dryRun: bool, w: Previews.Wire)
    ensures var r := Previews.RunOp(s, op, dryRun, w).1; Ours(r) && (r.Returned? ==> NoOutcomeKeys(r.v))
  {
    if op.Guarded? {
      ToolErrorsAreOurs(s, op.tool, op.params, dryRun, w.q, w.f);
      ToolResultsAreKeyless(s, op.tool, op.params, dryRun, w.q, w.f);
    } else {
      PreviewedIsKeyless();
    }
  }

  /** From the link to the exit code, for each of the nine guarded tools: whatever the wrapper
      adds on the way, the row and the exit code give the verdict on the body's own reply: a
      lost response `unknown` and 2, any other failure `error` and 1, a success `ok` and 0. */
  lemma OutcomesAgreeEndToEnd(cfg: Config, g: Gov, s: Server, c: Governed.Call, op: Previews.Op, w: Previews.Wire, env: Env)
    requires Reached(cfg, g, c, env)
    ensures ToldRightly(cfg, g, c, Previews.RunOp(s, op, c.dryRun, w).1, env)
  {
    OpRepliesAreOurs(s, op, c.dryRun, w);
    OursAreToldRightly(cfg, g, c, Previews.RunOp(s, op, c.dryRun, w).1, env);
  }

  /** A governed preview leaves the server and the tokens as they are. */
  lemma GovernedPreviewChangesNothing(cfg: Config, w: World, c: Governed.Call, link: Link, env: Env)
    requires c.dryRun
    ensures var w1 := ToolCall(cfg, w, c, link, env).0; w1.server == w.server && w1.gov.tokens == w.gov.tokens
  {
    ToolSendsOneStatement(w.server, c.tool, c.params, true, link.q, link.f);
    var reply := RunTool(w.server, c.tool, c.params, true, link.q, link.f).1;
    TokensAreSound(cfg, w.gov, Item(c, BodyOf(reply), env));
    TokensAreSound(cfg, w.gov, Item(c, FINISHED, env));
  }

  // ── undo_apply ──────────────────────────────────────────────────────────

  // One call of undo_apply: its own governed call, the request, and what happens inside.
  // `risk`, `fp` and `innerNo` belong to the dispatched call.
  datatype Replay = Replay(
    c: Governed.Call,
    q: Request,
    env: Env,
    innerNo: nat,
    risk: string,
    fp: string,
    innerEnv: Env,
    link: Link,
    markFails: bool
  )

  // The dispatched tool's own call.
  function InnerCall(x: Replay, tool: Tool, params: Value): Governed.Call {
    Governed.Call(x.innerNo, tool, "", params, x.risk, match Get(params, "target") case Str(t) => t case _ => "",
                  Truthy(Get(params, "dry_run")), Inverse(tool), x.fp)
  }

  // The body of undo_apply on the world its own opening left.
  function ApplyBody(cfg: Config, w: World, x: Replay): (World, Reply) {
    match Plan(w.gov.tokens, x.q)
    case Refuse(e) => (w, Raised(e))
    case Preview(v) => (w, Returned(v))
    case Dispatch(tool, params) =>
      var (w1, r1) := ToolCall(cfg, w, InnerCall(x, tool, params), x.link, x.innerEnv);
      var (ts, reply) := Settle(w1.gov.tokens, x.q, GetToken(w.gov.tokens, x.q.id).value.verified, ReplyOf(r1), x.markFails);
      (w1.(gov := w1.gov.(tokens := ts)), reply)
  }

  function UndoApply(cfg: Config, w: World, x: Replay): (World, Governed.Record) {
    var (g1, r1) := Open(cfg, w.gov, x.c, x.env);
    if r1.raised.Some? then
      var (g, r) := Close(cfg, g1, x.c, r1, FINISHED, x.env);
      (World(g, w.server), r)
    else
      var (w2, reply) := ApplyBody(cfg, w.(gov := g1), x);
      var (g, r) := Close(cfg, w2.gov, x.c, r1, BodyOf(reply), x.env);
      (World(g, w2.server), r)
  }

  // ── the arguments of the dispatch ───────────────────────────────────────

  ghost predicate SameArgs(p: Value, p': Value) {
    forall key :: key != "target" ==> Get(p, key) == Get(p', key)
  }

  lemma SameCreateArgs(p: Value, p': Value)
    requires SameArgs(p, p')
    ensures OptStr(p, "definition") == OptStr(p', "definition") && OptStr(p, "table") == OptStr(p', "table")
    ensures Columns(p) == Columns(p') && OptStr(p, "name") == OptStr(p', "name")
    ensures OptStr(p, "method") == OptStr(p', "method")
    ensures Get(p, "unique") == Get(p', "unique") && Get(p, "concurrently") == Get(p', "concurrently")
  {
  }

  lemma SameCreate(s: Server, p: Value, p': Value)
    requires SameArgs(p, p')
    ensures CreateIndexTool(s, p, false, Runs) == CreateIndexTool(s, p', false, Runs)
  {
    SameCreateArgs(p, p');
  }

  lemma SameDrop(s: Server, p: Value, p': Value)
    requires SameArgs(p, p')
    ensures DropIndexTool(s, p, false, Runs, Runs) == DropIndexTool(s, p', false, Runs, Runs)
  {
    assert Get(p, "name") == Get(p', "name") && Get(p, "concurrently") == Get(p', "concurrently");
  }

  lemma SameSetting(s: Server, p: Value, p': Value)
    requires SameArgs(p, p')
    ensures UpdateSettingTool(s, p, false, Runs, Runs) == UpdateSettingTool(s, p', false, Runs, Runs)
  {
    assert Get(p, "name") == Get(p', "name") && Get(p, "value") == Get(p', "value");
    assert Get(p, "reset") == Get(p', "reset");
  }

  lemma SameApply(s: Server, tool: Tool, p: Value, p': Value)
    requires SameArgs(p, p')
    ensures Apply(s, tool, p) == Apply(s, tool, p')
  {
    match tool
    case CreateTool => SameCreate(s, p, p');
    case DropTool => SameDrop(s, p, p');
    case SettingTool => SameSetting(s, p, p');
    case Named(_) =>
  }

  predicate Flat(es: seq<Entry>) {
    forall i :: 0 <= i < |es| ==> es[i].value.Str? || es[i].value.Bool?
  }

  lemma {:induction false} FlatReloads(es: seq<Entry>)
    requires Flat(es)
    ensures ReloadEntries(es) == es
  {
    if es != [] {
      FlatReloads(es[1..]);
      assert Reload(es[0].value) == es[0].value;
      assert es == [es[0]] + es[1..];
    }
  }

  // The inverses the three tools record.
  ghost predicate Proper(d: Descriptor) {
    || (exists n: string :: d == DropDescriptor(Str(n)))
    || (exists def: string :: d == ReplayDescriptor(Str(def)))
    || (exists n: string :: d == ResetDescriptor(Str(n)))
    || (exists n: string, v: string :: d == SetDescriptor(Str(n), Str(v)))
  }

  // They are flat dicts of strings and flags, so they survive the JSON columns, and real calls.
  lemma ProperIsFlat(d: Descriptor)
    requires Proper(d)
    ensures d.params.Dict? && Flat(d.params.entries) && !d.tool.Named? && Get(d.params, "dry_run") == Null
  {
    var es := d.params.entries;
    assert Lookup(es, "dry_run") == Lookup(es[1..], "dry_run");
    if |es| == 2 {
      assert Lookup(es[1..], "dry_run") == Lookup(es[1..][1..], "dry_run");
    }
  }

  lemma DropInverseIsProper(s: Server, params: Value)
    requires DropIndexTool(s, params, false, Runs, Runs).1.Returned?
    ensures var d := DropUndo(DropIndexTool(s, params, false, Runs, Runs).1.v); d.Some? ==> Proper(d.value)
  {
    var name := Get(params, "name").s;
    var k := Captured(s, name).value;
    assert IsIndex(s, k);
    assert DropIndexTool(s, params, false, Runs, Runs).1.v == DroppedResult(name, PrintDef(s, k));
    Reversal.DroppedInverse(name, PrintDef(s, k));
  }

  lemma SettingInverseIsProper(s: Server, params: Value)
    requires UpdateSettingTool(s, params, false, Runs, Runs).1.Returned?
    ensures var d := SettingUndo(params, UpdateSettingTool(s, params, false, Runs, Runs).1.v); d.Some? ==> Proper(d.value)
  {
    var name := Get(params, "name").s;
    var value := if Truthy(Get(params, "reset")) then None else OptStr(params, "value");
    assert UpdateSettingTool(s, params, false, Runs, Runs).1.v == UpdatedResult(name, value, PriorRow(s, name));
    Reversal.SettingInverseIs(params, name, value, PriorRow(s, name));
  }

  lemma InverseIsProper(s: Server, tool: Tool, params: Value)
    requires Apply(s, tool, params).1.Returned? && UndoOf(tool, params, Apply(s, tool, params).1).Some?
    ensures Proper(UndoOf(tool, params, Apply(s, tool, params).1).value)
  {
    match tool
    case CreateTool => Reversal.ReportedNames(s, params);
    case DropTool => DropInverseIsProper(s, params);
    case SettingTool => SettingInverseIsProper(s, params);
  }

  // The keyword arguments differ from the recorded ones in the target at most.
  lemma CallParamsKeepArgs(es: seq<Entry>, target: Option<string>, tok: Token)
    ensures SameArgs(Dict(CallParams(es, target, tok)), Dict(es))
  {
    var out := CallParams(es, target, tok);
    forall key | key != "target" ensures Get(Dict(out), key) == Get(Dict(es), key) {
      if out != es {
        LookupAppend(es, [out[|es|]], key);
      }
    }
  }

  // ── the replay restores ─────────────────────────────────────────────────

  lemma FailureIsFailed(r: Reply)
    requires Ours(r) && r.Raised?
    ensures IsFailure(ToolErrors(DictShape, r))
  {
    OursIsNotWordless(r);
    PayloadFields(r.e);
    MarkedIsUnknown(Payload(r.e), "error");
  }

  // A real call whose reply is no failure ran on the server, undisturbed.
  lemma WentThroughMeansRan(cfg: Config, w: World, c: Governed.Call, link: Link, env: Env)
    requires !c.dryRun && WentThrough(ReplyOf(ToolCall(cfg, w, c, link, env).1))
    ensures ToolCall(cfg, w, c, link, env).0.server == Apply(w.server, c.tool, c.params).0
  {
    OnlyReachedReturns(cfg, w, c, link, env);
    var reply := RunTool(w.server, c.tool, c.params, false, link.q, link.f).1;
    StatusIsOfTheResult(cfg, w.gov, c, ToolErrors(DictShape, reply), None, env);
    ToolErrorsAreOurs(w.server, c.tool, c.params, false, link.q, link.f);
    if reply.Raised? {
      FailureIsFailed(reply);
    }
    ReturnedMeansRan(w.server, c.tool, c.params, link.q, link.f);
  }

  lemma OnlyReachedReturns(cfg: Config, w: World, c: Governed.Call, link: Link, env: Env)
    ensures ReplyOf(ToolCall(cfg, w, c, link, env).1).Returned? ==> Reached(cfg, w.gov, c, env)
  {
    if !Reached(cfg, w.gov, c, env) {
      UnreachedRaises(cfg, w.gov, c, FINISHED, env);
    }
  }

  // The world as undo_apply's body finds it.
  function Inside(cfg: Config, w: World, x: Replay): World {
    w.(gov := Open(cfg, w.gov, x.c, x.env).0)
  }

  // The inverse is dispatched, and its reply.
  predicate Dispatches(cfg: Config, w: World, x: Replay) {
    Reached(cfg, w.gov, x.c, x.env) && Plan(Inside(cfg, w, x).gov.tokens, x.q).Dispatch?
  }

  function Inner(cfg: Config, w: World, x: Replay): (World, Governed.Record)
    requires Dispatches(cfg, w, x)
  {
    var plan := Plan(Inside(cfg, w, x).gov.tokens, x.q);
    ToolCall(cfg, Inside(cfg, w, x), InnerCall(x, plan.tool, plan.params), x.link, x.innerEnv)
  }

  lemma ServerAfterApply(cfg: Config, w: World, x: Replay)
    ensures UndoApply(cfg, w, x).0.server == if Dispatches(cfg, w, x) then Inner(cfg, w, x).0.server else w.server
  {
  }

  // What a token dispatches, once it has come back from the store.
  lemma PlanOfToken(cfg: Config, w: World, x: Replay, d: Descriptor, tok: Token)
    requires Proper(d) && GetToken(w.gov.tokens, x.q.id) == Some(tok)
    requires tok.inverse == d.tool && tok.params == Holds(Reload(d.params))
    requires Dispatches(cfg, w, x)
    ensures var plan := Plan(Inside(cfg, w, x).gov.tokens, x.q);
            && plan.tool == d.tool && SameArgs(plan.params, d.params)
            && !InnerCall(x, plan.tool, plan.params).dryRun
  {
    OpenKeepsRest(cfg, w.gov, x.c, x.env);
    ProperIsFlat(d);
    FlatReloads(d.params.entries);
    CallParamsKeepArgs(d.params.entries, x.q.target, tok);
    var plan := Plan(Inside(cfg, w, x).gov.tokens, x.q);
    assert Get(plan.params, "dry_run") == Get(d.params, "dry_run");
  }

  lemma DispatchedInverseRuns(cfg: Config, w: World, x: Replay, d: Descriptor, tok: Token)
    requires Proper(d) && GetToken(w.gov.tokens, x.q.id) == Some(tok)
    requires tok.inverse == d.tool && tok.params == Holds(Reload(d.params))
    requires Dispatches(cfg, w, x) && WentThrough(ReplyOf(Inner(cfg, w, x).1))
    ensures UndoApply(cfg, w, x).0.server == Apply(w.server, d.tool, d.params).0
  {
    PlanOfToken(cfg, w, x, d, tok);
    var plan := Plan(Inside(cfg, w, x).gov.tokens, x.q);
    ServerAfterApply(cfg, w, x);
    WentThroughMeansRan(cfg, Inside(cfg, w, x), InnerCall(x, plan.tool, plan.params), x.link, x.innerEnv);
    SameApply(w.server, d.tool, plan.params, d.params);
  }

  /** The closed loop. Take a governed write that leaves a token and meets the condition of
      its inverse. Later, with nothing changed on the server in between but its settings view,
      and whatever happened to budget, audit and other tokens, `undo_apply` on that token
      either dispatches nothing and leaves the server alone, or dispatches the inverse; and if
      the inverse goes through, the server is as it was before the write. */
  lemma ReplayRestores(cfg: Config, w0: World, c: Governed.Call, link: Link, env: Env, w: World, x: Replay)
    requires c.declared == Inverse(c.tool) && GetToken(w0.gov.tokens, env.tokenId).None?
    requires Sane(w0.server) && Undoable(w0.server, c.tool, c.params)
    requires var w1 := ToolCall(cfg, w0, c, link, env).0;
             && GetToken(w1.gov.tokens, env.tokenId).Some? && Alike(w.server, w1.server)
             && GetToken(w.gov.tokens, env.tokenId) == GetToken(w1.gov.tokens, env.tokenId)
    requires x.q.id == env.tokenId
    ensures !Dispatches(cfg, w, x) ==> UndoApply(cfg, w, x).0.server == w.server
    ensures Dispatches(cfg, w, x) && WentThrough(ReplyOf(Inner(cfg, w, x).1)) ==>
              Alike(UndoApply(cfg, w, x).0.server, w0.server)
  {
    ServerAfterApply(cfg, w, x);
    if Dispatches(cfg, w, x) && WentThrough(ReplyOf(Inner(cfg, w, x).1)) {
      TokenTellsTheInverse(cfg, w0, c, link, env);
      var tok := GetToken(w.gov.tokens, env.tokenId).value;
      var (after, r) := Apply(w0.server, c.tool, c.params);
      var d := UndoOf(c.tool, c.params, r).value;
      InverseIsProper(w0.server, c.tool, c.params);
      DispatchedInverseRuns(cfg, w, x, d, tok);
      StepUndone(w0.server, c.tool, c.params);
      ApplyAlike(w.server, after, d.tool, d.params);
      AlikeIsTransitive(Apply(w.server, d.tool, d.params).0, Apply(after, d.tool, d.params).0, w0.server);
    }
  }

  // A call that is reached on a healthy link, and whose tool returns, is told as a success
  // unless its audit row cannot be settled.
  lemma ReturnedIsTold(cfg: Config, w: World, c: Governed.Call, env: Env)
    requires !c.dryRun && Reached(cfg, w.gov, c, env) && Apply(w.server, c.tool, c.params).1.Returned?
    ensures var (w', r) := ToolCall(cfg, w, c, HEALTHY, env);
            && w'.server == Apply(w.server, c.tool, c.params).0
            && if ReplyOf(r).Raised? then ReplyOf(r).e == UNAVAILABLE else WentThrough(ReplyOf(r))
  {
    var reply := Apply(w.server, c.tool, c.params).1;
    ToolResultsAreKeyless(w.server, c.tool, c.params, false, Runs, Runs);
    KeylessReplyIsClean(reply);
    StatusIsOfTheResult(cfg, w.gov, c, reply.v, None, env);
  }

  const HEALTHY: Link := Link(Runs, Runs)

  lemma DispatchedInverseIsTold(cfg: Config, w: World, x: Replay, d: Descriptor, tok: Token)
    requires Proper(d) && GetToken(w.gov.tokens, x.q.id) == Some(tok)
    requires tok.inverse == d.tool && tok.params == Holds(Reload(d.params))
    requires Dispatches(cfg, w, x) && x.link == HEALTHY
    requires Reached(cfg, Inside(cfg, w, x).gov, DispatchedCall(cfg, w, x), x.innerEnv)
    requires Apply(w.server, d.tool, d.params).1.Returned?
    ensures var (w', r) := Inner(cfg, w, x);
            && w'.server == Apply(w.server, d.tool, d.params).0
            && if ReplyOf(r).Raised? then ReplyOf(r).e == UNAVAILABLE else WentThrough(ReplyOf(r))
  {
    PlanOfToken(cfg, w, x, d, tok);
    var plan := Plan(Inside(cfg, w, x).gov.tokens, x.q);
    SameApply(w.server, d.tool, plan.params, d.params);
    ReturnedIsTold(cfg, Inside(cfg, w, x), DispatchedCall(cfg, w, x), x.innerEnv);
  }

  /** And the inverse does go through: once it is dispatched and reached, on a link that lives,
      nothing about the server can make it fail. The server is as it was before the write, and
      the reply says so, unless the audit log cannot settle the row. */
  lemma ReplayGoesThrough(cfg: Config, w0: World, c: Governed.Call, link: Link, env: Env, w: World, x: Replay)
    requires c.declared == Inverse(c.tool) && GetToken(w0.gov.tokens, env.tokenId).None?
    requires Sane(w0.server) && Undoable(w0.server, c.tool, c.params)
    requires var w1 := ToolCall(cfg, w0, c, link, env).0;
             && GetToken(w1.gov.tokens, env.tokenId).Some? && Alike(w.server, w1.server)
             && GetToken(w.gov.tokens, env.tokenId) == GetToken(w1.gov.tokens, env.tokenId)
    requires x.q.id == env.tokenId && Dispatches(cfg, w, x) && x.link == HEALTHY
    requires Reached(cfg, Inside(cfg, w, x).gov, DispatchedCall(cfg, w, x), x.innerEnv)
    ensures var (w', r) := Inner(cfg, w, x);
            && Alike(w'.server, w0.server)
            && if ReplyOf(r).Raised? then ReplyOf(r).e == UNAVAILABLE else WentThrough(ReplyOf(r))
  {
    TokenTellsTheInverse(cfg, w0, c, link, env);
    var tok := GetToken(w.gov.tokens, env.tokenId).value;
    var (after, r) := Apply(w0.server, c.tool, c.params);
    var d := UndoOf(c.tool, c.params, r).value;
    InverseIsProper(w0.server, c.tool, c.params);
    StepUndone(w0.server, c.tool, c.params);
    ApplyAlike(w.server, after, d.tool, d.params);
    AlikeIsTransitive(Apply(w.server, d.tool, d.params).0, Apply(after, d.tool, d.params).0, w0.server);
    DispatchedInverseIsTold(cfg, w, x, d, tok);
  }

  // The dispatched inverse reported success, or was reached on a link that lives.
  predicate Takes(cfg: Config, w: World, x: Replay)
    requires Dispatches(cfg, w, x)
  {
    || WentThrough(ReplyOf(Inner(cfg, w, x).1))
    || (x.link == HEALTHY && Reached(cfg, Inside(cfg, w, x).gov, DispatchedCall(cfg, w, x), x.innerEnv))
  }

  lemma DispatchRestores(cfg: Config, w0: World, c: Governed.Call, link: Link, env: Env, w: World, x: Replay)
    requires c.declared == Inverse(c.tool) && GetToken(w0.gov.tokens, env.tokenId).None?
    requires Sane(w0.server) && Undoable(w0.server, c.tool, c.params)
    requires var w1 := ToolCall(cfg, w0, c, link, env).0;
             && GetToken(w1.gov.tokens, env.tokenId).Some? && Alike(w.server, w1.server)
             && GetToken(w.gov.tokens, env.tokenId) == GetToken(w1.gov.tokens, env.tokenId)
    requires x.q.id == env.tokenId && Dispatches(cfg, w, x) && Takes(cfg, w, x)
    ensures Alike(UndoApply(cfg, w, x).0.server, w0.server)
  {
    if WentThrough(ReplyOf(Inner(cfg, w, x).1)) {
      ReplayRestores(cfg, w0, c, link, env, w, x);
    } else {
      ReplayGoesThrough(cfg, w0, c, link, env, w, x);
      ServerAfterApply(cfg, w, x);
    }
  }

  // ── tokens, blocking and rows through the whole call ────────────────────

  lemma CloseKeepsTokens(cfg: Config, g: Gov, c: Governed.Call, r: Governed.Record, body: Body, env: Env)
    requires c.declared == NoUndo
    ensures Close(cfg, g, c, r, body, env).0.tokens == g.tokens
  {
  }

  lemma GovernKeepsToken(cfg: Config, g: Gov, y: Item, id: string)
    requires GetToken(g.tokens, id).Some?
    ensures GetToken(Govern(cfg, g, y.c, y.body, y.env).0.tokens, id) == GetToken(g.tokens, id)
  {
    TokensAreSound(cfg, g, y);
    var before, after := g.tokens, Govern(cfg, g, y.c, y.body, y.env).0.tokens;
    if after != before {
      FindAppended(before.rows, after.rows[|before.rows|], id);
    }
  }

  lemma ToolCallKeepsToken(cfg: Config, w: World, c: Governed.Call, link: Link, env: Env, id: string)
    requires GetToken(w.gov.tokens, id).Some?
    ensures GetToken(ToolCall(cfg, w, c, link, env).0.gov.tokens, id) == GetToken(w.gov.tokens, id)
  {
    var reply := RunTool(w.server, c.tool, c.params, c.dryRun, link.q, link.f).1;
    GovernKeepsToken(cfg, w.gov, Item(c, BodyOf(reply), env), id);
    GovernKeepsToken(cfg, w.gov, Item(c, FINISHED, env), id);
  }

  lemma TokensAfterApply(cfg: Config, w: World, x: Replay)
    requires x.c.declared == NoUndo
    ensures UndoApply(cfg, w, x).0.gov.tokens ==
            if Dispatches(cfg, w, x) then
              Settle(Inner(cfg, w, x).0.gov.tokens, x.q,
                     GetToken(Inside(cfg, w, x).gov.tokens, x.q.id).value.verified,
                     ReplyOf(Inner(cfg, w, x).1), x.markFails).0
            else w.gov.tokens
  {
    OpenKeepsRest(cfg, w.gov, x.c, x.env);
    var (g1, r1) := Open(cfg, w.gov, x.c, x.env);
    if r1.raised.Some? {
      CloseKeepsTokens(cfg, g1, x.c, r1, FINISHED, x.env);
    } else {
      var (w2, reply) := ApplyBody(cfg, w.(gov := g1), x);
      CloseKeepsTokens(cfg, w2.gov, x.c, r1, BodyOf(reply), x.env);
    }
  }

  /** Through the whole of `undo_apply`, a recorded token ends up applied if and only if its
      inverse was dispatched, went through, and could be marked. */
  lemma AppliedIff(cfg: Config, w: World, x: Replay)
    requires x.c.declared == NoUndo && w.gov.tokens.ok
    requires GetToken(w.gov.tokens, x.q.id).Some? && !IsApplied(w.gov.tokens, x.q.id)
    ensures IsApplied(UndoApply(cfg, w, x).0.gov.tokens, x.q.id) <==>
              Dispatches(cfg, w, x) && WentThrough(ReplyOf(Inner(cfg, w, x).1)) && !x.markFails
  {
    TokensAfterApply(cfg, w, x);
    if Dispatches(cfg, w, x) {
      OpenKeepsRest(cfg, w.gov, x.c, x.env);
      var plan := Plan(Inside(cfg, w, x).gov.tokens, x.q);
      ToolCallKeepsToken(cfg, Inside(cfg, w, x), InnerCall(x, plan.tool, plan.params), x.link, x.innerEnv, x.q.id);
      MarkedIsFound(Inner(cfg, w, x).0.gov.tokens, x.q.id, Applied, x.q.id);
    }
  }

  lemma CloseKeepsBlocked(cfg: Config, g: Gov, c: Governed.Call, r: Governed.Record, body: Body, env: Env)
    requires g.engine.blocked
    ensures Close(cfg, g, c, r, body, env).0.engine.blocked
  {
    CompleteKeepsAudit(g, c, r, body, env);
  }

  lemma BlockedAfterApply(cfg: Config, w: World, x: Replay)
    requires Dispatches(cfg, w, x) && Inner(cfg, w, x).0.gov.engine.blocked
    ensures UndoApply(cfg, w, x).0.gov.engine.blocked
  {
    var (g1, r1) := Open(cfg, w.gov, x.c, x.env);
    var (w2, reply) := ApplyBody(cfg, w.(gov := g1), x);
    CloseKeepsBlocked(cfg, w2.gov, x.c, r1, BodyOf(reply), x.env);
  }

  // The inverse is a guarded write whose intent was committed but could not be finished.
  predicate LosesItsFinish(cfg: Config, w: World, x: Replay) {
    Dispatches(cfg, w, x) &&
    var inside := Inside(cfg, w, x);
    var plan := Plan(inside.gov.tokens, x.q);
    var c := InnerCall(x, plan.tool, plan.params);
    c.IsWrite() && Reached(cfg, inside.gov, c, x.innerEnv) && x.innerEnv.finishFails
  }

  lemma LostFinishBlocks(cfg: Config, w: World, x: Replay)
    requires LosesItsFinish(cfg, w, x)
    ensures Inner(cfg, w, x).0.gov.engine.blocked && ReplyOf(Inner(cfg, w, x).1).Raised?
  {
    var inside := Inside(cfg, w, x);
    var plan := Plan(inside.gov.tokens, x.q);
    var c := InnerCall(x, plan.tool, plan.params);
    var reply := RunTool(inside.server, c.tool, c.params, c.dryRun, x.link.q, x.link.f).1;
    FailedFinishBlocks(cfg, inside.gov, c, BodyOf(reply), x.innerEnv);
  }

  /** A dispatch whose own audit finish failed leaves its token recorded, and yet it cannot be
      repeated: the engine is blocked, so no later real `undo_apply` on it reaches its body,
      touches the server or changes a token. */
  lemma UnfinishedDispatchCannotRepeat(cfg: Config, w: World, x: Replay, y: Replay)
    requires LosesItsFinish(cfg, w, x) && x.c.declared == NoUndo && w.gov.tokens.ok
    requires GetToken(w.gov.tokens, x.q.id).Some? && !IsApplied(w.gov.tokens, x.q.id)
    requires y.c.IsWrite() && y.c.declared == NoUndo
    ensures var w2 := UndoApply(cfg, w, x).0;
            && !IsApplied(w2.gov.tokens, x.q.id) && w2.gov.engine.blocked
            && !Reached(cfg, w2.gov, y.c, y.env)
            && UndoApply(cfg, w2, y).0.server == w2.server && UndoApply(cfg, w2, y).0.gov.tokens == w2.gov.tokens
  {
    LostFinishBlocks(cfg, w, x);
    AppliedIff(cfg, w, x);
    BlockedAfterApply(cfg, w, x);
    var w2 := UndoApply(cfg, w, x).0;
    GovernKeepsBlocked(cfg, w2.gov, y.c, FINISHED, y.env);
    ServerAfterApply(cfg, w2, y);
    TokensAfterApply(cfg, w2, y);
  }

  // The report has no outcome fields of its own: it carries the inverse's one level down.
  lemma ReportIsClean(q: Request, verified: bool, applied: bool, inner: Value)
    ensures var v := UndoExecutor.Report(q, verified, applied, inner); FinalStatus(v) == Okay && Checked(v) == 0
  {
    var es := UndoExecutor.Report(q, verified, applied, inner).entries;
    assert es[1..][1..][1..][1..] == [];
    LookupFour(es, "error");
    LookupFour(es, "outcomeUnknown");
  }

  lemma LookupFour(es: seq<Entry>, key: string)
    requires |es| == 4
    ensures (forall i :: 0 <= i < 4 ==> es[i].key != key) ==> Lookup(es, key).None?
  {
    assert Lookup(es[1..], key) == if es[1].key == key then Some(es[1].value) else Lookup(es[1..][1..], key);
    assert Lookup(es[1..][1..], key) == if es[2].key == key then Some(es[2].value) else Lookup(es[1..][1..][1..], key);
    assert es[1..][1..][1..] == [es[3]];
    assert [es[3]][1..] == [];
  }

  // The dispatched call, on the world it finds.
  function DispatchedCall(cfg: Config, w: World, x: Replay): Governed.Call
    requires Dispatches(cfg, w, x)
  {
    var plan := Plan(Inside(cfg, w, x).gov.tokens, x.q);
    InnerCall(x, plan.tool, plan.params)
  }

  // ── what undo_apply says about its inverse ──────────────────────────────

  // The verdict a caller of the inverse itself would get.
  function VerdictOf(r: Reply): AuditLog.Status {
    match r case Raised(_) => Error case Returned(v) => FinalStatus(v)
  }

  // A tool call that raises was stopped by the budget or by the audit log.
  lemma ToolCallRaises(cfg: Config, w: World, c: Governed.Call, link: Link, env: Env)
    ensures var r := ReplyOf(ToolCall(cfg, w, c, link, env).1); r.Raised? ==> r.e == STOPPED || r.e == UNAVAILABLE
  {
    var reply := RunTool(w.server, c.tool, c.params, c.dryRun, link.q, link.f).1;
    if Reached(cfg, w.gov, c, env) {
      StatusIsOfTheResult(cfg, w.gov, c, ToolErrors(DictShape, reply), None, env);
    }
  }

  // A tool call that goes through succeeded, by its own verdict too.
  lemma WentThroughIsOkay(cfg: Config, w: World, c: Governed.Call, link: Link, env: Env)
    requires WentThrough(ReplyOf(ToolCall(cfg, w, c, link, env).1))
    ensures VerdictOf(ReplyOf(ToolCall(cfg, w, c, link, env).1)) == Okay
  {
    OnlyReachedReturns(cfg, w, c, link, env);
    var reply := RunTool(w.server, c.tool, c.params, c.dryRun, link.q, link.f).1;
    ToolErrorsAreOurs(w.server, c.tool, c.params, c.dryRun, link.q, link.f);
    ToolResultsAreKeyless(w.server, c.tool, c.params, c.dryRun, link.q, link.f);
    OursAreToldRightly(cfg, w.gov, c, reply, env);
    StatusIsOfTheResult(cfg, w.gov, c, ToolErrors(DictShape, reply), None, env);
    if reply.Raised? {
      FailureIsFailed(reply);
    }
  }

  // The value the body of undo_apply flattens into.
  function Outer(r: Reply): Value {
    ToolErrors(DictShape, r)
  }

  lemma SettledStatus(t: Tokens, q: Request, verified: bool, inner: Reply, markFails: bool)
    requires inner.Raised? ==> inner.e.kind == Stop || inner.e.kind == Other
    ensures FinalStatus(Outer(Settle(t, q, verified, inner, markFails).1)) ==
            if inner.Raised? || (WentThrough(inner) && markFails) then Error else Okay
  {
    var r := Settle(t, q, verified, inner, markFails).1;
    if r.Raised? {
      DictShapeClassifiesIff(r);
    } else {
      ReportIsClean(q, verified, WentThrough(inner), inner.v);
    }
  }

  lemma OpenIsOkay(cfg: Config, w: World, x: Replay)
    requires Reached(cfg, w.gov, x.c, x.env)
    ensures var r := Open(cfg, w.gov, x.c, x.env).1; r.raised.None? && r.status == Okay
  {
    OpenKeepsRest(cfg, w.gov, x.c, x.env);
  }

  lemma InnerVerdict(cfg: Config, w: World, x: Replay)
    requires Dispatches(cfg, w, x)
    ensures var inner := ReplyOf(Inner(cfg, w, x).1);
            && (inner.Raised? ==> inner.e.kind == Stop || inner.e.kind == Other)
            && (inner.Returned? ==> (VerdictOf(inner) == Okay <==> WentThrough(inner)))
  {
    ToolCallRaises(cfg, Inside(cfg, w, x), DispatchedCall(cfg, w, x), x.link, x.innerEnv);
    if WentThrough(ReplyOf(Inner(cfg, w, x).1)) {
      WentThroughIsOkay(cfg, Inside(cfg, w, x), DispatchedCall(cfg, w, x), x.link, x.innerEnv);
    }
  }

  // What the body of undo_apply hands to its own wrapper.
  function Settled(cfg: Config, w: World, x: Replay): Reply
    requires Dispatches(cfg, w, x)
  {
    Settle(Inner(cfg, w, x).0.gov.tokens, x.q, GetToken(Inside(cfg, w, x).gov.tokens, x.q.id).value.verified,
           ReplyOf(Inner(cfg, w, x).1), x.markFails).1
  }

  lemma OuterStatus(cfg: Config, w: World, x: Replay)
    requires Dispatches(cfg, w, x)
    ensures var outer := UndoApply(cfg, w, x).1;
            && FinalOf(outer) == FinalStatus(Outer(Settled(cfg, w, x)))
            && (ReplyOf(outer).Returned? ==> Checked(ReplyOf(outer).v) == Checked(Outer(Settled(cfg, w, x))))
  {
    OpenIsOkay(cfg, w, x);
    var (w2, reply) := ApplyBody(cfg, Inside(cfg, w, x), x);
    CloseStatus(cfg, w2.gov, x.c, Open(cfg, w.gov, x.c, x.env).1, Outer(reply), None, x.env);
  }

  /** The audit row of `undo_apply` after a dispatch: an error if the inverse was stopped from
      outside or could not be marked, and `ok` in every other case, even when the inverse
      failed or its response was lost. So it agrees with the inverse's own verdict if and only
      if the inverse raised, or went through and was marked. The exit code says the same. */
  lemma UndoApplyAgreesIff(cfg: Config, w: World, x: Replay)
    requires Dispatches(cfg, w, x)
    ensures var inner := ReplyOf(Inner(cfg, w, x).1);
            var outer := UndoApply(cfg, w, x).1;
            && FinalOf(outer) == (if inner.Raised? || (WentThrough(inner) && x.markFails) then Error else Okay)
            && (FinalOf(outer) == VerdictOf(inner) <==> inner.Raised? || (WentThrough(inner) && !x.markFails))
            && (ReplyOf(outer).Returned? ==> Checked(ReplyOf(outer).v) == ExitFor(FinalOf(outer)))
  {
    var inner := ReplyOf(Inner(cfg, w, x).1);
    var tokens, verified := Inner(cfg, w, x).0.gov.tokens, GetToken(Inside(cfg, w, x).gov.tokens, x.q.id).value.verified;
    InnerVerdict(cfg, w, x);
    OuterStatus(cfg, w, x);
    SettledStatus(tokens, x.q, verified, inner, x.markFails);
    SettledExit(tokens, x.q, verified, inner, x.markFails);
  }

  lemma SettledExit(t: Tokens, q: Request, verified: bool, inner: Reply, markFails: bool)
    ensures var v := Outer(Settle(t, q, verified, inner, markFails).1); Checked(v) == ExitFor(FinalStatus(v))
  {
    var r := Settle(t, q, verified, inner, markFails).1;
    if r.Raised? {
      DictShapeClassifiesIff(r);
    } else {
      ReportIsClean(q, verified, WentThrough(inner), inner.v);
    }
  }

  // ── rows of a nested call ───────────────────────────────────────────────

  lemma NoRotationWhilePending(s: Store, m: Meta, env: RotateEnv)
    requires s.active.Some?
    ensures var t := Insert(s, m, Pending, Null, 0); MaybeRotate(t, env) == t
  {
    var rows := Insert(s, m, Pending, Null, 0).active.value;
    assert rows[|rows| - 1].status == Pending;
  }

  // Finishing an intent that another row was logged behind.
  lemma FinishBehind(e: Engine, s: Store, m: Meta, later: Row, result: Value, status: AuditLog.Status, durationMs: int)
    requires s.active.Some? && Tidy(s) && later.id == |s.active.value| + 2
    ensures var rows := s.active.value;
            var id := |rows| + 1;
            Finish(e, s.(active := Some(rows + [Row(id, m, Pending, Summarize(Null), 0), later])), id, result, status,
                   durationMs, false) ==
            AuditLog.Finished(e, s.(active := Some(rows + [Row(id, m, status, Summarize(result), durationMs), later])), false)
  {
    var rows := s.active.value;
    var id := |rows| + 1;
    var open := rows + [Row(id, m, Pending, Summarize(Null), 0), later];
    UpdateHitsItsRow(open, id);
    assert Update(open, id, status, Summarize(result), durationMs) ==
           rows + [Row(id, m, status, Summarize(result), durationMs), later];
  }

  predicate QuietEnv(env: Env) {
    && !env.begin.guardFails && !env.begin.insertFails && !env.log.guardFails && !env.log.insertFails
    && !env.finishFails
  }

  // With an intent pending, the inner call can only append its one row behind it.
  lemma InnerAppendsOneRow(cfg: Config, w: World, c: Governed.Call, link: Link, env: Env, s: Store, m: Meta)
    requires s.active.Some? && Tidy(s) && w.gov.log == Insert(s, m, Pending, Null, 0)
    requires w.gov.engine.ok && !w.gov.engine.blocked && QuietEnv(env)
    ensures var (w', r') := ToolCall(cfg, w, c, link, env);
            && w'.gov.engine == w.gov.engine && w'.gov.log.active.Some?
            && var rows := w'.gov.log.active.value;
            && |rows| == |s.active.value| + 2
            && rows[|rows| - 1].meta == c.Meta() && rows[|rows| - 1].status != Pending
            && rows[|rows| - 1].id == |rows|
            && w'.gov.log == w.gov.log.(active := Some(w.gov.log.active.value + [rows[|rows| - 1]]))
  {
    var reply := RunTool(w.server, c.tool, c.params, c.dryRun, link.q, link.f).1;
    var body := if Reached(cfg, w.gov, c, env) then BodyOf(reply) else FINISHED;
    NoRotationWhilePending(s, m, env.begin.rotate);
    NoRotationWhilePending(s, m, env.log.rotate);
    TidyInsert(s, m, Pending, Null, 0);
    HealthyCallWritesOneRow(cfg, w.gov, c, body, env);
    ToldIsNeverPending(cfg, w.gov, c, body, env);
  }

  lemma OuterFinishes(cfg: Config, g: Gov, c: Governed.Call, r: Governed.Record, body: Body, env: Env, s: Store, later: Row)
    requires s.active.Some? && Tidy(s) && later.id == |s.active.value| + 2 && !env.finishFails
    requires r.intent == Some(|s.active.value| + 1) && r.status == Okay
    requires g.log == s.(active := Some(s.active.value +
                           [Row(|s.active.value| + 1, c.Meta(), Pending, Summarize(Null), 0), later]))
    ensures var g' := Close(cfg, g, c, r, body, env).0;
            && g'.engine == g.engine && g'.log.active.Some?
            && var rows := g'.log.active.value;
            && |rows| == |s.active.value| + 2 && rows[..|s.active.value|] == s.active.value
            && rows[|s.active.value|].meta == c.Meta() && rows[|s.active.value|].status != Pending
            && rows[|s.active.value| + 1] == later && g'.log.archives == s.archives
  {
    CompleteKeepsAudit(g, c, r, body, env);
    var (g1, r1) := Complete(g, c, r, body, env);
    assert r1.status != Pending;
    FinalIsTerminal(r1);
    FinishBehind(g.engine, s, c.Meta(), later, Shown(r1), FinalOf(r1), env.durationMs);
  }

  /** With healthy storage an applied undo leaves exactly two new rows, its own and behind it
      the inverse tool's, both settled, and nothing is rotated in between. */
  lemma HealthyUndoWritesTwoRows(cfg: Config, w: World, x: Replay)
    requires x.c.IsWrite() && Dispatches(cfg, w, x)
    requires Healthy(w.gov, x.c, x.env) && QuietEnv(x.innerEnv)
    ensures var s := MaybeRotate(w.gov.log, x.env.begin.rotate);
            var w2 := UndoApply(cfg, w, x).0;
            && s.active.Some? && w2.gov.log.active.Some? && w2.gov.engine == w.gov.engine
            && var n, rows := |s.active.value|, w2.gov.log.active.value;
            && |rows| == n + 2 && rows[..n] == s.active.value && w2.gov.log.archives == s.archives
            && rows[n].meta == x.c.Meta() && rows[n].status != Pending
            && rows[n + 1].meta == DispatchedCall(cfg, w, x).Meta() && rows[n + 1].status != Pending
  {
    OpenLogsIntent(cfg, w.gov, x.c, x.env);
    OpenKeepsRest(cfg, w.gov, x.c, x.env);
    TidyRotation(w.gov.log, x.env.begin.rotate);
    var s := MaybeRotate(w.gov.log, x.env.begin.rotate);
    var inside := Inside(cfg, w, x);
    InnerAppendsOneRow(cfg, inside, DispatchedCall(cfg, w, x), x.link, x.innerEnv, s, x.c.Meta());
    var (g1, r1) := Open(cfg, w.gov, x.c, x.env);
    var (w2, reply) := ApplyBody(cfg, w.(gov := g1), x);
    var later := w2.gov.log.active.value[|s.active.value| + 1];
    assert w2.gov.log.active.value == s.active.value + [Row(|s.active.value| + 1, x.c.Meta(), Pending, Summarize(Null), 0), later];
    OuterFinishes(cfg, w2.gov, x.c, r1, BodyOf(reply), x.env, s, later);
  }
}
