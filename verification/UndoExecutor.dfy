/**
 The undo executor: which calls it refuses, which it previews, what it dispatches, and how
 often a token can be used.

 A call is split at the dispatch: `Plan` decides from the token, `Settle` deals with the
 inverse tool's reply. Sequences of calls are runs over those two, with the reply of each
 dispatched tool and every storage failure as inputs.
 */
module UndoExecutor {
  import opened Common
  import opened Json
  import opened Outcome
  import opened Remediation
  import opened UndoTokens

  // The parameters of one `undo_apply` call. `registered`: the inverse tool can be resolved.
  datatype Request = Request(id: string, dryRun: bool, target: Option<string>, registered: bool)

  datatype Planned = Refuse(e: Exn) | Preview(v: Value) | Dispatch(tool: Tool, params: Value)

  function TargetOf(c: Column): Option<string> {
    if c.Unreadable? then None
    else
      match Get(c.v, "target")
      case Str(s) => if s != "" then Some(s) else None
      case _ => None
  }

  // The keyword arguments of the dispatch: the recorded ones, and a target if they have none.
  function CallParams(params: seq<Entry>, target: Option<string>, tok: Token): seq<Entry> {
    if Lookup(params, "target").Some? then params
    else
      var chosen := if target.Some? then target else TargetOf(tok.origParams);
      match chosen
      case None => params
      case Some(t) => params + [Entry("target", Str(t))]
  }

  function PreviewOf(tok: Token, params: Value): Value {
    Dict([Entry("dryRun", Bool(true)), Entry("undoId", Str(tok.id)), Entry("effectVerified", Bool(tok.verified)),
          Entry("wouldApply", params)])
  }

  function Deny(why: string): Planned {
    Refuse(Exn(Teaching, why))
  }

  function Plan(t: Tokens, q: Request): Planned {
    match GetToken(t, q.id)
    case None => Deny("Unknown undo id")
    case Some(tok) =>
      if tok.status != Recorded then Deny("a token can only be applied once")
      else
        match tok.params
        case Unreadable => Deny("unreadable recorded parameters")
        case Holds(v) =>
          if !v.Dict? then Deny("recorded parameters are not an object")
          else if tok.inverse.Named? && !q.registered then Deny("inverse tool is not registered")
          else if q.dryRun then Preview(PreviewOf(tok, v))
          else Dispatch(tok.inverse, Dict(CallParams(v.entries, q.target, tok)))
  }

  // The inverse did not itself return an error.
  predicate WentThrough(r: Reply) {
    r.Returned? && !(r.v.Dict? && Truthy(Get(r.v, "error")))
  }

  function Report(q: Request, verified: bool, applied: bool, inner: Value): Value {
    Dict([Entry("applied", Bool(applied)), Entry("undoId", Str(q.id)), Entry("effectVerified", Bool(verified)),
          Entry("result", inner)])
  }

  // After the dispatch. `markFails`: the store raises when the token is marked.
  function Settle(t: Tokens, q: Request, verified: bool, inner: Reply, markFails: bool): (Tokens, Reply) {
    if inner.Raised? then (t, inner)
    else if !WentThrough(inner) then (t, Returned(Report(q, verified, false, inner.v)))
    else if markFails then (t, Raised(Exn(Other, "database error")))
    else (Mark(t, q.id, Applied), Returned(Report(q, verified, true, inner.v)))
  }

  // ── the target of a replay ──────────────────────────────────────────────

  lemma {:induction false} AppendedTarget(params: seq<Entry>, t: string)
    requires Lookup(params, "target").None?
    ensures Lookup(params + [Entry("target", Str(t))], "target") == Some(Str(t))
  {
    LookupAppend(params, [Entry("target", Str(t))], "target");
  }

  /** A replay runs against the target its descriptor names, else the caller's, else the one
      the original write ran against, else the default, as that write did. */
  lemma ReplayTarget(t: Tokens, q: Request)
    requires Plan(t, q).Dispatch?
    ensures GetToken(t, q.id).Some? && GetToken(t, q.id).value.params.Holds?
    ensures var tok := GetToken(t, q.id).value;
            var given, run := Get(tok.params.v, "target"), Get(Plan(t, q).params, "target");
            if Has(tok.params.v, "target") then run == given
            else if q.target.Some? then run == Str(q.target.value)
            else if TargetOf(tok.origParams).Some? then run == Str(TargetOf(tok.origParams).value)
            else run == Null
  {
    var tok := GetToken(t, q.id).value;
    var es := tok.params.v.entries;
    if Lookup(es, "target").None? {
      var chosen := if q.target.Some? then q.target else TargetOf(tok.origParams);
      if chosen.Some? {
        AppendedTarget(es, chosen.value);
      }
    }
  }

  // ── runs ────────────────────────────────────────────────────────────────

  datatype Event =
    | Recording(id: string, origin: Tool, d: Descriptor, params: Value, verified: bool, fails: bool)
    | Applying(q: Request, inner: Reply, markFails: bool)

  function Step(t: Tokens, e: Event): Tokens {
    match e
    case Recording(id, origin, d, params, verified, fails) => Record(t, id, origin, d, params, verified, fails).0
    case Applying(q, inner, markFails) =>
      if Plan(t, q).Dispatch? then Settle(t, q, GetToken(t, q.id).value.verified, inner, markFails).0 else t
  }

  function Run(evs: seq<Event>): Tokens {
    if evs == [] then Tokens(true, []) else Step(Run(evs[..|evs| - 1]), evs[|evs| - 1])
  }

  // The event dispatches the token's inverse, and the inverse goes through.
  predicate Replays(t: Tokens, e: Event, id: string) {
    e.Applying? && e.q.id == id && Plan(t, e.q).Dispatch? && WentThrough(e.inner)
  }

  // How often the token's inverse went through in a run, and how often marking it then failed.
  function Replayed(evs: seq<Event>, id: string): nat {
    if evs == [] then 0
    else
      var rest, e := evs[..|evs| - 1], evs[|evs| - 1];
      Replayed(rest, id) + if Replays(Run(rest), e, id) then 1 else 0
  }

  function Unmarked(evs: seq<Event>, id: string): nat {
    if evs == [] then 0
    else
      var rest, e := evs[..|evs| - 1], evs[|evs| - 1];
      Unmarked(rest, id) + if Replays(Run(rest), e, id) && e.markFails then 1 else 0
  }

  predicate IsApplied(t: Tokens, id: string) {
    GetToken(t, id).Some? && GetToken(t, id).value.status == Applied
  }

  lemma StepKeepsOk(t: Tokens, e: Event)
    ensures Step(t, e).ok == t.ok
  {
  }

  lemma {:induction false} RunIsOk(evs: seq<Event>)
    ensures Run(evs).ok
  {
    if evs != [] {
      RunIsOk(evs[..|evs| - 1]);
      StepKeepsOk(Run(evs[..|evs| - 1]), evs[|evs| - 1]);
    }
  }

  lemma RecordingKeepsApplied(t: Tokens, e: Event, id: string)
    requires e.Recording?
    ensures IsApplied(Step(t, e), id) <==> IsApplied(t, id)
  {
    RecordedIsFound(t, e.id, e.origin, e.d, e.params, e.verified, e.fails, id);
  }

  // A token becomes applied by one kind of event only.
  lemma AppliedStep(t: Tokens, e: Event, id: string)
    requires t.ok
    ensures IsApplied(Step(t, e), id) <==> IsApplied(t, id) || (Replays(t, e, id) && !e.markFails)
    ensures Replays(t, e, id) ==> !IsApplied(t, id)
  {
    match e
    case Recording(_, _, _, _, _, _) => RecordingKeepsApplied(t, e, id);
    case Applying(q, _, _) => MarkedIsFound(t, q.id, Applied, id);
  }

  /** Single use: in any run of sequential calls, a token's inverse goes through at most once
      more than marking it failed, and the token is applied exactly when one replay was
      marked. So without a failed mark every token is used at most once. */
  lemma {:induction false} SingleUse(evs: seq<Event>, id: string)
    ensures Replayed(evs, id) == Unmarked(evs, id) + if IsApplied(Run(evs), id) then 1 else 0
  {
    if evs != [] {
      var rest, e := evs[..|evs| - 1], evs[|evs| - 1];
      SingleUse(rest, id);
      RunIsOk(rest);
      AppliedStep(Run(rest), e, id);
    } else {
      assert Find([], id).None?;
    }
  }

  lemma OneMoreEvent(evs: seq<Event>, e: Event, id: string)
    requires IsApplied(Run(evs), id)
    ensures IsApplied(Run(evs + [e]), id) && Replayed(evs + [e], id) == Replayed(evs, id)
  {
    assert (evs + [e])[..|evs|] == evs;
    RunIsOk(evs);
    AppliedStep(Run(evs), e, id);
  }

  /** `applied` is terminal: however the run goes on, the token stays applied and its inverse
      is never dispatched again with success. */
  lemma {:induction false} AppliedIsTerminal(evs: seq<Event>, all: seq<Event>, id: string)
    requires evs <= all && IsApplied(Run(evs), id)
    ensures IsApplied(Run(all), id) && Replayed(all, id) == Replayed(evs, id)
    decreases |all| - |evs|
  {
    if |evs| == |all| {
      assert evs == all;
    } else {
      var next := evs + [all[|evs|]];
      OneMoreEvent(evs, all[|evs|], id);
      assert next <= all;
      AppliedIsTerminal(next, all, id);
    }
  }

  /** When marking fails after the inverse went through, the store is as it was, so the very
      same call dispatches the very same inverse a second time. */
  lemma UnmarkedTokenRunsAgain(t: Tokens, q: Request, inner: Reply)
    requires Plan(t, q).Dispatch? && WentThrough(inner)
    ensures var t' := Step(t, Applying(q, inner, true));
            t' == t && Plan(t', q) == Plan(t, q)
  {
  }

  /** A lost response counts as a refusal here: an inverse that may have taken effect leaves
      its token reusable. */
  lemma UndeterminedInverseLeavesTheToken(t: Tokens, q: Request, e: Exn, markFails: bool)
    requires e.kind == Lost && !Wordless(e)
    ensures Step(t, Applying(q, Returned(ToolErrors(DictShape, Raised(e))), markFails)) == t
  {
    PayloadFields(e);
  }

  /** Refusals and previews change no token. */
  lemma NothingChangesWithoutADispatch(t: Tokens, q: Request, inner: Reply, markFails: bool)
    ensures !Plan(t, q).Dispatch? ==> Step(t, Applying(q, inner, markFails)) == t
    ensures q.dryRun ==> !Plan(t, q).Dispatch?
  {
  }
}
