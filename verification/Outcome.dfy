/**
 How an outcome is classified on its way out: the driver's error, the exception, the
 sanitized payload, the audit status, the exit code.

 A write whose response was lost must come out as undetermined at every layer, any other
 failure as a failure, and a success as a success. The results say exactly when they do.
 */
module Outcome {
  import opened Common
  import opened Json
  import opened AuditLog
  import Sanitize

  // The classes of exception the layers tell apart. Passed on by text: ValueError and its
  // subclasses, KeyError, OSError. Other: anything `_safe_error` reduces to its class name.
  datatype Kind = Teaching | Pg | Lost | Stop | Other

  datatype Exn = Exn(kind: Kind, text: string)

  datatype Reply = Returned(v: Value) | Raised(e: Exn)

  // ── the driver's errors ─────────────────────────────────────────────────

  datatype Route = ByExecute | ByQuery

  // `operational`: psycopg's OperationalError, which is what a dead link raises.
  function Translate(route: Route, operational: bool): Kind {
    if route == ByExecute && operational then Lost else Pg
  }

  // ── markers ─────────────────────────────────────────────────────────────

  // `d[key] = x`
  function Put(es: seq<Entry>, key: string, x: Value): seq<Entry> {
    if es == [] then [Entry(key, x)]
    else if es[0].key == key then [Entry(key, x)] + es[1..]
    else [es[0]] + Put(es[1..], key, x)
  }

  lemma {:induction false} PutThenLookup(es: seq<Entry>, key: string, x: Value, other: string)
    ensures Lookup(Put(es, key, x), other) == if other == key then Some(x) else Lookup(es, other)
  {
    if es != [] && es[0].key != key {
      PutThenLookup(es[1..], key, x, other);
    }
  }

  const NOTE: string := "The request was sent but no usable response came back."

  function MarkUnknown(payload: seq<Entry>): Value {
    Dict(Put(Put(payload, "outcomeUnknown", Bool(true)), "note", Str(NOTE)))
  }

  predicate IsUnknown(v: Value) {
    Get(v, "outcomeUnknown") == Bool(true)
  }

  /** Marking sets the flag and the note and leaves every other field of the payload. */
  lemma MarkedIsUnknown(payload: seq<Entry>, key: string)
    ensures IsUnknown(MarkUnknown(payload))
    ensures key != "outcomeUnknown" && key != "note" ==>
              Get(MarkUnknown(payload), key) == Get(Dict(payload), key)
  {
    var once := Put(payload, "outcomeUnknown", Bool(true));
    PutThenLookup(once, "note", Str(NOTE), "outcomeUnknown");
    PutThenLookup(payload, "outcomeUnknown", Bool(true), "outcomeUnknown");
    PutThenLookup(once, "note", Str(NOTE), key);
    PutThenLookup(payload, "outcomeUnknown", Bool(true), key);
  }

  // ── tool_errors ─────────────────────────────────────────────────────────

  const ERROR_MAX: int := 800
  const HINT: string := "Run 'postgres-aiops doctor' to verify connectivity and credentials."

  function SafeError(e: Exn): string {
    if e.kind == Teaching || e.kind == Pg || e.kind == Lost then Sanitize.Sanitize(e.text, ERROR_MAX)
    else "operation failed."
  }

  datatype Shape = DictShape | ListShape | StrShape

  function Payload(e: Exn): seq<Entry> {
    [Entry("error", Str(SafeError(e))), Entry("hint", Str(HINT))]
  }

  function ToolErrors(shape: Shape, r: Reply): Value {
    match r
    case Returned(v) => v
    case Raised(e) =>
      match shape
      case ListShape => List([Dict(Payload(e))])
      case StrShape => Str("Error: " + SafeError(e) + " " + HINT)
      case DictShape => if e.kind == Lost then MarkUnknown(Payload(e)) else Dict(Payload(e))
  }

  // ── the two verdicts ────────────────────────────────────────────────────

  // `_finalize` on a result that arrived without an exception.
  function FinalStatus(v: Value): Status {
    if v.Dict? && IsUnknown(v) then Unknown
    else if v.Dict? && Truthy(Get(v, "error")) then Error
    else Okay
  }

  // The CLI's exit code for a governed result.
  function Checked(v: Value): int {
    if !v.Dict? then 0
    else if Truthy(Get(v, "outcomeUnknown")) then 2
    else if Truthy(Get(v, "error")) then 1
    else 0
  }

  function ExitFor(s: Status): int {
    match s case Okay => 0 case Unknown => 2 case _ => 1
  }

  // A flag that the CLI takes for true and the harness does not.
  predicate LooseFlag(v: Value) {
    Truthy(Get(v, "outcomeUnknown")) && !IsUnknown(v)
  }

  /** Audit row and exit code give the same verdict on every result except one whose
      `outcomeUnknown` is truthy without being True. */
  lemma VerdictsAgreeIff(v: Value)
    ensures Checked(v) == ExitFor(FinalStatus(v)) <==> !LooseFlag(v)
  {
  }

  // A result the tool body made itself: no outcome fields of its own.
  predicate CleanResult(v: Value) {
    !v.Dict? || (!Has(v, "error") && !Has(v, "outcomeUnknown"))
  }

  // After sanitizing, nothing is left of the message.
  predicate Wordless(e: Exn) {
    SafeError(e) == ""
  }

  lemma PayloadFields(e: Exn)
    ensures Get(Dict(Payload(e)), "error") == Str(SafeError(e))
    ensures Get(Dict(Payload(e)), "outcomeUnknown") == Null
    ensures Get(MarkUnknown(Payload(e)), "error") == Str(SafeError(e))
  {
    MarkedIsUnknown(Payload(e), "error");
    var es := Payload(e);
    assert Lookup(es, "outcomeUnknown") == Lookup(es[1..], "outcomeUnknown");
    assert Lookup(es[1..], "outcomeUnknown") == Lookup(es[2..], "outcomeUnknown");
  }

  // What the layers are meant to say about a reply.
  function Verdict(r: Reply): Status {
    match r
    case Returned(_) => Okay
    case Raised(e) => if e.kind == Lost then Unknown else Error
  }

  /** A dict-shaped tool is classified as it should be, by the audit row and by the exit
      code, exactly unless it fails without a word: an error whose message sanitizes to
      nothing passes for a success. A lost response is never mistaken. */
  lemma DictShapeClassifiesIff(r: Reply)
    requires r.Returned? ==> CleanResult(r.v)
    ensures var v := ToolErrors(DictShape, r);
            && (FinalStatus(v) == Verdict(r) <==> !(r.Raised? && r.e.kind != Lost && Wordless(r.e)))
            && Checked(v) == ExitFor(FinalStatus(v))
            && (r.Raised? && r.e.kind == Lost ==> FinalStatus(v) == Unknown)
  {
    if r.Raised? {
      PayloadFields(r.e);
      MarkedIsUnknown(Payload(r.e), "error");
    }
    VerdictsAgreeIff(ToolErrors(DictShape, r));
  }

  /** A failure flattened into a list or a string is audited as a success and exits zero. */
  lemma OtherShapesHideFailures(shape: Shape, e: Exn)
    requires shape != DictShape
    ensures var v := ToolErrors(shape, Raised(e)); FinalStatus(v) == Okay && Checked(v) == 0
  {
  }

  /** A dead link is undetermined exactly when the statement went through `execute`.
      `terminate_backend` and `cancel_query` go through `query`, so theirs is an error. */
  lemma LostLinkIsUnknownIffExecuted(route: Route, text: string)
    requires Sanitize.Sanitize(text, ERROR_MAX) != ""
    ensures FinalStatus(ToolErrors(DictShape, Raised(Exn(Translate(route, true), text)))) ==
            if route == ByExecute then Unknown else Error
  {
    var e := Exn(Translate(route, true), text);
    DictShapeClassifiesIff(Raised(e));
  }

  // ── commands that reach the engine without a tool ───────────────────────

  // How a CLI command body ends: normally, by typer.Exit, or by another exception.
  datatype Ending = Ran | Exited(code: int) | Threw(e: Exn)

  // The body `audited` hands to the harness.
  function AuditedBody(end: Ending): Reply {
    match end
    case Ran => Returned(Null)
    case Exited(code) =>
      Returned(Dict([Entry("_exitCode", Num(code))] +
                    if code != 0 then [Entry("error", Str("command exited"))] else []))
    case Threw(e) => Raised(e)
  }

  // What the wrapper around it does with the result.
  function AuditedExit(r: Reply): Ending {
    match r
    case Raised(e) => Threw(e)
    case Returned(v) =>
      match Get(v, "_exitCode") case Num(code) => Exited(code) case _ => Ran
  }

  /** The command ends as it did without the harness, and its row says `ok` exactly when it
      ended with code zero. */
  lemma AuditedCommandIsTransparent(end: Ending)
    ensures AuditedExit(AuditedBody(end)) == end
    ensures AuditedBody(end).Returned? ==>
              (FinalStatus(AuditedBody(end).v) == Okay <==> end == Ran || end == Exited(0))
  {
    match end
    case Exited(code) =>
      var es := AuditedBody(end).v.entries;
      assert es[0] == Entry("_exitCode", Num(code));
      if code != 0 {
        assert es[1..][0] == Entry("error", Str("command exited"));
      } else {
        assert es[1..] == [];
      }
      assert Lookup(es, "error") == Lookup(es[1..], "error");
      assert Lookup(es, "outcomeUnknown") == Lookup(es[1..], "outcomeUnknown");
      if code != 0 {
        assert Lookup(es[1..], "outcomeUnknown") == Lookup(es[1..][1..], "outcomeUnknown");
      }
    case _ =>
  }
}
