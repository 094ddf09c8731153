/**
 The audit database: rows, the active file, its archives, and the engine's operations.

 The operations are functions on values, with every storage failure as an input.
 `AuditEngine` below is the engine itself, each method proved to be its operation.
 What the log keeps is proved here for single operations, and in module AuditProtocol
 for engines interleaving on one file.
 */
module AuditLog {
  import opened Common
  import opened Json

  const MAX_ARCHIVES: nat := 5

  datatype Status = Pending | Okay | Error | Unknown | BudgetExceeded

  // The columns fixed at insertion. `call` numbers the governed call that wrote the row;
  // the database has no such column, it only lets a statement name a row's owner.
  datatype Meta = Meta(call: nat, tool: string, params: Value, risk: string)

  datatype Row = Row(id: nat, meta: Meta, status: Status, summary: Value, durationMs: int)

  datatype Archive = Archive(name: string, rows: seq<Row>)

  // `active` is None while the file or its table is missing (between a rotation's rename
  // and its re-initialisation, or after that failed). `archives` is oldest first.
  // `lost` records, for the statements only, the archives that were deleted.
  datatype Store = Store(active: Option<seq<Row>>, archives: seq<Archive>, lost: seq<Archive>)

  datatype Engine = Engine(ok: bool, blocked: bool, failures: nat)

  // ── the result column ───────────────────────────────────────────────────

  predicate IsFlag(v: Value) { v.Bool? || v.Num? }

  function Noted(cond: bool, key: string): seq<Entry> {
    if cond then [Entry(key, Bool(true))] else []
  }

  function CopyFlag(v: Value, key: string): seq<Entry> {
    if IsFlag(Get(v, key)) then [Entry(key, Get(v, key))] else []
  }

  function Summarize(v: Value): Value {
    match v
    case Dict(_) =>
      Dict([Entry("kind", Str("object"))]
           + Noted(Truthy(Get(v, "error")), "error")
           + Noted(Get(v, "outcomeUnknown") == Bool(true), "outcomeUnknown")
           + Noted(Truthy(Get(v, "_undo_id")), "undoRecorded")
           + Noted(Truthy(Get(v, "_pattern_id")), "patternMatched")
           + CopyFlag(v, "truncated") + CopyFlag(v, "returned") + CopyFlag(v, "limit"))
    case List(items) => Dict([Entry("kind", Str("list")), Entry("count", Num(|items|))])
    case Tuple(items) => Dict([Entry("kind", Str("list")), Entry("count", Num(|items|))])
    case Null => Dict([Entry("kind", Str("NoneType"))])
    case Bool(_) => Dict([Entry("kind", Str("bool"))])
    case Num(_) => Dict([Entry("kind", Str("int"))])
    case Str(_) => Dict([Entry("kind", Str("str"))])
  }

  predicate SameFlag(v: Value, w: Value, key: string) {
    Get(v, key) == Get(w, key) || (!IsFlag(Get(v, key)) && !IsFlag(Get(w, key)))
  }

  predicate SameOutcomeFields(v: Value, w: Value) {
    && Truthy(Get(v, "error")) == Truthy(Get(w, "error"))
    && (Get(v, "outcomeUnknown") == Bool(true)) == (Get(w, "outcomeUnknown") == Bool(true))
    && Truthy(Get(v, "_undo_id")) == Truthy(Get(w, "_undo_id"))
    && Truthy(Get(v, "_pattern_id")) == Truthy(Get(w, "_pattern_id"))
    && SameFlag(v, w, "truncated") && SameFlag(v, w, "returned") && SameFlag(v, w, "limit")
  }

  /** Nothing else of a dict result reaches the audit row: two results with the same
      outcome fields leave the same summary, whatever their payloads. */
  lemma SummaryHidesThePayload(v: Value, w: Value)
    requires v.Dict? && w.Dict? && SameOutcomeFields(v, w)
    ensures Summarize(v) == Summarize(w)
  {
    assert CopyFlag(v, "truncated") == CopyFlag(w, "truncated");
    assert CopyFlag(v, "returned") == CopyFlag(w, "returned");
    assert CopyFlag(v, "limit") == CopyFlag(w, "limit");
  }

  // ── rotation ────────────────────────────────────────────────────────────

  predicate HasPending(rows: seq<Row>) {
    exists i :: 0 <= i < |rows| && rows[i].status == Pending
  }

  function Without(archives: seq<Archive>, name: string): seq<Archive> {
    if archives == [] then []
    else (if archives[0].name == name then [] else [archives[0]]) + Without(archives[1..], name)
  }

  function Named(archives: seq<Archive>, name: string): seq<Archive> {
    if archives == [] then []
    else (if archives[0].name == name then [archives[0]] else []) + Named(archives[1..], name)
  }

  // `path.rename(archive)`: silently replaces an archive that already has the name.
  function Rename(s: Store, name: string): Store
    requires s.active.Some?
  {
    Store(None,
          Without(s.archives, name) + [Archive(name, s.active.value)],
          s.lost + Named(s.archives, name))
  }

  // CREATE TABLE IF NOT EXISTS
  function InitDb(s: Store): Store {
    if s.active.None? then s.(active := Some([])) else s
  }

  function Excess(s: Store): nat {
    if |s.archives| > MAX_ARCHIVES then |s.archives| - MAX_ARCHIVES else 0
  }

  // Of the n oldest, the last `done` are gone.
  function Kept(all: seq<Archive>, n: nat, done: nat): seq<Archive>
    requires done <= n <= |all|
  {
    all[..n - done] + all[n..]
  }

  function Cut(all: seq<Archive>, n: nat, done: nat): seq<Archive>
    requires done <= n <= |all|
  {
    all[n - done..n]
  }

  // The archives past the newest five are unlinked newest first; an error stops after k.
  function Cleanup(s: Store, k: nat): Store {
    var n := Excess(s);
    var done := if k < n then k else n;
    s.(archives := Kept(s.archives, n, done), lost := s.lost + Cut(s.archives, n, done))
  }

  lemma CutBounds(all: seq<Archive>, n: nat)
    requires n <= |all|
    ensures Kept(all, n, 0) == all && Cut(all, n, 0) == []
    ensures Kept(all, n, n) == all[n..] && Cut(all, n, n) == all[..n]
  {
  }

  lemma CutOneMore(all: seq<Archive>, n: nat, k: nat)
    requires k < n <= |all|
    ensures Cut(all, n, k + 1) == [all[n - 1 - k]] + Cut(all, n, k)
  {
  }

  // Where a rotation stops. Errors are swallowed by the caller.
  datatype RotateFault = NoFault | ProbeFails | RenameFails | InitFails | CleanupFails(unlinked: nat)

  datatype RotateEnv = RotateEnv(oversize: bool, name: string, fault: RotateFault)

  function MaybeRotate(s: Store, env: RotateEnv): Store {
    if s.active.None? || !env.oversize || env.fault == ProbeFails || HasPending(s.active.value)
       || env.fault == RenameFails
    then s
    else
      var renamed := Rename(s, env.name);
      if env.fault == InitFails then renamed
      else
        var reopened := InitDb(renamed);
        Cleanup(reopened, if env.fault.CleanupFails? then env.fault.unlinked else Excess(reopened))
  }

  // ── rows ────────────────────────────────────────────────────────────────

  function Insert(s: Store, m: Meta, status: Status, result: Value, durationMs: int): Store
    requires s.active.Some?
  {
    var rows := s.active.value;
    s.(active := Some(rows + [Row(|rows| + 1, m, status, Summarize(result), durationMs)]))
  }

  predicate Hit(r: Row, id: nat) {
    r.id == id && r.status == Pending
  }

  // UPDATE ... WHERE id = ? AND status = 'pending'
  function Update(rows: seq<Row>, id: nat, status: Status, summary: Value, durationMs: int): (out: seq<Row>)
    ensures |out| == |rows|
    ensures forall i :: 0 <= i < |rows| ==>
              out[i] == if Hit(rows[i], id)
                        then rows[i].(status := status, summary := summary, durationMs := durationMs)
                        else rows[i]
  {
    if rows == [] then []
    else
      [if Hit(rows[0], id) then rows[0].(status := status, summary := summary, durationMs := durationMs)
       else rows[0]]
      + Update(rows[1..], id, status, summary, durationMs)
  }

  function RowCount(rows: seq<Row>, id: nat): nat {
    if rows == [] then 0 else (if Hit(rows[0], id) then 1 else 0) + RowCount(rows[1..], id)
  }

  // A fresh file numbers its rows from 1 and never deletes one.
  predicate Numbered(rows: seq<Row>) {
    forall i :: 0 <= i < |rows| ==> rows[i].id == i + 1
  }

  lemma {:induction false} NoHit(rows: seq<Row>, id: nat)
    requires forall i :: 0 <= i < |rows| ==> !Hit(rows[i], id)
    ensures RowCount(rows, id) == 0
  {
    if rows != [] {
      NoHit(rows[1..], id);
    }
  }

  lemma {:induction false} OneHit(rows: seq<Row>, id: nat, j: nat)
    requires j < |rows| && Hit(rows[j], id)
    requires forall i :: 0 <= i < |rows| && i != j ==> !Hit(rows[i], id)
    ensures RowCount(rows, id) == 1
  {
    if j == 0 {
      NoHit(rows[1..], id);
    } else {
      OneHit(rows[1..], id, j - 1);
    }
  }

  /** In a file that numbers its own rows the guarded UPDATE hits one row exactly when
      the row of that id is there and still pending. */
  lemma UpdateHitsItsRow(rows: seq<Row>, id: nat)
    requires Numbered(rows)
    ensures RowCount(rows, id) == if 1 <= id <= |rows| && rows[id - 1].status == Pending then 1 else 0
  {
    if 1 <= id <= |rows| && rows[id - 1].status == Pending {
      OneHit(rows, id, id - 1);
    } else {
      NoHit(rows, id);
    }
  }

  // ── engine operations ───────────────────────────────────────────────────

  datatype LogEnv = LogEnv(guardFails: bool, rotate: RotateEnv, insertFails: bool)

  // `id` None with `raised` false is a swallowed failure.
  datatype Logged = Logged(engine: Engine, store: Store, id: Option<nat>, raised: bool)

  function Failed(e: Engine, s: Store, strict: bool): Logged {
    Logged(Engine(e.ok, e.blocked || strict, e.failures + 1), s, None, strict)
  }

  function Log(e: Engine, s: Store, m: Meta, status: Status, result: Value, durationMs: int, strict: bool, env: LogEnv): Logged {
    if !e.ok || env.guardFails then Failed(e, s, strict)
    else
      var s' := MaybeRotate(s, env.rotate);
      if env.insertFails || s'.active.None? then Failed(e, s', strict)
      else Logged(e, Insert(s', m, status, result, durationMs), Some(|s'.active.value| + 1), false)
  }

  function Begin(e: Engine, s: Store, m: Meta, env: LogEnv): Logged {
    if e.blocked then Logged(e, s, None, true)
    else Log(e, s, m, Pending, Null, 0, true, env)
  }

  datatype Finished = Finished(engine: Engine, store: Store, raised: bool)

  function Finish(e: Engine, s: Store, id: nat, result: Value, status: Status, durationMs: int, fails: bool): Finished {
    if fails || s.active.None? || RowCount(s.active.value, id) != 1
    then Finished(Engine(e.ok, true, e.failures + 1), s, true)
    else Finished(e, s.(active := Some(Update(s.active.value, id, status, Summarize(result), durationMs))), false)
  }

  const INTERRUPTED: Value := Dict([Entry("auditInterrupted", Bool(true))])

  function Reconcile(s: Store, id: nat): Store {
    if s.active.None? then s
    else s.(active := Some(Resolve(s.active.value, id)))
  }

  function Resolve(rows: seq<Row>, id: nat): (out: seq<Row>)
    ensures |out| == |rows|
    ensures forall i :: 0 <= i < |rows| ==>
              out[i] == if Hit(rows[i], id) then rows[i].(status := Unknown, summary := INTERRUPTED) else rows[i]
  {
    if rows == [] then []
    else [if Hit(rows[0], id) then rows[0].(status := Unknown, summary := INTERRUPTED) else rows[0]]
         + Resolve(rows[1..], id)
  }

  function PendingCount(rows: seq<Row>): nat {
    if rows == [] then 0 else (if rows[0].status == Pending then 1 else 0) + PendingCount(rows[1..])
  }

  datatype Health = Health(available: bool, writeBlocked: bool, failures: nat, pending: Option<nat>)

  function HealthOf(e: Engine, s: Store, readFails: bool): Health {
    var pending := if !e.ok || readFails || s.active.None? then None else Some(PendingCount(s.active.value));
    Health(e.ok && pending.Some? && !e.blocked, e.blocked, e.failures, pending)
  }

  // ── the engine ──────────────────────────────────────────────────────────

  class AuditFile {
    var store: Store

    constructor ()
      ensures store == Store(None, [], [])
    {
      store := Store(None, [], []);
    }
  }

  class AuditEngine {
    const file: AuditFile
    var ok: bool
    var writeBlocked: bool
    var writeFailures: nat

    function State(): Engine
      reads this
    {
      Engine(ok, writeBlocked, writeFailures)
    }

    constructor (file: AuditFile, initFails: bool)
      modifies file
      ensures this.file == file
      ensures State() == Engine(!initFails, false, 0)
      ensures file.store == if initFails then old(file.store) else InitDb(old(file.store))
    {
      this.file := file;
      ok, writeBlocked, writeFailures := false, false, 0;
      new;
      if !initFails {
        InitDatabase();
        ok := true;
      }
    }

    method InitDatabase()
      modifies file
      ensures file.store == InitDb(old(file.store))
    {
      if file.store.active.None? {
        file.store := file.store.(active := Some([]));
      }
    }

    // `failsAfter`: the unlink that raises, if any.
    method CleanupArchives(failsAfter: Option<nat>)
      modifies file
      ensures file.store == Cleanup(old(file.store), match failsAfter case Some(k) => k case None => Excess(old(file.store)))
    {
      var all, lost := file.store.archives, file.store.lost;
      var n := if |all| > MAX_ARCHIVES then |all| - MAX_ARCHIVES else 0;
      CutBounds(all, n);
      var gone := [];
      var k := 0;
      while k < n && Some(k) != failsAfter
        invariant 0 <= k <= n && (failsAfter.Some? ==> k <= failsAfter.value)
        invariant gone == Cut(all, n, k)
        invariant file.store == old(file.store).(archives := Kept(all, n, k), lost := lost + gone)
      {
        CutOneMore(all, n, k);
        gone := [all[n - 1 - k]] + gone;
        k := k + 1;
        file.store := file.store.(archives := all[..n - k] + all[n..], lost := lost + gone);
      }
    }

    method Rotate(env: RotateEnv)
      modifies file
      ensures file.store == MaybeRotate(old(file.store), env)
    {
      if file.store.active.None? || !env.oversize || env.fault == ProbeFails {
        return;
      }
      if exists i :: 0 <= i < |file.store.active.value| && file.store.active.value[i].status == Pending {
        return;
      }
      if env.fault == RenameFails {
        return;
      }
      file.store := Rename(file.store, env.name);
      if env.fault == InitFails {
        return;
      }
      InitDatabase();
      CleanupArchives(if env.fault.CleanupFails? then Some(env.fault.unlinked) else None);
    }

    method WriteRow(m: Meta, status: Status, result: Value, durationMs: int, strict: bool, env: LogEnv)
      returns (id: Option<nat>, raised: bool)
      modifies this, file
      ensures Logged(State(), file.store, id, raised) ==
              Log(old(State()), old(file.store), m, status, result, durationMs, strict, env)
    {
      if !ok || env.guardFails {
        writeFailures := writeFailures + 1;
        if strict {
          writeBlocked := true;
        }
        return None, strict;
      }
      Rotate(env.rotate);
      if env.insertFails || file.store.active.None? {
        writeFailures := writeFailures + 1;
        if strict {
          writeBlocked := true;
        }
        return None, strict;
      }
      var rows := file.store.active.value;
      var row := Row(|rows| + 1, m, status, Summarize(result), durationMs);
      file.store := file.store.(active := Some(rows + [row]));
      return Some(row.id), false;
    }

    method BeginWrite(m: Meta, env: LogEnv) returns (id: Option<nat>, raised: bool)
      modifies this, file
      ensures Logged(State(), file.store, id, raised) == Begin(old(State()), old(file.store), m, env)
      ensures raised <==> id.None?
    {
      if writeBlocked {
        return None, true;
      }
      id, raised := WriteRow(m, Pending, Null, 0, true, env);
    }

    method FinishWrite(id: nat, result: Value, status: Status, durationMs: int, fails: bool)
      returns (raised: bool)
      modifies this, file
      ensures Finished(State(), file.store, raised) ==
              Finish(old(State()), old(file.store), id, result, status, durationMs, fails)
    {
      if fails || file.store.active.None? || RowCount(file.store.active.value, id) != 1 {
        writeBlocked := true;
        writeFailures := writeFailures + 1;
        return true;
      }
      var rows := file.store.active.value;
      file.store := file.store.(active := Some(Update(rows, id, status, Summarize(result), durationMs)));
      return false;
    }

    method ReconcilePending(id: nat) returns (found: bool)
      modifies file
      ensures file.store == Reconcile(old(file.store), id)
      ensures found <==> old(file.store).active.Some? && RowCount(old(file.store).active.value, id) == 1
    {
      if file.store.active.None? {
        return false;
      }
      var rows := file.store.active.value;
      found := RowCount(rows, id) == 1;
      file.store := file.store.(active := Some(Resolve(rows, id)));
    }

    method ReadHealth(readFails: bool) returns (h: Health)
      ensures h == HealthOf(State(), file.store, readFails)
    {
      var pending: Option<nat> := None;
      if ok && !readFails && file.store.active.Some? {
        pending := Some(PendingCount(file.store.active.value));
      }
      h := Health(ok && pending.Some? && !writeBlocked, writeBlocked, writeFailures, pending);
    }
  }

  // ── what rotation keeps ─────────────────────────────────────────────────

  function Flat(archives: seq<Archive>): seq<Row> {
    if archives == [] then [] else archives[0].rows + Flat(archives[1..])
  }

  // Every row ever committed, oldest first: deleted archives, archives, active file.
  function History(s: Store): seq<Row> {
    Flat(s.lost) + Flat(s.archives) + (if s.active.Some? then s.active.value else [])
  }

  lemma {:induction false} FlatAppend(a: seq<Archive>, b: seq<Archive>)
    ensures Flat(a + b) == Flat(a) + Flat(b)
  {
    if a == [] {
      assert a + b == b;
    } else {
      assert (a + b)[1..] == a[1..] + b;
      FlatAppend(a[1..], b);
    }
  }

  predicate NameTaken(archives: seq<Archive>, name: string) {
    exists i :: 0 <= i < |archives| && archives[i].name == name
  }

  lemma {:induction false} FreshNameRemovesNothing(archives: seq<Archive>, name: string)
    ensures |Without(archives, name)| + |Named(archives, name)| == |archives|
    ensures Named(archives, name) == [] <==> !NameTaken(archives, name)
    ensures Named(archives, name) == [] ==> Without(archives, name) == archives
  {
    if archives != [] {
      FreshNameRemovesNothing(archives[1..], name);
      if NameTaken(archives[1..], name) {
        var i :| 0 <= i < |archives[1..]| && archives[1..][i].name == name;
        assert archives[i + 1].name == name;
      }
      if NameTaken(archives, name) && archives[0].name != name {
        var i :| 0 <= i < |archives| && archives[i].name == name;
        assert archives[1..][i - 1].name == name;
      }
    }
  }

  /** A rotation's rename keeps every earlier archive exactly when its name, which is only
      precise to the second, is not taken; otherwise it overwrites one. */
  lemma RenameKeepsArchivesIffNameIsFree(s: Store, name: string)
    requires s.active.Some?
    ensures Rename(s, name).archives == s.archives + [Archive(name, s.active.value)] <==>
            !NameTaken(s.archives, name)
    ensures Rename(s, name).lost == s.lost <==> !NameTaken(s.archives, name)
    ensures !NameTaken(s.archives, name) ==> History(Rename(s, name)) == History(s)
  {
    FreshNameRemovesNothing(s.archives, name);
    if Named(s.archives, name) == [] {
      FlatAppend(s.archives, [Archive(name, s.active.value)]);
      assert Flat([Archive(name, s.active.value)]) == s.active.value + Flat([]);
      assert s.lost + [] == s.lost;
    } else {
      assert |Rename(s, name).lost| > |s.lost|;
      assert |Rename(s, name).archives| < |s.archives| + 1;
    }
  }

  predicate IsSuffix(a: seq<Archive>, b: seq<Archive>) {
    |a| <= |b| && b[|b| - |a|..] == a
  }

  predicate DistinctNames(archives: seq<Archive>) {
    forall i, j :: 0 <= i < j < |archives| ==> archives[i].name != archives[j].name
  }

  lemma KeptIsSuffixIff(all: seq<Archive>, n: nat, done: nat)
    requires done <= n <= |all| && DistinctNames(all)
    ensures IsSuffix(Kept(all, n, done), all) <==> done == 0 || done == n
  {
    CutBounds(all, n);
    var kept := Kept(all, n, done);
    if 0 < done < n {
      assert kept[0] == all[0] && |all| - |kept| == done;
      assert all[done..][0] == all[done];
      assert all[0].name != all[done].name;
    } else if done == 0 {
      assert all[|all| - |all|..] == all;
    } else {
      assert all[|all| - |all[n..]|..] == all[n..];
    }
  }

  lemma KeptEndsLikeAll(all: seq<Archive>, n: nat, done: nat)
    requires done <= n <= |all|
    ensures IsSuffix(all[n..], Kept(all, n, done))
  {
    assert Kept(all, n, done)[n - done..] == all[n..];
  }

  /** Cleanup always keeps the newest five. What it keeps is the newest stretch of the log,
      with no gap, exactly when it stopped before the first unlink or after the last: the
      excess is unlinked newest first, so an error in between leaves older archives behind. */
  lemma CleanupLeavesNoGapIff(s: Store, k: nat)
    requires DistinctNames(s.archives)
    ensures IsSuffix(Cleanup(s, k).archives, s.archives) <==> k == 0 || k >= Excess(s)
    ensures IsSuffix(s.archives[Excess(s)..], Cleanup(s, k).archives)
    ensures |s.archives[Excess(s)..]| == if |s.archives| < MAX_ARCHIVES then |s.archives| else MAX_ARCHIVES
  {
    var done := if k < Excess(s) then k else Excess(s);
    KeptIsSuffixIff(s.archives, Excess(s), done);
    KeptEndsLikeAll(s.archives, Excess(s), done);
  }

  function TwoPastTheLimit(): Store {
    Store(Some([]), [Archive("1", []), Archive("2", []), Archive("3", []), Archive("4", []),
                     Archive("5", []), Archive("6", []), Archive("7", [])], [])
  }

  /** With seven archives and an error on the second unlink, the second oldest is gone and
      the oldest stays. */
  lemma CleanupCanLeaveAGap()
    ensures var s := Cleanup(TwoPastTheLimit(), 1);
            s.archives[0].name == "1" && s.archives[1].name == "3" && s.lost == [Archive("2", [])]
  {
    var s := TwoPastTheLimit();
    assert Excess(s) == 2;
    assert s.archives[1..2] == [Archive("2", [])];
  }

  // No overwritten name, no half-done cleanup.
  predicate CleanRotation(s: Store, env: RotateEnv) {
    !NameTaken(s.archives, env.name) && !env.fault.CleanupFails?
  }

  lemma CleanupKeepsHistory(s: Store)
    ensures History(Cleanup(s, Excess(s))) == History(s)
  {
    var n := Excess(s);
    CutBounds(s.archives, n);
    FlatAppend(s.lost, s.archives[..n]);
    FlatAppend(s.archives[..n], s.archives[n..]);
    assert s.archives[..n] + s.archives[n..] == s.archives;
    ConcatAssoc(Flat(s.lost), Flat(s.archives[..n]), Flat(s.archives[n..]));
  }

  /** A rotation moves rows between files and loses none, at whatever point it fails. */
  lemma RotationKeepsHistory(s: Store, env: RotateEnv)
    requires CleanRotation(s, env)
    ensures History(MaybeRotate(s, env)) == History(s)
  {
    if MaybeRotate(s, env) != s {
      RenameKeepsArchivesIffNameIsFree(s, env.name);
      var renamed := Rename(s, env.name);
      if env.fault != InitFails {
        assert History(InitDb(renamed)) == History(renamed);
        CleanupKeepsHistory(InitDb(renamed));
      }
    }
  }

  predicate AllTerminal(rows: seq<Row>) {
    forall i :: 0 <= i < |rows| ==> rows[i].status != Pending
  }

  predicate Sealed(archives: seq<Archive>) {
    forall i :: 0 <= i < |archives| ==> AllTerminal(archives[i].rows)
  }

  lemma InsertAppends(s: Store, m: Meta, status: Status, result: Value, durationMs: int)
    requires s.active.Some?
    ensures History(Insert(s, m, status, result, durationMs)) ==
            History(s) + [Row(|s.active.value| + 1, m, status, Summarize(result), durationMs)]
  {
    ConcatAssoc(Flat(s.lost) + Flat(s.archives), s.active.value,
                [Row(|s.active.value| + 1, m, status, Summarize(result), durationMs)]);
  }

  /** A log call either leaves the history alone or appends its one row, and says which. */
  lemma LogAppendsAtMostOneRow(e: Engine, s: Store, m: Meta, status: Status, result: Value, durationMs: int, strict: bool, env: LogEnv)
    requires CleanRotation(s, env.rotate)
    ensures var out := Log(e, s, m, status, result, durationMs, strict, env);
            match out.id
            case None => History(out.store) == History(s) && out.engine.failures == e.failures + 1
            case Some(id) =>
              && History(out.store) == History(s) + [Row(id, m, status, Summarize(result), durationMs)]
              && out.engine == e && !out.raised
  {
    if e.ok && !env.guardFails {
      RotationKeepsHistory(s, env.rotate);
      var s' := MaybeRotate(s, env.rotate);
      if s'.active.Some? {
        InsertAppends(s', m, status, result, durationMs);
      }
    }
  }

  /** Blocking: a strict log or a finish that fails blocks the engine; a blocked engine
      begins no write, stays blocked, and reports itself unavailable. */
  lemma FailuresBlock(e: Engine, s: Store, m: Meta, status: Status, result: Value, durationMs: int, strict: bool,
                      env: LogEnv, id: nat, fails: bool)
    ensures var out := Log(e, s, m, status, result, durationMs, strict, env);
            && (out.raised <==> strict && out.id.None?)
            && (out.engine.blocked <==> e.blocked || out.raised)
    ensures var fin := Finish(e, s, id, result, status, durationMs, fails);
            fin.engine.blocked <==> e.blocked || fin.raised
    ensures e.blocked ==> var out := Begin(e, s, m, env);
                          out.raised && out.id.None? && out.store == s && out.engine == e
    ensures e.blocked ==> !HealthOf(e, s, fails).available
  {
  }
}
