/**
 The write-ahead-intent protocol: any number of engines, in any number of processes, on
 one audit file that is rotated underneath them while storage may fail at every step.

 A guarded log call is broken into the steps other processes can see: enter the guard,
 probe for pending rows, rename, re-create, clean up, insert. Finishing a write and
 reconciling an orphan take no guard and may fall between any two of them. Row ids start
 again after a rotation, so that a finish hits its own row is an invariant, not a fact
 about one function.
 */
module AuditProtocol {
  import opened Common
  import opened Json
  import opened AuditLog

  datatype Phase =
    | Asked               // passed the engine's checks
    | Inserting           // holds the guard
    | Running(id: nat)    // intent committed; the upstream write may be under way
    | Orphaned(id: nat)   // the process died, or its finish failed
    | Done
    | Refused

  datatype Call = Call(proc: nat, write: bool, phase: Phase)

  datatype Stage = Entered | Rotating | Renamed | Reopened | Ready

  datatype Guard = Free | Held(call: nat, stage: Stage)

  datatype Proc = Proc(engine: Engine, alive: bool)

  // `effects` are the calls whose upstream write took effect.
  datatype World = World(store: Store, procs: seq<Proc>, calls: seq<Call>, guard: Guard, effects: set<nat>)

  const START: World := World(Store(None, [], []), [], [], Free, {})

  datatype Step =
    | Open(initFails: bool)
    | Ask(proc: nat, write: bool)
    | Enter(call: nat, guardFails: bool)
    | Probe(oversize: bool, fails: bool)
    | RenameFile(name: string, fails: bool)
    | Reopen(fails: bool)
    | CleanUp(unlinked: nat)
    | InsertRow(tool: string, params: Value, risk: string, status: Status, result: Value, durationMs: int, fails: bool)
    | Effect(call: nat)
    | FinishCall(call: nat, status: Status, result: Value, durationMs: int, fails: bool)
    | ReconcileRow(id: nat)
    | Crash(proc: nat)

  // ── one step ────────────────────────────────────────────────────────────

  function Repaint(calls: seq<Call>, c: nat, phase: Phase): seq<Call>
    requires c < |calls|
  {
    calls[c := calls[c].(phase := phase)]
  }

  function At(w: World, c: nat, phase: Phase): seq<Call>
    requires c < |w.calls|
  {
    Repaint(w.calls, c, phase)
  }

  // The engine behind a call counts a failure; a failed write blocks it.
  function Hurt(w: World, p: nat, strict: bool): seq<Proc> {
    if p < |w.procs| then
      var e := w.procs[p].engine;
      w.procs[p := w.procs[p].(engine := Engine(e.ok, e.blocked || strict, e.failures + 1))]
    else w.procs
  }

  predicate Holding(w: World, stage: Stage) {
    w.guard.Held? && w.guard.stage == stage && w.guard.call < |w.calls|
  }

  function Kill(calls: seq<Call>, p: nat): (out: seq<Call>)
    ensures |out| == |calls|
    ensures forall c :: 0 <= c < |calls| ==>
              out[c] == if calls[c].proc != p then calls[c]
                        else match calls[c].phase
                             case Running(id) => calls[c].(phase := Orphaned(id))
                             case Asked => calls[c].(phase := Refused)
                             case Inserting => calls[c].(phase := Refused)
                             case _ => calls[c]
  {
    if calls == [] then []
    else
      var n := |calls| - 1;
      Kill(calls[..n], p) +
      [if calls[n].proc != p then calls[n]
       else match calls[n].phase
            case Running(id) => calls[n].(phase := Orphaned(id))
            case Asked => calls[n].(phase := Refused)
            case Inserting => calls[n].(phase := Refused)
            case _ => calls[n]]
  }

  // An operator reconciles only a row whose process no longer executes the write.
  predicate MayReconcile(w: World, id: nat) {
    && w.store.active.Some?
    && 1 <= id <= |w.store.active.value|
    && var r := w.store.active.value[id - 1];
       r.meta.call < |w.calls| && w.calls[r.meta.call].phase.Orphaned?
  }

  function Advance(w: World, stage: Stage): World
    requires w.guard.Held?
  {
    w.(guard := Held(w.guard.call, stage))
  }

  // The world after a step; a step that is not possible changes nothing.
  function Next(w: World, st: Step): World {
    match st
    case Open(initFails) =>
      w.(store := if initFails then w.store else InitDb(w.store),
         procs := w.procs + [Proc(Engine(!initFails, false, 0), true)])

    case Ask(p, write) =>
      if p >= |w.procs| || !w.procs[p].alive then w
      else if write && w.procs[p].engine.blocked then w.(calls := w.calls + [Call(p, write, Refused)])
      else if !w.procs[p].engine.ok then
        w.(calls := w.calls + [Call(p, write, Refused)], procs := Hurt(w, p, write))
      else w.(calls := w.calls + [Call(p, write, Asked)])

    case Enter(c, guardFails) =>
      if c >= |w.calls| || w.calls[c].phase != Asked then w
      else if guardFails then w.(calls := At(w, c, Refused), procs := Hurt(w, w.calls[c].proc, w.calls[c].write))
      else if w.guard != Free then w
      else w.(calls := At(w, c, Inserting), guard := Held(c, Entered))

    case Probe(oversize, fails) =>
      if !Holding(w, Entered) then w
      else if w.store.active.None? || !oversize || fails || HasPending(w.store.active.value) then Advance(w, Ready)
      else Advance(w, Rotating)

    case RenameFile(name, fails) =>
      if !Holding(w, Rotating) || w.store.active.None? then w
      else if fails then Advance(w, Ready)
      else Advance(w.(store := Rename(w.store, name)), Renamed)

    case Reopen(fails) =>
      if !Holding(w, Renamed) then w
      else if fails then Advance(w, Ready)
      else Advance(w.(store := InitDb(w.store)), Reopened)

    case CleanUp(unlinked) =>
      if !Holding(w, Reopened) then w
      else Advance(w.(store := Cleanup(w.store, unlinked)), Ready)

    case InsertRow(tool, params, risk, status, result, durationMs, fails) =>
      if !Holding(w, Ready) then w
      else
        var c := w.guard.call;
        if fails || w.store.active.None? then
          w.(calls := At(w, c, Refused), guard := Free, procs := Hurt(w, w.calls[c].proc, w.calls[c].write))
        else
          var id := |w.store.active.value| + 1;
          if w.calls[c].write then
            w.(calls := At(w, c, Running(id)), guard := Free,
               store := Insert(w.store, Meta(c, tool, params, risk), Pending, result, durationMs))
          else if status == Pending then w
          else
            w.(calls := At(w, c, Done), guard := Free,
               store := Insert(w.store, Meta(c, tool, params, risk), status, result, durationMs))

    case Effect(c) =>
      if c < |w.calls| && w.calls[c].phase.Running? then w.(effects := w.effects + {c}) else w

    case FinishCall(c, status, result, durationMs, fails) =>
      if c >= |w.calls| || !w.calls[c].phase.Running? || status == Pending then w
      else
        var id := w.calls[c].phase.id;
        var out := Finish(Engine(true, false, 0), w.store, id, result, status, durationMs, fails);
        if out.raised then
          w.(calls := At(w, c, Orphaned(id)), procs := Hurt(w, w.calls[c].proc, true))
        else w.(calls := At(w, c, Done), store := out.store)

    case ReconcileRow(id) =>
      if MayReconcile(w, id) then w.(store := Reconcile(w.store, id)) else w

    case Crash(p) =>
      if p >= |w.procs| then w
      else
        w.(procs := w.procs[p := w.procs[p].(alive := false)],
           calls := Kill(w.calls, p),
           guard := if w.guard.Held? && w.guard.call < |w.calls| && w.calls[w.guard.call].proc == p
                    then Free else w.guard)
  }

  function Exec(w: World, steps: seq<Step>): World {
    if steps == [] then w else Next(Exec(w, steps[..|steps| - 1]), steps[|steps| - 1])
  }

  // ── the invariant ───────────────────────────────────────────────────────

  function RowsOf(archives: seq<Archive>): set<Row> {
    set a, r | a in archives && r in a.rows :: r
  }

  function ActiveRows(s: Store): set<Row> {
    if s.active.Some? then set r | r in s.active.value else {}
  }

  // Every row ever committed, as a set.
  function Rows(s: Store): set<Row> {
    ActiveRows(s) + RowsOf(s.archives) + RowsOf(s.lost)
  }

  predicate Committed(phase: Phase) {
    phase.Running? || phase.Orphaned? || phase.Done?
  }

  ghost predicate SoundStore(s: Store) {
    (s.active.Some? ==> Numbered(s.active.value)) && Sealed(s.archives) && Sealed(s.lost)
  }

  // A row belongs to a call that committed it, and a pending one to a call still open.
  ghost predicate RowFits(calls: seq<Call>, r: Row) {
    && r.meta.call < |calls|
    && Committed(calls[r.meta.call].phase)
    && (r.status == Pending ==>
          calls[r.meta.call].phase == Running(r.id) || calls[r.meta.call].phase == Orphaned(r.id))
  }

  ghost predicate OneRowPerCall(rows: set<Row>) {
    forall r, q :: r in rows && q in rows && r.meta.call == q.meta.call ==> r == q
  }

  ghost predicate HasRow(rows: set<Row>, c: nat) {
    exists r :: r in rows && r.meta.call == c
  }

  // The pending row of call c is in the active file, under the id the call was given.
  ghost predicate IntentInPlace(s: Store, c: nat, id: nat) {
    && s.active.Some?
    && 1 <= id <= |s.active.value|
    && s.active.value[id - 1].meta.call == c
    && s.active.value[id - 1].status == Pending
  }

  ghost predicate GuardFits(w: World) {
    w.guard.Held? ==>
      && w.guard.call < |w.calls|
      && w.calls[w.guard.call].phase == Inserting
      && (w.guard.stage == Rotating ==> w.store.active.Some? && !HasPending(w.store.active.value))
  }

  ghost predicate RowsFit(calls: seq<Call>, rows: set<Row>) {
    && (forall r :: r in rows ==> RowFits(calls, r))
    && OneRowPerCall(rows)
    && (forall c: nat :: c < |calls| && Committed(calls[c].phase) ==> HasRow(rows, c))
  }

  ghost predicate IntentsInPlace(s: Store, calls: seq<Call>) {
    forall c: nat :: c < |calls| && calls[c].phase.Running? ==> IntentInPlace(s, c, calls[c].phase.id)
  }

  ghost predicate EffectsFit(calls: seq<Call>, effects: set<nat>) {
    forall c: nat :: c in effects ==> c < |calls| && Committed(calls[c].phase)
  }

  ghost predicate Core(s: Store, calls: seq<Call>, effects: set<nat>) {
    SoundStore(s) && RowsFit(calls, Rows(s)) && IntentsInPlace(s, calls) && EffectsFit(calls, effects)
  }

  ghost predicate Inv(w: World) {
    Core(w.store, w.calls, w.effects) && GuardFits(w)
  }

  // ── what each storage operation does to the rows ────────────────────────

  lemma {:induction false} SplitMembers(archives: seq<Archive>, name: string, a: Archive)
    ensures a in archives <==> a in Without(archives, name) || a in Named(archives, name)
  {
    if archives != [] {
      SplitMembers(archives[1..], name, a);
    }
  }

  lemma RowsOfAppend(a: seq<Archive>, b: seq<Archive>)
    ensures RowsOf(a + b) == RowsOf(a) + RowsOf(b)
    ensures Sealed(a + b) <==> Sealed(a) && Sealed(b)
  {
    assert forall i :: 0 <= i < |b| ==> (a + b)[|a| + i] == b[i];
    assert forall i :: 0 <= i < |a| ==> (a + b)[i] == a[i];
  }

  lemma SameMembers(a: seq<Archive>, b: seq<Archive>, c: seq<Archive>)
    requires forall x :: x in a <==> x in b || x in c
    ensures RowsOf(a) == RowsOf(b) + RowsOf(c)
    ensures Sealed(a) ==> Sealed(b) && Sealed(c)
  {
    if Sealed(a) {
      forall i | 0 <= i < |b| ensures AllTerminal(b[i].rows) {
        assert b[i] in a;
      }
      forall i | 0 <= i < |c| ensures AllTerminal(c[i].rows) {
        assert c[i] in a;
      }
    }
  }

  lemma RenameMovesRows(s: Store, name: string)
    requires s.active.Some? && SoundStore(s) && !HasPending(s.active.value)
    ensures SoundStore(Rename(s, name)) && Rows(Rename(s, name)) == Rows(s)
  {
    forall a ensures a in s.archives <==> a in Without(s.archives, name) || a in Named(s.archives, name) {
      SplitMembers(s.archives, name, a);
    }
    SameMembers(s.archives, Without(s.archives, name), Named(s.archives, name));
    var moved := [Archive(name, s.active.value)];
    RowsOfAppend(Without(s.archives, name), moved);
    RowsOfAppend(s.lost, Named(s.archives, name));
    assert moved[0] in moved;
    assert RowsOf(moved) == set r | r in s.active.value;
  }

  lemma CleanupSplits(all: seq<Archive>, n: nat, done: nat, a: Archive)
    requires done <= n <= |all|
    ensures a in all <==> a in Kept(all, n, done) || a in Cut(all, n, done)
  {
    assert all == all[..n - done] + all[n - done..n] + all[n..];
  }

  lemma CleanupMovesRows(s: Store, k: nat)
    requires SoundStore(s)
    ensures SoundStore(Cleanup(s, k)) && Rows(Cleanup(s, k)) == Rows(s)
    ensures Cleanup(s, k).active == s.active
  {
    var n := Excess(s);
    var done := if k < n then k else n;
    forall a ensures a in s.archives <==> a in Kept(s.archives, n, done) || a in Cut(s.archives, n, done) {
      CleanupSplits(s.archives, n, done, a);
    }
    SameMembers(s.archives, Kept(s.archives, n, done), Cut(s.archives, n, done));
    RowsOfAppend(s.lost, Cut(s.archives, n, done));
  }

  lemma InsertAddsRow(s: Store, m: Meta, status: Status, result: Value, durationMs: int)
    requires s.active.Some? && SoundStore(s)
    ensures SoundStore(Insert(s, m, status, result, durationMs))
    ensures var row := Row(|s.active.value| + 1, m, status, Summarize(result), durationMs);
            && Rows(Insert(s, m, status, result, durationMs)) == Rows(s) + {row}
            && Insert(s, m, status, result, durationMs).active == Some(s.active.value + [row])
  {
  }

  lemma SealedHasNoPending(archives: seq<Archive>, r: Row)
    requires Sealed(archives) && r in RowsOf(archives)
    ensures r.status != Pending
  {
    var a :| a in archives && r in a.rows;
    var i :| 0 <= i < |archives| && archives[i] == a;
    var j :| 0 <= j < |a.rows| && a.rows[j] == r;
  }

  // Row j went from pending to terminal and no other row changed.
  ghost predicate SettledAt(before: seq<Row>, after: seq<Row>, j: nat) {
    && |after| == |before| && j < |before|
    && before[j].status == Pending && after[j].status != Pending
    && after[j].id == before[j].id && after[j].meta == before[j].meta
    && forall i :: 0 <= i < |before| && i != j ==> after[i] == before[i]
  }

  lemma SettledRows(s: Store, rows: seq<Row>, j: nat)
    requires SoundStore(s) && s.active.Some? && SettledAt(s.active.value, rows, j)
    ensures SoundStore(s.(active := Some(rows)))
    ensures Rows(s.(active := Some(rows))) == Rows(s) - {s.active.value[j]} + {rows[j]}
  {
    var before, after := s.active.value, s.(active := Some(rows));
    forall r ensures r in Rows(after) <==> r in Rows(s) - {before[j]} + {rows[j]} {
      if r in ActiveRows(after) {
        var i :| 0 <= i < |rows| && rows[i] == r;
        assert i != j ==> before[i].id != before[j].id;
      }
      if r in ActiveRows(s) {
        var i :| 0 <= i < |rows| && before[i] == r;
        assert rows[i] in rows;
      }
      if r == before[j] && r !in ActiveRows(after) {
        if r in RowsOf(s.archives) {
          SealedHasNoPending(s.archives, r);
        }
        if r in RowsOf(s.lost) {
          SealedHasNoPending(s.lost, r);
        }
      }
      assert rows[j] in rows;
    }
  }

  // ── every step keeps the invariant ──────────────────────────────────────

  // No call gains or loses a row: new calls have none, and a running one may be orphaned.
  ghost predicate NoCommit(before: seq<Call>, after: seq<Call>) {
    && |before| <= |after|
    && (forall c :: |before| <= c < |after| ==> !Committed(after[c].phase))
    && forall c :: 0 <= c < |before| ==>
         || after[c].phase == before[c].phase
         || (!Committed(after[c].phase) && !Committed(before[c].phase))
         || (before[c].phase.Running? && after[c].phase == Orphaned(before[c].phase.id))
  }

  lemma CallsMove(s: Store, before: seq<Call>, after: seq<Call>, effects: set<nat>)
    requires Core(s, before, effects) && NoCommit(before, after)
    ensures Core(s, after, effects)
  {
    forall r | r in Rows(s) ensures RowFits(after, r) {
      assert RowFits(before, r);
    }
  }

  // The same rows in other files; the active file changes only if it holds no pending row.
  lemma FilesMove(s: Store, s': Store, calls: seq<Call>, effects: set<nat>)
    requires Core(s, calls, effects) && SoundStore(s') && Rows(s') == Rows(s)
    requires s'.active == s.active || (s.active.Some? ==> !HasPending(s.active.value))
    ensures Core(s', calls, effects)
  {
    forall c: nat | c < |calls| && calls[c].phase.Running?
      ensures IntentInPlace(s', c, calls[c].phase.id)
    {
      assert IntentInPlace(s, c, calls[c].phase.id);
    }
  }

  lemma AddedRowFits(calls: seq<Call>, rows: set<Row>, c: nat, row: Row, phase: Phase)
    requires RowsFit(calls, rows) && c < |calls| && !Committed(calls[c].phase)
    requires row.meta.call == c && phase == if row.status == Pending then Running(row.id) else Done
    ensures RowsFit(Repaint(calls, c, phase), rows + {row})
  {
    var after := Repaint(calls, c, phase);
    forall r | r in rows ensures RowFits(after, r) && r.meta.call != c {
      assert RowFits(calls, r);
    }
    forall d: nat | d < |after| && Committed(after[d].phase) ensures HasRow(rows + {row}, d) {
      if d == c {
        assert row in rows + {row};
      } else {
        assert HasRow(rows, d);
        var r :| r in rows && r.meta.call == d;
        assert r in rows + {row};
      }
    }
  }

  // The guard's holder commits its row.
  lemma CommitRow(s: Store, calls: seq<Call>, effects: set<nat>, c: nat, m: Meta, status: Status, result: Value, durationMs: int)
    requires Core(s, calls, effects) && s.active.Some? && c < |calls| && calls[c].phase == Inserting && m.call == c
    ensures var phase := if status == Pending then Running(|s.active.value| + 1) else Done;
            Core(Insert(s, m, status, result, durationMs), Repaint(calls, c, phase), effects)
  {
    InsertAddsRow(s, m, status, result, durationMs);
    var phase := if status == Pending then Running(|s.active.value| + 1) else Done;
    var s', after := Insert(s, m, status, result, durationMs), Repaint(calls, c, phase);
    AddedRowFits(calls, Rows(s), c, Row(|s.active.value| + 1, m, status, Summarize(result), durationMs), phase);
    forall d: nat | d < |after| && after[d].phase.Running? ensures IntentInPlace(s', d, after[d].phase.id) {
      if d != c {
        assert IntentInPlace(s, d, calls[d].phase.id);
      }
    }
  }

  lemma SettledRowFits(calls: seq<Call>, rows: set<Row>, c: nat, was: Row, now: Row, phase: Phase)
    requires RowsFit(calls, rows) && was in rows && was.meta.call == c < |calls| && was.status == Pending
    requires now.meta == was.meta && now.status != Pending
    requires phase == Done || (phase == calls[c].phase && phase.Orphaned?)
    ensures RowsFit(Repaint(calls, c, phase), rows - {was} + {now})
  {
    var after := Repaint(calls, c, phase);
    forall r | r in rows && r != was ensures RowFits(after, r) && r.meta.call != c {
      assert RowFits(calls, r);
    }
    forall d: nat | d < |after| && Committed(after[d].phase) ensures HasRow(rows - {was} + {now}, d) {
      if d == c {
        assert now in rows - {was} + {now};
      } else {
        assert HasRow(rows, d);
        var r :| r in rows && r.meta.call == d;
        assert r in rows - {was} + {now};
      }
    }
  }

  // A pending row becomes terminal and its call is no longer running.
  lemma SettleRow(s: Store, calls: seq<Call>, effects: set<nat>, rows: seq<Row>, j: nat, phase: Phase)
    requires Core(s, calls, effects) && s.active.Some? && SettledAt(s.active.value, rows, j)
    requires var c := s.active.value[j].meta.call;
             c < |calls| && (phase == Done || (phase == calls[c].phase && phase.Orphaned?))
    ensures Core(s.(active := Some(rows)), Repaint(calls, s.active.value[j].meta.call, phase), effects)
  {
    var c, s' := s.active.value[j].meta.call, s.(active := Some(rows));
    var after := Repaint(calls, c, phase);
    SettledRows(s, rows, j);
    assert s.active.value[j] in Rows(s);
    assert RowFits(calls, s.active.value[j]);
    SettledRowFits(calls, Rows(s), c, s.active.value[j], rows[j], phase);
    forall d: nat | d < |after| && after[d].phase.Running? ensures IntentInPlace(s', d, after[d].phase.id) {
      assert IntentInPlace(s, d, calls[d].phase.id);
    }
  }

  lemma OpenKeeps(w: World, initFails: bool)
    requires Inv(w)
    ensures Inv(Next(w, Open(initFails)))
  {
    var s' := Next(w, Open(initFails)).store;
    FilesMove(w.store, s', w.calls, w.effects);
  }

  lemma GuardStays(w: World, w': World)
    requires GuardFits(w) && w'.guard == w.guard && w'.store == w.store && |w.calls| <= |w'.calls|
    requires w.guard.Held? && w.guard.call < |w.calls| ==> w'.calls[w.guard.call] == w.calls[w.guard.call]
    ensures GuardFits(w')
  {
  }

  lemma AskKeeps(w: World, p: nat, write: bool)
    requires Inv(w)
    ensures Inv(Next(w, Ask(p, write)))
  {
    var w' := Next(w, Ask(p, write));
    CallsMove(w.store, w.calls, w'.calls, w.effects);
    GuardStays(w, w');
  }

  lemma EnterKeeps(w: World, c: nat, guardFails: bool)
    requires Inv(w)
    ensures Inv(Next(w, Enter(c, guardFails)))
  {
    var w' := Next(w, Enter(c, guardFails));
    CallsMove(w.store, w.calls, w'.calls, w.effects);
  }

  lemma RotationStepsKeep(w: World, st: Step)
    requires Inv(w) && (st.Probe? || st.RenameFile? || st.Reopen? || st.CleanUp?)
    ensures Inv(Next(w, st))
  {
    if st.RenameFile? && Holding(w, Rotating) && w.store.active.Some? && !st.fails {
      RenameMovesRows(w.store, st.name);
    }
    if st.CleanUp? && Holding(w, Reopened) {
      CleanupMovesRows(w.store, st.unlinked);
    }
    FilesMove(w.store, Next(w, st).store, w.calls, w.effects);
  }

  lemma InsertKeeps(w: World, st: Step)
    requires Inv(w) && st.InsertRow?
    ensures Inv(Next(w, st))
  {
    if Holding(w, Ready) {
      var c, w' := w.guard.call, Next(w, st);
      if st.fails || w.store.active.None? {
        CallsMove(w.store, w.calls, w'.calls, w.effects);
      } else {
        var status := if w.calls[c].write then Pending else st.status;
        CommitRow(w.store, w.calls, w.effects, c, Meta(c, st.tool, st.params, st.risk), status, st.result, st.durationMs);
      }
    }
  }

  // With its intent in place, a finish without a storage error settles that one row.
  lemma FinishHitsIntent(w: World, c: nat, status: Status, result: Value, durationMs: int)
    requires Inv(w) && c < |w.calls| && w.calls[c].phase.Running? && status != Pending
    ensures IntentInPlace(w.store, c, w.calls[c].phase.id)
    ensures var id, s' := w.calls[c].phase.id, Next(w, FinishCall(c, status, result, durationMs, false)).store;
            && s'.active.Some? && s' == w.store.(active := s'.active)
            && SettledAt(w.store.active.value, s'.active.value, id - 1)
            && s'.active.value[id - 1] == w.store.active.value[id - 1].(
                 status := status, summary := Summarize(result), durationMs := durationMs)
    ensures var w' := Next(w, FinishCall(c, status, result, durationMs, false));
            w' == w.(store := w'.store, calls := At(w, c, Done))
  {
    assert IntentInPlace(w.store, c, w.calls[c].phase.id);
    UpdateHitsItsRow(w.store.active.value, w.calls[c].phase.id);
  }

  lemma SettlingKeepsGuard(w: World, w': World, c: nat, j: nat)
    requires GuardFits(w) && w'.guard == w.guard && c < |w.calls| && w.calls[c].phase != Inserting
    requires |w'.calls| == |w.calls| && forall d :: 0 <= d < |w.calls| && d != c ==> w'.calls[d] == w.calls[d]
    requires w.store.active.Some? && w'.store.active.Some?
    requires SettledAt(w.store.active.value, w'.store.active.value, j)
    ensures GuardFits(w')
  {
  }

  lemma FinishKeeps(w: World, st: Step)
    requires Inv(w) && st.FinishCall?
    ensures Inv(Next(w, st))
  {
    var c, w' := st.call, Next(w, st);
    if c < |w.calls| && w.calls[c].phase.Running? && st.status != Pending {
      if st.fails {
        CallsMove(w.store, w.calls, w'.calls, w.effects);
        GuardStays(w, w');
      } else {
        FinishHitsIntent(w, c, st.status, st.result, st.durationMs);
        SettleRow(w.store, w.calls, w.effects, w'.store.active.value, w.calls[c].phase.id - 1, Done);
        SettlingKeepsGuard(w, w', c, w.calls[c].phase.id - 1);
      }
    }
  }

  lemma ReconcileHits(w: World, id: nat)
    requires Inv(w) && MayReconcile(w, id)
    ensures Next(w, ReconcileRow(id)) == w.(store := Reconcile(w.store, id))
    ensures var s' := Reconcile(w.store, id);
            && s'.active.Some? && s' == w.store.(active := s'.active)
            && if w.store.active.value[id - 1].status == Pending
               then SettledAt(w.store.active.value, s'.active.value, id - 1)
                    && s'.active.value[id - 1].status == Unknown
               else s' == w.store
  {
    if w.store.active.value[id - 1].status != Pending {
      assert Reconcile(w.store, id).active.value == w.store.active.value;
    }
  }

  lemma ReconcileSettles(w: World, id: nat)
    requires Inv(w) && MayReconcile(w, id) && w.store.active.value[id - 1].status == Pending
    ensures Core(Reconcile(w.store, id), w.calls, w.effects)
  {
    var c := w.store.active.value[id - 1].meta.call;
    ReconcileHits(w, id);
    SettleRow(w.store, w.calls, w.effects, Reconcile(w.store, id).active.value, id - 1, w.calls[c].phase);
    assert Repaint(w.calls, c, w.calls[c].phase) == w.calls;
  }

  lemma ReconcileKeeps(w: World, id: nat)
    requires Inv(w)
    ensures Inv(Next(w, ReconcileRow(id)))
  {
    if MayReconcile(w, id) {
      ReconcileHits(w, id);
      if w.store.active.value[id - 1].status == Pending {
        ReconcileSettles(w, id);
        SettlingKeepsGuard(w, Next(w, ReconcileRow(id)), w.store.active.value[id - 1].meta.call, id - 1);
      }
    }
  }

  lemma CrashKeeps(w: World, p: nat)
    requires Inv(w)
    ensures Inv(Next(w, Crash(p)))
  {
    var w' := Next(w, Crash(p));
    CallsMove(w.store, w.calls, w'.calls, w.effects);
  }

  lemma StepKeepsInv(w: World, st: Step)
    requires Inv(w)
    ensures Inv(Next(w, st))
  {
    match st
    case Open(initFails) => OpenKeeps(w, initFails);
    case Ask(p, write) => AskKeeps(w, p, write);
    case Enter(c, guardFails) => EnterKeeps(w, c, guardFails);
    case InsertRow(_, _, _, _, _, _, _) => InsertKeeps(w, st);
    case Effect(_) =>
    case FinishCall(_, _, _, _, _) => FinishKeeps(w, st);
    case ReconcileRow(id) => ReconcileKeeps(w, id);
    case Crash(p) => CrashKeeps(w, p);
    case _ => RotationStepsKeep(w, st);
  }

  lemma StartIsInv()
    ensures Inv(START)
  {
  }

  /** The invariant holds in every world any run reaches. */
  lemma {:induction false} EveryRunKeepsInv(w: World, steps: seq<Step>)
    requires Inv(w)
    ensures Inv(Exec(w, steps))
  {
    if steps != [] {
      EveryRunKeepsInv(w, steps[..|steps| - 1]);
      StepKeepsInv(Exec(w, steps[..|steps| - 1]), steps[|steps| - 1]);
    }
  }

  // ── what the runs guarantee ─────────────────────────────────────────────

  // The row call c committed, in the active file under the id c was given.
  function IntentRow(w: World, c: nat): Row
    requires c < |w.calls| && w.calls[c].phase.Running? && IntentInPlace(w.store, c, w.calls[c].phase.id)
  {
    w.store.active.value[w.calls[c].phase.id - 1]
  }

  lemma FinishSettlesIntent(w: World, c: nat, status: Status, result: Value, durationMs: int)
    requires Inv(w) && c < |w.calls| && w.calls[c].phase.Running? && status != Pending
    ensures IntentInPlace(w.store, c, w.calls[c].phase.id)
    ensures Rows(Next(w, FinishCall(c, status, result, durationMs, false)).store) ==
            Rows(w.store) - {IntentRow(w, c)}
            + {IntentRow(w, c).(status := status, summary := Summarize(result), durationMs := durationMs)}
    ensures Next(w, FinishCall(c, status, result, durationMs, false)).calls == At(w, c, Done)
  {
    FinishHitsIntent(w, c, status, result, durationMs);
    SettledRows(w.store, Next(w, FinishCall(c, status, result, durationMs, false)).store.active.value,
                w.calls[c].phase.id - 1);
  }

  /** Whatever rotations, failures and other processes did meanwhile, a running call's
      finish settles the one row that call committed and touches no other row. */
  lemma FinishResolvesItsOwnRow(steps: seq<Step>, c: nat, status: Status, result: Value, durationMs: int)
    requires c < |Exec(START, steps).calls| && Exec(START, steps).calls[c].phase.Running? && status != Pending
    ensures var w := Exec(START, steps);
            var w' := Next(w, FinishCall(c, status, result, durationMs, false));
            && w'.calls == At(w, c, Done)
            && IntentInPlace(w.store, c, w.calls[c].phase.id)
            && Rows(w'.store) ==
               Rows(w.store) - {IntentRow(w, c)}
               + {IntentRow(w, c).(status := status, summary := Summarize(result), durationMs := durationMs)}
  {
    StartIsInv();
    EveryRunKeepsInv(START, steps);
    FinishSettlesIntent(Exec(START, steps), c, status, result, durationMs);
  }

  /** No silent write: a call whose upstream write took effect has exactly one committed
      row, and when the write is sent that row is already there, pending. */
  lemma NoSilentWrite(steps: seq<Step>, c: nat)
    ensures var w := Exec(START, steps);
            c in w.effects ==> HasRow(Rows(w.store), c) && OneRowPerCall(Rows(w.store))
    ensures var w := Exec(START, steps);
            c !in w.effects && c in Next(w, Effect(c)).effects ==>
              c < |w.calls| && w.calls[c].phase.Running? && IntentInPlace(w.store, c, w.calls[c].phase.id)
  {
    StartIsInv();
    EveryRunKeepsInv(START, steps);
  }

  // Terminal rows stay as they are; a pending row stays or is settled once.
  ghost predicate Evolves(before: set<Row>, after: set<Row>) {
    forall r :: r in before ==>
      r in after || (r.status == Pending && exists q :: q in after && q.status != Pending && q.id == r.id && q.meta == r.meta)
  }

  // A log that grew at its end; rows inside it were at most settled.
  ghost predicate Extends(h: seq<Row>, h': seq<Row>) {
    && |h| <= |h'|
    && forall i :: 0 <= i < |h| ==>
         || h'[i] == h[i]
         || (h[i].status == Pending && h'[i].status != Pending && h'[i].id == h[i].id && h'[i].meta == h[i].meta)
  }

  lemma SettlingExtends(s: Store, s': Store, j: nat)
    requires s.active.Some? && s'.active.Some? && s' == s.(active := s'.active)
    requires SettledAt(s.active.value, s'.active.value, j)
    ensures Extends(History(s), History(s'))
  {
    var before := Flat(s.lost) + Flat(s.archives);
    assert History(s) == before + s.active.value && History(s') == before + s'.active.value;
  }

  lemma SettlingEvolves(s: Store, s': Store, j: nat)
    requires SoundStore(s) && s.active.Some? && s'.active.Some? && s' == s.(active := s'.active)
    requires SettledAt(s.active.value, s'.active.value, j)
    ensures Evolves(Rows(s), Rows(s'))
  {
    SettledRows(s, s'.active.value, j);
    assert s'.active.value[j] in Rows(s');
  }

  lemma FilesEvolve(w: World, st: Step)
    requires Inv(w) && !st.FinishCall? && !st.ReconcileRow?
    ensures Evolves(Rows(w.store), Rows(Next(w, st).store))
  {
    if st.RenameFile? && Holding(w, Rotating) && w.store.active.Some? && !st.fails {
      RenameMovesRows(w.store, st.name);
    }
    if st.CleanUp? && Holding(w, Reopened) {
      CleanupMovesRows(w.store, st.unlinked);
    }
  }

  lemma StepEvolvesRows(w: World, st: Step)
    requires Inv(w)
    ensures Evolves(Rows(w.store), Rows(Next(w, st).store))
  {
    var s' := Next(w, st).store;
    if s' == w.store {
    } else if st.FinishCall? {
      FinishHitsIntent(w, st.call, st.status, st.result, st.durationMs);
      SettlingEvolves(w.store, s', w.calls[st.call].phase.id - 1);
    } else if st.ReconcileRow? {
      ReconcileHits(w, st.id);
      SettlingEvolves(w.store, s', st.id - 1);
    } else {
      FilesEvolve(w, st);
    }
  }

  /** A committed row is never lost or changed, except that it is settled at most once:
      from then on it keeps its terminal status for ever, and it stays its call's only row. */
  lemma {:induction false} RowsAreSettledOnce(w: World, steps: seq<Step>, r: Row)
    requires Inv(w) && r in Rows(w.store)
    ensures exists q ::
              && q in Rows(Exec(w, steps).store) && q.id == r.id && q.meta == r.meta
              && (r.status != Pending ==> q == r)
              && (forall p :: p in Rows(Exec(w, steps).store) && p.meta.call == r.meta.call ==> p == q)
  {
    EveryRunKeepsInv(w, steps);
    if steps == [] {
      assert r in Rows(Exec(w, steps).store);
    } else {
      var n := |steps| - 1;
      RowsAreSettledOnce(w, steps[..n], r);
      var mid := Exec(w, steps[..n]);
      var q :| q in Rows(mid.store) && q.id == r.id && q.meta == r.meta && (r.status != Pending ==> q == r);
      EveryRunKeepsInv(w, steps[..n]);
      StepEvolvesRows(mid, steps[n]);
      if q in Rows(Exec(w, steps).store) {
      } else {
        var q' :| q' in Rows(Exec(w, steps).store) && q'.id == q.id && q'.meta == q.meta && q'.status != Pending;
      }
    }
  }

  // ── blocked engines ─────────────────────────────────────────────────────

  ghost predicate NewWritesRefused(w: World, from: nat, p: nat) {
    forall c :: from <= c < |w.calls| && w.calls[c].proc == p && w.calls[c].write ==> w.calls[c].phase == Refused
  }

  predicate Blocked(w: World, p: nat) {
    p < |w.procs| && w.procs[p].engine.blocked
  }

  lemma StepKeepsRefusals(w: World, st: Step, from: nat, p: nat)
    requires Blocked(w, p) && from <= |w.calls| && NewWritesRefused(w, from, p) && GuardFits(w)
    ensures Blocked(Next(w, st), p) && from <= |Next(w, st).calls| && NewWritesRefused(Next(w, st), from, p)
  {
  }

  /** Once an engine is blocked it stays blocked and unavailable, and no write asked of it
      later gets past its intent: none of them ever has an upstream effect. */
  lemma {:induction false} BlockedEngineWritesNothing(w: World, steps: seq<Step>, p: nat, readFails: bool)
    requires Inv(w) && Blocked(w, p)
    ensures var w' := Exec(w, steps);
            && Blocked(w', p) && !HealthOf(w'.procs[p].engine, w'.store, readFails).available
            && |w.calls| <= |w'.calls| && NewWritesRefused(w', |w.calls|, p)
            && forall c :: |w.calls| <= c < |w'.calls| && w'.calls[c].proc == p && w'.calls[c].write ==> c !in w'.effects
  {
    if steps != [] {
      var mid := Exec(w, steps[..|steps| - 1]);
      BlockedEngineWritesNothing(w, steps[..|steps| - 1], p, readFails);
      EveryRunKeepsInv(w, steps[..|steps| - 1]);
      StepKeepsRefusals(mid, steps[|steps| - 1], |w.calls|, p);
    }
    EveryRunKeepsInv(w, steps);
  }

  // ── the log only grows ──────────────────────────────────────────────────

  // No archive name clash and no half-done cleanup.
  predicate CleanStep(w: World, st: Step) {
    && (st.RenameFile? ==> !NameTaken(w.store.archives, st.name))
    && (st.CleanUp? ==> st.unlinked >= Excess(w.store))
  }

  predicate CleanRun(w: World, steps: seq<Step>) {
    steps == [] ||
    (CleanRun(w, steps[..|steps| - 1]) && CleanStep(Exec(w, steps[..|steps| - 1]), steps[|steps| - 1]))
  }

  lemma FilesExtend(w: World, st: Step)
    requires Inv(w) && CleanStep(w, st) && !st.FinishCall? && !st.ReconcileRow?
    ensures Extends(History(w.store), History(Next(w, st).store))
  {
    if st.RenameFile? && Holding(w, Rotating) && w.store.active.Some? && !st.fails {
      RenameKeepsArchivesIffNameIsFree(w.store, st.name);
    }
    if st.CleanUp? && Holding(w, Reopened) {
      CleanupKeepsHistory(w.store);
    }
    if st.InsertRow? && Holding(w, Ready) && w.store.active.Some? {
      var c := w.guard.call;
      InsertAppends(w.store, Meta(c, st.tool, st.params, st.risk),
                    if w.calls[c].write then Pending else st.status, st.result, st.durationMs);
    }
  }

  lemma StepExtendsHistory(w: World, st: Step)
    requires Inv(w) && CleanStep(w, st)
    ensures Extends(History(w.store), History(Next(w, st).store))
  {
    var s' := Next(w, st).store;
    if s' == w.store {
    } else if st.FinishCall? {
      FinishHitsIntent(w, st.call, st.status, st.result, st.durationMs);
      SettlingExtends(w.store, s', w.calls[st.call].phase.id - 1);
    } else if st.ReconcileRow? {
      ReconcileHits(w, st.id);
      SettlingExtends(w.store, s', st.id - 1);
    } else {
      FilesExtend(w, st);
    }
  }

  /** Over a run without name clashes and half-done cleanups the whole log, deleted and kept
      archives and the active file in this order, only grows at its end; rows change in
      place once, from pending to a terminal status. */
  lemma {:induction false} LogOnlyGrows(w: World, steps: seq<Step>)
    requires Inv(w) && CleanRun(w, steps)
    ensures Extends(History(w.store), History(Exec(w, steps).store))
  {
    if steps != [] {
      var n := |steps| - 1;
      LogOnlyGrows(w, steps[..n]);
      EveryRunKeepsInv(w, steps[..n]);
      StepExtendsHistory(Exec(w, steps[..n]), steps[n]);
    }
  }

  /** Every archived row is terminal, in every reachable world, clean or not. */
  lemma ArchivesAreSettled(steps: seq<Step>, a: Archive)
    requires var s := Exec(START, steps).store; a in s.archives || a in s.lost
    ensures AllTerminal(a.rows)
  {
    StartIsInv();
    EveryRunKeepsInv(START, steps);
  }

  // ── the engine's log call is a run of these steps ───────────────────────

  // What the log call of module AuditLog does, one visible step at a time.
  function GuardedLog(w: World, c: nat, m: Meta, status: Status, result: Value, durationMs: int, env: LogEnv): World {
    var f := env.rotate.fault;
    var w1 := Next(w, Enter(c, env.guardFails));
    var w2 := Next(w1, Probe(env.rotate.oversize, f == ProbeFails));
    var w3 := Next(w2, RenameFile(env.rotate.name, f == RenameFails));
    var w4 := Next(w3, Reopen(f == InitFails));
    var w5 := Next(w4, CleanUp(if f.CleanupFails? then f.unlinked else Excess(w4.store)));
    Next(w5, InsertRow(m.tool, m.params, m.risk, status, result, durationMs, env.insertFails))
  }

  lemma RotationIsARun(w: World, env: RotateEnv)
    requires Holding(w, Entered)
    ensures var w2 := Next(w, Probe(env.oversize, env.fault == ProbeFails));
            var w3 := Next(w2, RenameFile(env.name, env.fault == RenameFails));
            var w4 := Next(w3, Reopen(env.fault == InitFails));
            var w5 := Next(w4, CleanUp(if env.fault.CleanupFails? then env.fault.unlinked else Excess(w4.store)));
            w5 == w.(store := MaybeRotate(w.store, env), guard := Held(w.guard.call, Ready))
  {
  }

  // The world after a log call with outcome `out`.
  function AfterLog(w: World, c: nat, out: Logged): World
    requires c < |w.calls| && w.calls[c].proc < |w.procs|
  {
    var phase := match out.id
                 case None => Refused
                 case Some(id) => if w.calls[c].write then Running(id) else Done;
    var p := w.calls[c].proc;
    w.(store := out.store, procs := w.procs[p := w.procs[p].(engine := out.engine)], calls := At(w, c, phase))
  }

  lemma InsertIsARun(w: World, c: nat, m: Meta, status: Status, result: Value, durationMs: int, fails: bool)
    requires Holding(w, Ready) && w.guard.call == c && m.call == c
    requires w.calls[c].proc < |w.procs| && (status == Pending <==> w.calls[c].write)
    ensures var w' := Next(w, InsertRow(m.tool, m.params, m.risk, status, result, durationMs, fails));
            var e := w.procs[w.calls[c].proc].engine;
            w' == AfterLog(w, c, if fails || w.store.active.None? then Failed(e, w.store, w.calls[c].write)
                                 else Logged(e, Insert(w.store, m, status, result, durationMs),
                                             Some(|w.store.active.value| + 1), false)).(guard := Free)
  {
    var p := w.calls[c].proc;
    assert w.procs[p := w.procs[p].(engine := w.procs[p].engine)] == w.procs;
    assert Meta(c, m.tool, m.params, m.risk) == m;
  }

  /** An engine's log call that nobody interleaves with is one of the protocol's runs, with
      the same store, the same engine state and the same id. */
  lemma LogIsARun(w: World, c: nat, m: Meta, status: Status, result: Value, durationMs: int, env: LogEnv)
    requires c < |w.calls| && w.calls[c].phase == Asked && w.guard == Free && m.call == c
    requires w.calls[c].proc < |w.procs| && w.procs[w.calls[c].proc].engine.ok
    requires status == Pending <==> w.calls[c].write
    ensures GuardedLog(w, c, m, status, result, durationMs, env) ==
            AfterLog(w, c, Log(w.procs[w.calls[c].proc].engine, w.store, m, status, result, durationMs,
                               w.calls[c].write, env))
  {
    if !env.guardFails {
      var w1 := Next(w, Enter(c, false));
      RotationIsARun(w1, env.rotate);
      var w5 := w1.(store := MaybeRotate(w.store, env.rotate), guard := Held(c, Ready));
      InsertIsARun(w5, c, m, status, result, durationMs, env.insertFails);
      assert forall phase :: Repaint(Repaint(w.calls, c, Inserting), c, phase) == Repaint(w.calls, c, phase);
    } else {
      NothingHappensAfterRefusal(w, c, m, status, result, durationMs, env);
    }
  }

  lemma NothingHappensAfterRefusal(w: World, c: nat, m: Meta, status: Status, result: Value, durationMs: int, env: LogEnv)
    requires c < |w.calls| && w.calls[c].phase == Asked && w.guard == Free && env.guardFails
    ensures GuardedLog(w, c, m, status, result, durationMs, env) == Next(w, Enter(c, true))
  {
  }
}
