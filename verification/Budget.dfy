/**
 Budget ceilings and the runaway breaker.

 `BudgetTracker` keeps one pruned window of timestamps per fingerprint. `Naive` is
 the reference: it never forgets an admitted call and counts from scratch. With fixed
 limits and a clock that never runs backwards both give the same verdicts, and the
 breaker bounds every closed time window.
 */
module Budget {
  import opened Common

  // Limits are read from the environment; None means no ceiling.
  datatype Limits = Limits(maxCalls: Option<int>, maxSeconds: Option<int>, runawayMax: int, window: int) {
    predicate Breaker() {
      runawayMax > 0 && window > 0
    }

    function Cutoff(now: real): real {
      now - window as real
    }
  }

  datatype Verdict = Admitted | OverCalls | OverSeconds | Runaway

  datatype Tracker = Tracker(totalCalls: nat, totalSeconds: real, windows: map<string, seq<real>>) {
    function Window(fp: string): seq<real> {
      if fp in windows then windows[fp] else []
    }
  }

  function Prune(dq: seq<real>, cutoff: real): seq<real> {
    if dq != [] && dq[0] < cutoff then Prune(dq[1..], cutoff) else dq
  }

  predicate CallsSpent(lim: Limits, calls: nat) {
    lim.maxCalls.Some? && calls >= lim.maxCalls.value
  }

  predicate SecondsSpent(lim: Limits, seconds: real) {
    lim.maxSeconds.Some? && seconds >= lim.maxSeconds.value as real
  }

  function Check(t: Tracker, lim: Limits, fp: string, now: real): (Tracker, Verdict) {
    if CallsSpent(lim, t.totalCalls) then (t, OverCalls)
    else if SecondsSpent(lim, t.totalSeconds) then (t, OverSeconds)
    else if !lim.Breaker() then (t.(totalCalls := t.totalCalls + 1), Admitted)
    else
      var dq := Prune(t.Window(fp), lim.Cutoff(now));
      if |dq| >= lim.runawayMax then (t.(windows := t.windows[fp := dq]), Runaway)
      else (Tracker(t.totalCalls + 1, t.totalSeconds, t.windows[fp := dq + [now]]), Admitted)
  }

  function Spend(t: Tracker, seconds: real): Tracker {
    if seconds <= 0.0 then t else t.(totalSeconds := t.totalSeconds + seconds)
  }

  class BudgetTracker {
    var totalCalls: nat
    var totalSeconds: real
    var windows: map<string, seq<real>>

    function State(): Tracker
      reads this
    {
      Tracker(totalCalls, totalSeconds, windows)
    }

    constructor ()
      ensures State() == Tracker(0, 0.0, map[])
    {
      totalCalls, totalSeconds, windows := 0, 0.0, map[];
    }

    method CheckAndRecord(fp: string, now: real, lim: Limits) returns (v: Verdict)
      modifies this
      ensures (State(), v) == Check(old(State()), lim, fp, now)
    {
      if lim.maxCalls.Some? && totalCalls >= lim.maxCalls.value {
        return OverCalls;
      }
      if lim.maxSeconds.Some? && totalSeconds >= lim.maxSeconds.value as real {
        return OverSeconds;
      }
      if lim.runawayMax > 0 && lim.window > 0 {
        if fp !in windows {
          windows := windows[fp := []];
        }
        var cutoff := lim.Cutoff(now);
        var dq := windows[fp];
        while dq != [] && dq[0] < cutoff
          invariant Prune(dq, cutoff) == Prune(old(State()).Window(fp), cutoff)
          decreases |dq|
        {
          dq := dq[1..];
        }
        windows := windows[fp := dq];
        assert windows == old(windows)[fp := Prune(old(State()).Window(fp), cutoff)];
        if |dq| >= lim.runawayMax {
          return Runaway;
        }
        windows := windows[fp := windows[fp] + [now]];
        assert windows == old(windows)[fp := dq + [now]];
      }
      totalCalls := totalCalls + 1;
      v := Admitted;
    }

    method AddDuration(seconds: real)
      modifies this
      ensures State() == Spend(old(State()), seconds)
    {
      if seconds <= 0.0 {
        return;
      }
      totalSeconds := totalSeconds + seconds;
    }
  }

  // ── the reference ───────────────────────────────────────────────────────

  datatype Stamp = Stamp(fp: string, at: real)

  // Everything ever admitted, never pruned.
  datatype Naive = Naive(calls: nat, seconds: real, log: seq<Stamp>)

  // Times of fp's entries at or after `from`.
  function TimesFrom(log: seq<Stamp>, fp: string, from: real): seq<real> {
    if log == [] then []
    else
      var n := |log| - 1;
      TimesFrom(log[..n], fp, from) +
      (if log[n].fp == fp && log[n].at >= from then [log[n].at] else [])
  }

  function NaiveCheck(s: Naive, lim: Limits, fp: string, now: real): (Naive, Verdict) {
    if CallsSpent(lim, s.calls) then (s, OverCalls)
    else if SecondsSpent(lim, s.seconds) then (s, OverSeconds)
    else if lim.Breaker() && |TimesFrom(s.log, fp, lim.Cutoff(now))| >= lim.runawayMax then (s, Runaway)
    else (Naive(s.calls + 1, s.seconds, s.log + [Stamp(fp, now)]), Admitted)
  }

  // ── runs ────────────────────────────────────────────────────────────────

  datatype Event = Call(fp: string, now: real) | Took(seconds: real)

  predicate ClockRuns(evs: seq<Event>) {
    forall i, j :: 0 <= i < j < |evs| && evs[i].Call? && evs[j].Call? ==> evs[i].now <= evs[j].now
  }

  function RunTracker(lim: Limits, evs: seq<Event>): (Tracker, seq<Verdict>) {
    if evs == [] then (Tracker(0, 0.0, map[]), [])
    else
      var (t, vs) := RunTracker(lim, evs[..|evs| - 1]);
      match evs[|evs| - 1]
      case Took(seconds) => (Spend(t, seconds), vs)
      case Call(fp, now) =>
        var (t', v) := Check(t, lim, fp, now);
        (t', vs + [v])
  }

  function RunNaive(lim: Limits, evs: seq<Event>): (Naive, seq<Verdict>) {
    if evs == [] then (Naive(0, 0.0, []), [])
    else
      var (s, vs) := RunNaive(lim, evs[..|evs| - 1]);
      match evs[|evs| - 1]
      case Took(seconds) => (if seconds <= 0.0 then s else s.(seconds := s.seconds + seconds), vs)
      case Call(fp, now) =>
        var (s', v) := NaiveCheck(s, lim, fp, now);
        (s', vs + [v])
  }

  lemma {:induction false} PruneTwice(dq: seq<real>, a: real, b: real)
    requires a <= b
    ensures Prune(Prune(dq, a), b) == Prune(dq, b)
  {
    if dq != [] && dq[0] < a {
      PruneTwice(dq[1..], a, b);
    }
  }

  lemma {:induction false} PruneAppend(dq: seq<real>, x: real, cutoff: real)
    requires x >= cutoff
    ensures Prune(dq + [x], cutoff) == Prune(dq, cutoff) + [x]
  {
    if dq != [] && dq[0] < cutoff {
      assert (dq + [x])[1..] == dq[1..] + [x];
      PruneAppend(dq[1..], x, cutoff);
    }
  }

  predicate LogBefore(log: seq<Stamp>, clock: real) {
    forall i :: 0 <= i < |log| ==> log[i].at <= clock
  }

  predicate LogInOrder(log: seq<Stamp>) {
    forall i, j :: 0 <= i < j < |log| ==> log[i].at <= log[j].at
  }

  lemma {:induction false} TimesComeFromLog(log: seq<Stamp>, fp: string, from: real, b: real)
    requires LogBefore(log, b)
    ensures forall i :: 0 <= i < |TimesFrom(log, fp, from)| ==> TimesFrom(log, fp, from)[i] <= b
  {
    if log != [] {
      TimesComeFromLog(log[..|log| - 1], fp, from, b);
    }
  }

  lemma {:induction false} PruneAll(dq: seq<real>, cutoff: real)
    requires forall i :: 0 <= i < |dq| ==> dq[i] < cutoff
    ensures Prune(dq, cutoff) == []
  {
    if dq != [] {
      PruneAll(dq[1..], cutoff);
    }
  }

  lemma {:induction false} NoneSince(log: seq<Stamp>, fp: string, b: real)
    requires forall i :: 0 <= i < |log| ==> log[i].at < b
    ensures TimesFrom(log, fp, b) == []
  {
    if log != [] {
      NoneSince(log[..|log| - 1], fp, b);
    }
  }

  // Pruning a time-ordered list is filtering it.
  lemma {:induction false} PruneIsFilter(log: seq<Stamp>, fp: string, a: real, b: real)
    requires LogInOrder(log) && a <= b
    ensures Prune(TimesFrom(log, fp, a), b) == TimesFrom(log, fp, b)
  {
    if log != [] {
      var last := log[|log| - 1].at;
      if last < b {
        TimesComeFromLog(log, fp, a, last);
        PruneAll(TimesFrom(log, fp, a), b);
        NoneSince(log, fp, b);
      } else {
        PruneIsFilter(log[..|log| - 1], fp, a, b);
        var before := TimesFrom(log[..|log| - 1], fp, a);
        PruneAppend(before, last, b);
        assert before + [] == before;
      }
    }
  }

  // fp's pruned window, pruned once more at the clock, is what the log holds since the cutoff.
  ghost predicate SameWindow(t: Tracker, s: Naive, lim: Limits, fp: string, clock: real) {
    Prune(t.Window(fp), lim.Cutoff(clock)) == TimesFrom(s.log, fp, lim.Cutoff(clock))
  }

  ghost predicate Agree(t: Tracker, s: Naive, lim: Limits, clock: real) {
    && t.totalCalls == s.calls && t.totalSeconds == s.seconds
    && LogBefore(s.log, clock) && LogInOrder(s.log)
    && (lim.Breaker() ==> forall fp :: SameWindow(t, s, lim, fp, clock))
  }

  lemma AgreeLater(t: Tracker, s: Naive, lim: Limits, clock: real, now: real)
    requires Agree(t, s, lim, clock) && clock <= now
    ensures Agree(t, s, lim, now)
  {
    if lim.Breaker() {
      forall fp ensures SameWindow(t, s, lim, fp, now) {
        assert SameWindow(t, s, lim, fp, clock);
        PruneTwice(t.Window(fp), lim.Cutoff(clock), lim.Cutoff(now));
        PruneIsFilter(s.log, fp, lim.Cutoff(clock), lim.Cutoff(now));
      }
    }
  }

  lemma WindowGrows(t: Tracker, s: Naive, lim: Limits, fp: string, now: real, k: string)
    requires lim.Breaker() && SameWindow(t, s, lim, fp, now) && SameWindow(t, s, lim, k, now)
    ensures var dq := Prune(t.Window(fp), lim.Cutoff(now));
            SameWindow(t.(windows := t.windows[fp := dq]), s, lim, k, now)
    ensures var dq := Prune(t.Window(fp), lim.Cutoff(now));
            SameWindow(t.(windows := t.windows[fp := dq + [now]]),
                       s.(log := s.log + [Stamp(fp, now)]), lim, k, now)
  {
    var cutoff := lim.Cutoff(now);
    PruneTwice(t.Window(fp), cutoff, cutoff);
    PruneAppend(Prune(t.Window(fp), cutoff), now, cutoff);
    assert (s.log + [Stamp(fp, now)])[..|s.log|] == s.log;
  }

  lemma CheckAgrees(t: Tracker, s: Naive, lim: Limits, fp: string, now: real)
    requires Agree(t, s, lim, now)
    ensures Check(t, lim, fp, now).1 == NaiveCheck(s, lim, fp, now).1
    ensures Agree(Check(t, lim, fp, now).0, NaiveCheck(s, lim, fp, now).0, lim, now)
  {
    if lim.Breaker() && !CallsSpent(lim, t.totalCalls) && !SecondsSpent(lim, t.totalSeconds) {
      assert SameWindow(t, s, lim, fp, now);
      forall k
        ensures SameWindow(Check(t, lim, fp, now).0, NaiveCheck(s, lim, fp, now).0, lim, k, now)
      {
        assert SameWindow(t, s, lim, k, now);
        WindowGrows(t, s, lim, fp, now, k);
      }
    }
  }

  predicate CallsBefore(evs: seq<Event>, clock: real) {
    forall i :: 0 <= i < |evs| && evs[i].Call? ==> evs[i].now <= clock
  }

  /** The pruned tracker admits and rejects exactly as the tracker that never forgets. */
  lemma {:induction false} PruningIsInvisible(lim: Limits, evs: seq<Event>, clock: real)
    requires ClockRuns(evs) && CallsBefore(evs, clock)
    ensures RunTracker(lim, evs).1 == RunNaive(lim, evs).1
    ensures Agree(RunTracker(lim, evs).0, RunNaive(lim, evs).0, lim, clock)
  {
    if evs != [] {
      var n := |evs| - 1;
      match evs[n]
      case Took(_) =>
        PruningIsInvisible(lim, evs[..n], clock);
        var t, s := RunTracker(lim, evs[..n]).0, RunNaive(lim, evs[..n]).0;
        var t', s' := RunTracker(lim, evs).0, RunNaive(lim, evs).0;
        if lim.Breaker() {
          forall fp ensures SameWindow(t', s', lim, fp, clock) {
            assert SameWindow(t, s, lim, fp, clock);
          }
        }
      case Call(fp, now) =>
        PruningIsInvisible(lim, evs[..n], now);
        var t, s := RunTracker(lim, evs[..n]).0, RunNaive(lim, evs[..n]).0;
        CheckAgrees(t, s, lim, fp, now);
        AgreeLater(Check(t, lim, fp, now).0, NaiveCheck(s, lim, fp, now).0, lim, now, clock);
    }
  }

  // ── what the breaker guarantees ─────────────────────────────────────────

  // Admitted calls of fp in the closed interval [from, to].
  function CountIn(log: seq<Stamp>, fp: string, from: real, to: real): nat {
    if log == [] then 0
    else
      var x := log[|log| - 1];
      CountIn(log[..|log| - 1], fp, from, to) +
      (if x.fp == fp && from <= x.at <= to then 1 else 0)
  }

  lemma {:induction false} CountAtMostTimes(log: seq<Stamp>, fp: string, from: real, to: real, cutoff: real)
    requires cutoff <= from
    ensures CountIn(log, fp, from, to) <= |TimesFrom(log, fp, cutoff)|
  {
    if log != [] {
      CountAtMostTimes(log[..|log| - 1], fp, from, to, cutoff);
    }
  }

  /** However the run went, no closed window of the configured length holds more than
      `runawayMax` admitted calls of one fingerprint. */
  lemma {:induction false} NoWindowOverflows(lim: Limits, evs: seq<Event>, fp: string, from: real)
    requires lim.Breaker()
    ensures CountIn(RunNaive(lim, evs).0.log, fp, from, from + lim.window as real) <= lim.runawayMax
  {
    if evs != [] {
      NoWindowOverflows(lim, evs[..|evs| - 1], fp, from);
      var s := RunNaive(lim, evs[..|evs| - 1]).0;
      match evs[|evs| - 1]
      case Took(_) =>
      case Call(k, now) =>
        if NaiveCheck(s, lim, k, now).1 == Admitted {
          assert (s.log + [Stamp(k, now)])[..|s.log|] == s.log;
          if k == fp && from <= now <= from + lim.window as real {
            CountAtMostTimes(s.log, fp, from, from + lim.window as real, lim.Cutoff(now));
          }
        }
    }
  }

  // The stamps of the calls a list of verdicts admitted, in order.
  function AdmittedBy(evs: seq<Event>, vs: seq<Verdict>): seq<Stamp> {
    if evs == [] || (evs[|evs| - 1].Call? && vs == []) then []
    else
      var n := |evs| - 1;
      match evs[n]
      case Took(_) => AdmittedBy(evs[..n], vs)
      case Call(fp, now) =>
        AdmittedBy(evs[..n], vs[..|vs| - 1]) +
        (if vs[|vs| - 1] == Admitted then [Stamp(fp, now)] else [])
  }

  lemma {:induction false} LogIsWhatWasAdmitted(lim: Limits, evs: seq<Event>)
    ensures RunNaive(lim, evs).0.log == AdmittedBy(evs, RunNaive(lim, evs).1)
    ensures RunNaive(lim, evs).0.calls == |RunNaive(lim, evs).0.log|
  {
    if evs != [] {
      var n := |evs| - 1;
      LogIsWhatWasAdmitted(lim, evs[..n]);
      if evs[n].Call? {
        var vs := RunNaive(lim, evs).1;
        assert vs[..|vs| - 1] == RunNaive(lim, evs[..n]).1;
      }
    }
  }

  /** The real tracker, judged only by its own verdicts: the window bound, and a total
      that counts exactly the admitted calls and stays under its ceiling. */
  lemma BreakerBoundsEveryWindow(lim: Limits, evs: seq<Event>, clock: real, fp: string, from: real)
    requires ClockRuns(evs) && CallsBefore(evs, clock)
    ensures var (t, vs) := RunTracker(lim, evs);
            && t.totalCalls == |AdmittedBy(evs, vs)|
            && (lim.maxCalls.Some? && lim.maxCalls.value >= 0 ==> t.totalCalls <= lim.maxCalls.value)
            && (lim.Breaker() ==>
                CountIn(AdmittedBy(evs, vs), fp, from, from + lim.window as real) <= lim.runawayMax)
  {
    PruningIsInvisible(lim, evs, clock);
    LogIsWhatWasAdmitted(lim, evs);
    CeilingHolds(lim, evs);
    if lim.Breaker() {
      NoWindowOverflows(lim, evs, fp, from);
    }
  }

  lemma {:induction false} CeilingHolds(lim: Limits, evs: seq<Event>)
    ensures lim.maxCalls.Some? && lim.maxCalls.value >= 0 ==>
              RunNaive(lim, evs).0.calls <= lim.maxCalls.value
  {
    if evs != [] {
      CeilingHolds(lim, evs[..|evs| - 1]);
    }
  }

  // ── rejected calls leave no trace ───────────────────────────────────────

  lemma {:induction false} NaiveContinues(lim: Limits, a: seq<Event>, b: seq<Event>, more: seq<Event>)
    requires RunNaive(lim, a).0 == RunNaive(lim, b).0
    ensures RunNaive(lim, a + more).0 == RunNaive(lim, b + more).0
    ensures var va, vb := RunNaive(lim, a).1, RunNaive(lim, b).1;
            exists tail :: RunNaive(lim, a + more).1 == va + tail && RunNaive(lim, b + more).1 == vb + tail
  {
    var va, vb := RunNaive(lim, a).1, RunNaive(lim, b).1;
    if more == [] {
      assert a + more == a && b + more == b;
      assert va == va + [] && vb == vb + [];
    } else {
      var n := |more| - 1;
      NaiveContinues(lim, a, b, more[..n]);
      assert (a + more)[..|a + more| - 1] == a + more[..n];
      assert (b + more)[..|b + more| - 1] == b + more[..n];
      var tail :| RunNaive(lim, a + more[..n]).1 == va + tail && RunNaive(lim, b + more[..n]).1 == vb + tail;
      if more[n].Call? {
        var v := NaiveCheck(RunNaive(lim, a + more[..n]).0, lim, more[n].fp, more[n].now).1;
        assert (va + tail) + [v] == va + (tail + [v]);
        assert (vb + tail) + [v] == vb + (tail + [v]);
      }
    }
  }

  lemma WithoutOne(evs: seq<Event>, e: Event, more: seq<Event>)
    requires ClockRuns(evs + [e] + more)
    ensures ClockRuns(evs + more)
  {
    var with, without := evs + [e] + more, evs + more;
    forall i | 0 <= i < |without| ensures without[i] == with[if i < |evs| then i else i + 1] {}
  }

  /** A rejected call changes no later verdict: the run goes on as if it was never made. */
  lemma RejectionLeavesNoTrace(lim: Limits, evs: seq<Event>, e: Event, more: seq<Event>, clock: real)
    requires e.Call? && ClockRuns(evs + [e] + more) && CallsBefore(evs + [e] + more, clock)
    requires Check(RunTracker(lim, evs).0, lim, e.fp, e.now).1 != Admitted
    ensures exists tail ::
              && RunTracker(lim, evs + more).1 == RunTracker(lim, evs).1 + tail
              && RunTracker(lim, evs + [e] + more).1 == RunTracker(lim, evs + [e]).1 + tail
  {
    var with, without := evs + [e] + more, evs + more;
    WithoutOne(evs, e, more);
    assert forall i :: 0 <= i < |without| ==> without[i] == with[if i < |evs| then i else i + 1];
    assert CallsBefore(without, clock);
    assert forall i :: 0 <= i < |evs| ==> evs[i] == with[i];
    assert forall i :: 0 <= i < |evs + [e]| ==> (evs + [e])[i] == with[i];
    PruningIsInvisible(lim, with, clock);
    PruningIsInvisible(lim, without, clock);
    PruningIsInvisible(lim, evs + [e], clock);
    PruningIsInvisible(lim, evs, e.now);
    CheckAgrees(RunTracker(lim, evs).0, RunNaive(lim, evs).0, lim, e.fp, e.now);
    assert (evs + [e])[..|evs|] == evs;
    NaiveContinues(lim, evs, evs + [e], more);
  }
}
