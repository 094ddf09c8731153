/**
 The auto-remediation pattern engine: rate caps and circuit breaker per (pattern, target).

 The engine keeps a pruned list of arming times, a failure count and a cooldown end.
 A run also yields the full history of armings and outcomes. The counters are proved to
 be functions of that history, and the caps and the cooldown to bound the history itself.
 */
module Patterns {
  import opened Common

  const HOUR: real := 3600.0
  const DAY: real := 86400.0

  datatype Expiry = Never | At(time: real) | Malformed

  datatype Pattern = Pattern(
    id: string,
    skill: string,
    tool: string,
    risk: string,
    reversible: bool,
    repeatable: bool,
    expires: Expiry,
    perHour: int,
    perDay: int,
    threshold: int,
    disableSeconds: int
  ) {
    predicate IsExpired(now: real) {
      match expires
      case Never => false
      case At(time) => now > time
      case Malformed => true
    }

    predicate IsArmable(now: real) {
      risk == "low" && reversible && repeatable && !IsExpired(now)
    }
  }

  datatype Counters = Counters(arms: seq<real>, failures: nat, disabledUntil: real)

  // (pattern id, target)
  type Key = (string, string)

  type Table = map<Key, Counters>

  datatype Reason = NotArmable | Cooling | HourlyCap | DailyCap

  datatype Match = NoMatch | Armed(pattern: Pattern) | Refused(pattern: Pattern, why: Reason)

  function At0(cs: Table, key: Key): Counters {
    if key in cs then cs[key] else Counters([], 0, 0.0)
  }

  // `[t for t in ts if t > cutoff]`
  function After(ts: seq<real>, cutoff: real): seq<real> {
    if ts == [] then []
    else After(ts[..|ts| - 1], cutoff) + (if ts[|ts| - 1] > cutoff then [ts[|ts| - 1]] else [])
  }

  function Candidates(ps: seq<Pattern>, skill: string, tool: string): (cs: seq<Pattern>)
    ensures forall p :: p in cs <==> p in ps && p.skill == skill && p.tool == tool
  {
    if ps == [] then []
    else
      (if ps[0].skill == skill && ps[0].tool == tool then [ps[0]] else []) +
      Candidates(ps[1..], skill, tool)
  }

  function Armables(ps: seq<Pattern>, now: real): (cs: seq<Pattern>)
    ensures forall p :: p in cs <==> p in ps && p.IsArmable(now)
  {
    if ps == [] then []
    else (if ps[0].IsArmable(now) then [ps[0]] else []) + Armables(ps[1..], now)
  }

  // A cap of zero is no cap; a negative one is always reached.
  predicate CapReached(cap: int, count: nat) {
    cap != 0 && count >= cap
  }

  // The locked section of `match` for the pattern it settled on.
  function TryArm(p: Pattern, c: Counters, now: real): (Counters, Match) {
    if now < c.disabledUntil then (c, Refused(p, Cooling))
    else
      var kept := c.(arms := After(c.arms, now - DAY));
      if CapReached(p.perHour, |After(kept.arms, now - HOUR)|) then (kept, Refused(p, HourlyCap))
      else if CapReached(p.perDay, |kept.arms|) then (kept, Refused(p, DailyCap))
      else (kept.(arms := kept.arms + [now]), Armed(p))
  }

  // The first armable pattern whose action matches.
  function Chosen(ps: seq<Pattern>, skill: string, tool: string, now: real): (p: Option<Pattern>)
    ensures p.Some? ==> p.value in ps && p.value.IsArmable(now) && p.value.skill == skill && p.value.tool == tool
    ensures p.None? ==> forall q :: q in ps && q.skill == skill && q.tool == tool ==> !q.IsArmable(now)
  {
    var armable := Armables(Candidates(ps, skill, tool), now);
    if armable == [] then None
    else
      assert armable[0] in armable;
      Some(armable[0])
  }

  function Unarmed(ps: seq<Pattern>, skill: string, tool: string): Match {
    var candidates := Candidates(ps, skill, tool);
    if candidates == [] then NoMatch else Refused(candidates[0], NotArmable)
  }

  function MatchStep(ps: seq<Pattern>, cs: Table, skill: string, tool: string, target: string, now: real)
    : (Table, Match)
  {
    match Chosen(ps, skill, tool, now)
    case None => (cs, Unarmed(ps, skill, tool))
    case Some(p) =>
      var (c, m) := TryArm(p, At0(cs, (p.id, target)), now);
      (cs[(p.id, target) := c], m)
  }

  function Lookup(ps: seq<Pattern>, id: string): Option<Pattern> {
    if ps == [] then None else if ps[0].id == id then Some(ps[0]) else Lookup(ps[1..], id)
  }

  function Threshold(ps: seq<Pattern>, id: string): int {
    match Lookup(ps, id) case Some(p) => p.threshold case None => 3
  }

  function DisableFor(ps: seq<Pattern>, id: string): real {
    match Lookup(ps, id) case Some(p) => p.disableSeconds as real case None => DAY
  }

  function Settle(c: Counters, threshold: int, disableFor: real, success: bool, now: real): Counters {
    if success then c.(failures := 0)
    else if c.failures + 1 >= threshold then
      c.(failures := c.failures + 1, disabledUntil := now + disableFor)
    else c.(failures := c.failures + 1)
  }

  function ReportStep(ps: seq<Pattern>, cs: Table, id: string, target: string, success: bool, now: real): Table {
    cs[(id, target) := Settle(At0(cs, (id, target)), Threshold(ps, id), DisableFor(ps, id), success, now)]
  }

  class PatternEngine {
    const patterns: seq<Pattern>
    var counters: Table

    constructor (patterns: seq<Pattern>)
      ensures this.patterns == patterns && counters == map[]
    {
      this.patterns, counters := patterns, map[];
    }

    method Match(skill: string, tool: string, target: string, now: real) returns (m: Match)
      modifies this
      ensures (counters, m) == MatchStep(patterns, old(counters), skill, tool, target, now)
    {
      var candidates := Candidates(patterns, skill, tool);
      if candidates == [] {
        return NoMatch;
      }
      var armable := Armables(candidates, now);
      if armable == [] {
        return Refused(candidates[0], NotArmable);
      }
      var pat := armable[0];
      var key := (pat.id, target);
      if key !in counters {
        counters := counters[key := Counters([], 0, 0.0)];
      }
      assert counters == old(counters)[key := At0(old(counters), key)];
      if now < counters[key].disabledUntil {
        return Refused(pat, Cooling);
      }
      var recent := After(counters[key].arms, now - DAY);
      counters := counters[key := counters[key].(arms := recent)];
      assert counters == old(counters)[key := At0(old(counters), key).(arms := recent)];
      if pat.perHour != 0 && |After(recent, now - HOUR)| >= pat.perHour {
        return Refused(pat, HourlyCap);
      }
      if pat.perDay != 0 && |recent| >= pat.perDay {
        return Refused(pat, DailyCap);
      }
      counters := counters[key := counters[key].(arms := recent + [now])];
      assert counters == old(counters)[key := At0(old(counters), key).(arms := recent + [now])];
      m := Armed(pat);
    }

    method ReportOutcome(id: string, target: string, success: bool, now: real)
      modifies this
      ensures counters == ReportStep(patterns, old(counters), id, target, success, now)
    {
      var key := (id, target);
      var c := At0(counters, key);
      if success {
        counters := counters[key := c.(failures := 0)];
        return;
      }
      c := c.(failures := c.failures + 1);
      if c.failures >= Threshold(patterns, id) {
        c := c.(disabledUntil := now + DisableFor(patterns, id));
      }
      counters := counters[key := c];
    }
  }

  // ── runs and their history ──────────────────────────────────────────────

  datatype Event =
    | Ask(skill: string, tool: string, target: string, now: real)
    | Report(id: string, target: string, success: bool, now: real)

  datatype Past = Arm(key: Key, at: real) | Outcome(key: Key, success: bool, at: real)

  function Armings(m: Match, key: Key, now: real): seq<Past> {
    if m.Armed? then [Arm(key, now)] else []
  }

  // One event: the new counters and what it adds to the history, if anything.
  function Step(ps: seq<Pattern>, cs: Table, e: Event): (Table, seq<Past>) {
    match e
    case Ask(skill, tool, target, now) =>
      var (cs', m) := MatchStep(ps, cs, skill, tool, target, now);
      (cs', if m == NoMatch then [] else Armings(m, (m.pattern.id, target), now))
    case Report(id, target, success, now) =>
      (ReportStep(ps, cs, id, target, success, now), [Outcome((id, target), success, now)])
  }

  function Run(ps: seq<Pattern>, evs: seq<Event>): (Table, seq<Past>) {
    if evs == [] then (map[], [])
    else
      var (cs, h) := Run(ps, evs[..|evs| - 1]);
      var (cs', x) := Step(ps, cs, evs[|evs| - 1]);
      (cs', h + x)
  }

  // Failures since key's last success.
  function Trailing(h: seq<Past>, key: Key): nat {
    if h == [] then 0
    else
      var rest, x := h[..|h| - 1], h[|h| - 1];
      if x.Outcome? && x.key == key then (if x.success then 0 else Trailing(rest, key) + 1)
      else Trailing(rest, key)
  }

  predicate Trips(ps: seq<Pattern>, h: seq<Past>, i: nat, key: Key)
    requires i < |h|
  {
    h[i].Outcome? && h[i].key == key && !h[i].success && Trailing(h[..i + 1], key) >= Threshold(ps, key.0)
  }

  // End of the cooldown the latest trip started.
  function CooldownEnd(ps: seq<Pattern>, h: seq<Past>, key: Key): real {
    if h == [] then 0.0
    else
      var n := |h| - 1;
      if h[n].Outcome? && h[n].key == key && !h[n].success && Trailing(h, key) >= Threshold(ps, key.0)
      then h[n].at + DisableFor(ps, key.0)
      else CooldownEnd(ps, h[..n], key)
  }

  function ArmsAfter(h: seq<Past>, key: Key, cutoff: real): seq<real> {
    if h == [] then []
    else
      var x := h[|h| - 1];
      ArmsAfter(h[..|h| - 1], key, cutoff) + (if x.Arm? && x.key == key && x.at > cutoff then [x.at] else [])
  }

  predicate ClockRuns(evs: seq<Event>) {
    forall i, j :: 0 <= i < j < |evs| ==> evs[i].now <= evs[j].now
  }

  predicate Until(evs: seq<Event>, clock: real) {
    forall i :: 0 <= i < |evs| ==> evs[i].now <= clock
  }

  lemma {:induction false} AfterTwice(ts: seq<real>, a: real, b: real)
    requires a <= b
    ensures After(After(ts, a), b) == After(ts, b)
  {
    if ts != [] {
      var n := |ts| - 1;
      AfterTwice(ts[..n], a, b);
      var kept := After(ts[..n], a);
      if ts[n] > a {
        assert (kept + [ts[n]])[..|kept|] == kept;
      } else {
        assert kept + [] == kept;
      }
    }
  }

  lemma {:induction false} AfterArms(h: seq<Past>, key: Key, a: real, b: real)
    requires a <= b
    ensures After(ArmsAfter(h, key, a), b) == ArmsAfter(h, key, b)
  {
    if h != [] {
      var n := |h| - 1;
      AfterArms(h[..n], key, a, b);
      var kept := ArmsAfter(h[..n], key, a);
      if h[n].Arm? && h[n].key == key && h[n].at > a {
        assert (kept + [h[n].at])[..|kept|] == kept;
      } else {
        assert kept + [] == kept;
      }
    }
  }

  // What the counters of one key say, in terms of the history alone.
  ghost predicate Faithful(ps: seq<Pattern>, c: Counters, h: seq<Past>, key: Key, clock: real) {
    && c.failures == Trailing(h, key)
    && c.disabledUntil == CooldownEnd(ps, h, key)
    && After(c.arms, clock - DAY) == ArmsAfter(h, key, clock - DAY)
  }

  lemma FaithfulLater(ps: seq<Pattern>, c: Counters, h: seq<Past>, key: Key, clock: real, now: real)
    requires Faithful(ps, c, h, key, clock) && clock <= now
    ensures Faithful(ps, c, h, key, now)
  {
    AfterTwice(c.arms, clock - DAY, now - DAY);
    AfterArms(h, key, clock - DAY, now - DAY);
  }

  lemma FaithfulArm(ps: seq<Pattern>, p: Pattern, c: Counters, h: seq<Past>, key: Key, now: real)
    requires Faithful(ps, c, h, key, now)
    ensures var (c', m) := TryArm(p, c, now); Faithful(ps, c', h + Armings(m, key, now), key, now)
  {
    assert h + [] == h;
    AfterTwice(c.arms, now - DAY, now - DAY);
    var kept := After(c.arms, now - DAY);
    assert (h + [Arm(key, now)])[..|h|] == h;
    assert (kept + [now])[..|kept|] == kept;
  }

  lemma FaithfulOther(ps: seq<Pattern>, c: Counters, h: seq<Past>, key: Key, clock: real, x: Past)
    requires Faithful(ps, c, h, key, clock) && x.key != key
    ensures Faithful(ps, c, h + [x], key, clock)
  {
    assert (h + [x])[..|h|] == h;
    assert ArmsAfter(h, key, clock - DAY) + [] == ArmsAfter(h, key, clock - DAY);
  }

  lemma FaithfulSettle(ps: seq<Pattern>, c: Counters, h: seq<Past>, key: Key, success: bool, now: real)
    requires Faithful(ps, c, h, key, now)
    ensures Faithful(ps, Settle(c, Threshold(ps, key.0), DisableFor(ps, key.0), success, now),
                     h + [Outcome(key, success, now)], key, now)
  {
    assert (h + [Outcome(key, success, now)])[..|h|] == h;
    assert ArmsAfter(h, key, now - DAY) + [] == ArmsAfter(h, key, now - DAY);
  }

  lemma AskIsFaithful(ps: seq<Pattern>, cs: Table, h: seq<Past>, e: Event, key: Key)
    requires e.Ask? && Faithful(ps, At0(cs, key), h, key, e.now)
    ensures var (cs', x) := Step(ps, cs, e); Faithful(ps, At0(cs', key), h + x, key, e.now)
  {
    match Chosen(ps, e.skill, e.tool, e.now)
    case None =>
      assert Step(ps, cs, e) == (cs, []) && h + [] == h;
    case Some(p) =>
      var k := (p.id, e.target);
      var (c, m) := TryArm(p, At0(cs, k), e.now);
      assert Step(ps, cs, e) == (cs[k := c], Armings(m, k, e.now));
      if k == key {
        FaithfulArm(ps, p, At0(cs, key), h, key, e.now);
      } else if m.Armed? {
        FaithfulOther(ps, At0(cs, key), h, key, e.now, Arm(k, e.now));
      } else {
        assert h + [] == h;
      }
  }

  lemma ReportIsFaithful(ps: seq<Pattern>, cs: Table, h: seq<Past>, e: Event, key: Key)
    requires e.Report? && Faithful(ps, At0(cs, key), h, key, e.now)
    ensures var (cs', x) := Step(ps, cs, e); Faithful(ps, At0(cs', key), h + x, key, e.now)
  {
    if (e.id, e.target) == key {
      FaithfulSettle(ps, At0(cs, key), h, key, e.success, e.now);
    } else {
      FaithfulOther(ps, At0(cs, key), h, key, e.now, Outcome((e.id, e.target), e.success, e.now));
    }
  }

  /** At any later moment a key's counters are exactly what its history says: the failure
      count is the trailing run of failures, the cooldown is the latest trip's, and the
      pruned list is the armings of the last day. Other keys' events change none of it. */
  lemma {:induction false} CountersTellTheHistory(ps: seq<Pattern>, evs: seq<Event>, key: Key, clock: real)
    requires ClockRuns(evs) && Until(evs, clock)
    ensures Faithful(ps, At0(Run(ps, evs).0, key), Run(ps, evs).1, key, clock)
  {
    if evs != [] {
      var e := evs[|evs| - 1];
      CountersTellTheHistory(ps, evs[..|evs| - 1], key, e.now);
      var (cs, h) := Run(ps, evs[..|evs| - 1]);
      if e.Ask? {
        AskIsFaithful(ps, cs, h, e, key);
      } else {
        ReportIsFaithful(ps, cs, h, e, key);
      }
      FaithfulLater(ps, At0(Run(ps, evs).0, key), Run(ps, evs).1, key, e.now, clock);
    }
  }

  // ── what the caps and the cooldown guarantee ────────────────────────────

  // Armings of key in the half-open window (from, to].
  function ArmsIn(h: seq<Past>, key: Key, from: real, to: real): nat {
    if h == [] then 0
    else
      var x := h[|h| - 1];
      ArmsIn(h[..|h| - 1], key, from, to) + (if x.Arm? && x.key == key && from < x.at <= to then 1 else 0)
  }

  lemma {:induction false} FewerInWindow(h: seq<Past>, key: Key, from: real, to: real, cutoff: real)
    requires cutoff <= from
    ensures ArmsIn(h, key, from, to) <= |ArmsAfter(h, key, cutoff)|
  {
    if h != [] {
      FewerInWindow(h[..|h| - 1], key, from, to, cutoff);
    }
  }

  predicate UniqueIds(ps: seq<Pattern>) {
    forall i, j :: 0 <= i < j < |ps| ==> ps[i].id != ps[j].id
  }

  lemma ArmedWithinCaps(ps: seq<Pattern>, p: Pattern, c: Counters, h: seq<Past>, key: Key, now: real)
    requires Faithful(ps, c, h, key, now) && TryArm(p, c, now).1.Armed?
    ensures !CapReached(p.perHour, |ArmsAfter(h, key, now - HOUR)|)
    ensures !CapReached(p.perDay, |ArmsAfter(h, key, now - DAY)|)
    ensures CooldownEnd(ps, h, key) <= now
  {
    AfterArms(h, key, now - DAY, now - HOUR);
  }

  predicate Bounded(cap: int, count: nat) {
    cap != 0 ==> count <= if cap > 0 then cap else 0
  }

  lemma OneMoreInWindow(h: seq<Past>, key: Key, x: Past, from: real, span: real, cap: int)
    requires Bounded(cap, ArmsIn(h, key, from, from + span))
    requires x.Arm? && x.key == key ==> !CapReached(cap, |ArmsAfter(h, key, x.at - span)|)
    ensures Bounded(cap, ArmsIn(h + [x], key, from, from + span))
  {
    assert (h + [x])[..|h|] == h;
    if x.Arm? && x.key == key && from < x.at <= from + span {
      FewerInWindow(h, key, from, from + span, x.at - span);
    }
  }

  lemma {:induction false} SameIdSamePattern(ps: seq<Pattern>, p: Pattern, q: Pattern)
    requires UniqueIds(ps) && p in ps && q in ps && p.id == q.id
    ensures p == q
  {
    var i :| 0 <= i < |ps| && ps[i] == p;
    var j :| 0 <= j < |ps| && ps[j] == q;
  }

  predicate CapsAllow(h: seq<Past>, p: Pattern, target: string, now: real) {
    && !CapReached(p.perHour, |ArmsAfter(h, (p.id, target), now - HOUR)|)
    && !CapReached(p.perDay, |ArmsAfter(h, (p.id, target), now - DAY)|)
  }

  // What the history was like when an event added an arming of p.
  lemma ArmingWasAllowed(ps: seq<Pattern>, cs: Table, h: seq<Past>, e: Event, p: Pattern, target: string)
    requires UniqueIds(ps) && p in ps && Faithful(ps, At0(cs, (p.id, target)), h, (p.id, target), e.now)
    requires Step(ps, cs, e).1 == [Arm((p.id, target), e.now)]
    ensures CapsAllow(h, p, target, e.now)
    ensures CooldownEnd(ps, h, (p.id, target)) <= e.now
  {
    assert Step(ps, cs, e).1[0].Arm?;
    assert e.Ask?;
    SameIdSamePattern(ps, p, Chosen(ps, e.skill, e.tool, e.now).value);
    ArmedWithinCaps(ps, p, At0(cs, (p.id, target)), h, (p.id, target), e.now);
  }

  lemma StepAdds(ps: seq<Pattern>, cs: Table, e: Event)
    ensures var x := Step(ps, cs, e).1; x == [] || (|x| == 1 && x[0].at == e.now)
  {
  }

  ghost predicate WithinCaps(h: seq<Past>, p: Pattern, target: string, from: real) {
    && Bounded(p.perHour, ArmsIn(h, (p.id, target), from, from + HOUR))
    && Bounded(p.perDay, ArmsIn(h, (p.id, target), from, from + DAY))
  }

  lemma PastWithinCaps(h: seq<Past>, x: Past, p: Pattern, target: string, from: real)
    requires WithinCaps(h, p, target, from)
    requires x.Arm? && x.key == (p.id, target) ==> CapsAllow(h, p, target, x.at)
    ensures WithinCaps(h + [x], p, target, from)
  {
    OneMoreInWindow(h, (p.id, target), x, from, HOUR, p.perHour);
    OneMoreInWindow(h, (p.id, target), x, from, DAY, p.perDay);
  }

  lemma StepWithinCaps(ps: seq<Pattern>, cs: Table, h: seq<Past>, e: Event, p: Pattern, target: string, from: real)
    requires UniqueIds(ps) && p in ps && Faithful(ps, At0(cs, (p.id, target)), h, (p.id, target), e.now)
    requires WithinCaps(h, p, target, from)
    ensures WithinCaps(h + Step(ps, cs, e).1, p, target, from)
  {
    var x := Step(ps, cs, e).1;
    StepAdds(ps, cs, e);
    if x == [] {
      assert h + x == h;
    } else {
      assert x == [x[0]];
      if x[0] == Arm((p.id, target), e.now) {
        ArmingWasAllowed(ps, cs, h, e, p, target);
      }
      PastWithinCaps(h, x[0], p, target, from);
    }
  }

  /** No hour and no day, wherever the window is placed, sees more armings than the cap. */
  lemma {:induction false} CapsHoldInEveryWindow(ps: seq<Pattern>, evs: seq<Event>, p: Pattern, target: string, from: real)
    requires ClockRuns(evs) && UniqueIds(ps) && p in ps
    ensures WithinCaps(Run(ps, evs).1, p, target, from)
  {
    if evs != [] {
      var n := |evs| - 1;
      CapsHoldInEveryWindow(ps, evs[..n], p, target, from);
      CountersTellTheHistory(ps, evs[..n], (p.id, target), evs[n].now);
      StepWithinCaps(ps, Run(ps, evs[..n]).0, Run(ps, evs[..n]).1, evs[n], p, target, from);
    }
  }

  predicate InOrder(h: seq<Past>) {
    forall a, b :: 0 <= a < b < |h| ==> h[a].at <= h[b].at
  }

  predicate Before(h: seq<Past>, clock: real) {
    forall a :: 0 <= a < |h| ==> h[a].at <= clock
  }

  lemma {:induction false} CooldownCoversTrips(ps: seq<Pattern>, h: seq<Past>, i: nat, key: Key)
    requires InOrder(h) && i < |h| && Trips(ps, h, i, key)
    ensures h[i].at + DisableFor(ps, key.0) <= CooldownEnd(ps, h, key)
  {
    var n := |h| - 1;
    if i == n {
      assert h[..i + 1] == h;
    } else {
      assert h[..n][..i + 1] == h[..i + 1];
      CooldownCoversTrips(ps, h[..n], i, key);
    }
  }

  lemma {:induction false} HistoryInOrder(ps: seq<Pattern>, evs: seq<Event>, clock: real)
    requires ClockRuns(evs) && Until(evs, clock)
    ensures InOrder(Run(ps, evs).1) && Before(Run(ps, evs).1, clock)
  {
    if evs != [] {
      var n := |evs| - 1;
      HistoryInOrder(ps, evs[..n], evs[n].now);
      var (cs, h) := Run(ps, evs[..n]);
      var x := Step(ps, cs, evs[n]).1;
      StepAdds(ps, cs, evs[n]);
      assert InOrder(h + x) && Before(h + x, clock);
    }
  }

  /** Nothing arms during the cooldown of any earlier trip of the same key. */
  lemma {:induction false} NothingArmsWhileCooling(ps: seq<Pattern>, evs: seq<Event>, p: Pattern, target: string, i: nat, j: nat)
    requires ClockRuns(evs) && UniqueIds(ps) && p in ps
    requires var h := Run(ps, evs).1;
             i < j < |h| && Trips(ps, h, i, (p.id, target)) && h[j].Arm? && h[j].key == (p.id, target)
    ensures var h := Run(ps, evs).1; h[i].at + DisableFor(ps, p.id) <= h[j].at
  {
    var n := |evs| - 1;
    var (cs, h) := Run(ps, evs[..n]);
    var x, key := Step(ps, cs, evs[n]).1, (p.id, target);
    StepAdds(ps, cs, evs[n]);
    assert (h + x)[..i + 1] == h[..i + 1];
    if j < |h| {
      NothingArmsWhileCooling(ps, evs[..n], p, target, i, j);
    } else {
      assert x == [Arm(key, evs[n].now)];
      HistoryInOrder(ps, evs[..n], evs[n].now);
      CooldownCoversTrips(ps, h, i, key);
      CountersTellTheHistory(ps, evs[..n], key, evs[n].now);
      ArmingWasAllowed(ps, cs, h, evs[n], p, target);
    }
  }

  /** A match never settles for a pattern that is not armable while an armable one exists. */
  lemma ArmableIsNotShadowed(ps: seq<Pattern>, cs: Table, p: Pattern, target: string, now: real)
    requires p in ps && p.IsArmable(now)
    ensures var m := MatchStep(ps, cs, p.skill, p.tool, target, now).1;
            m != NoMatch && m.pattern.IsArmable(now) && m.pattern.tool == p.tool && m.pattern.skill == p.skill
  {
    assert Chosen(ps, p.skill, p.tool, now).Some?;
  }
}
