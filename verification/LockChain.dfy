/**
 Blocking lock-chain analysis: from blocking pairs to root blockers.

 `Descendants` is the iterative stack search and `Rca` the whole report. Both are
 proved against `Reaches`, an independent definition of "transitively blocked".
 The rest proves what the report's verdicts mean for the wait-for graph.
 */
module LockChain {
  import opened Common

  const MAX_ROWS: nat := 100

  // One telemetry row as it arrives: it may not be a dict, and either pid may be missing.
  datatype Pair =
    | NotDict
    | Pair(blocked: Option<int>, blocking: Option<int>, query: Option<string>, state: Option<string>)

  datatype Edge = Edge(blocked: int, blocking: int, query: Option<string>, state: Option<string>)

  // pid -> the pids it directly blocks, duplicates kept
  type Graph = map<int, seq<int>>

  predicate Present(pid: Option<int>) {
    pid.Some? && pid.value != 0
  }

  predicate IsEdge(p: Pair) {
    p.Pair? && Present(p.blocked) && Present(p.blocking)
  }

  function Edges(pairs: seq<Pair>): (es: seq<Edge>)
    ensures pairs != [] && IsEdge(pairs[0]) ==> es != []
    ensures forall e :: e in es ==> e.blocked != 0 && e.blocking != 0
  {
    if pairs == [] then []
    else
      var rest := Edges(pairs[1..]);
      var p := pairs[0];
      if IsEdge(p) then [Edge(p.blocked.value, p.blocking.value, p.query, p.state)] + rest else rest
  }

  /** Every usable pair, and nothing else, becomes an edge. */
  lemma {:induction false} EdgesAreTheUsablePairs(pairs: seq<Pair>, e: Edge)
    ensures e in Edges(pairs) <==>
            e.blocked != 0 && e.blocking != 0 &&
            Pair(Some(e.blocked), Some(e.blocking), e.query, e.state) in pairs
  {
    if pairs != [] {
      EdgesAreTheUsablePairs(pairs[1..], e);
      assert pairs == [pairs[0]] + pairs[1..];
    }
  }

  // ── the wait-for graph ──────────────────────────────────────────────────

  function Kids(ch: Graph, pid: int): seq<int> {
    if pid in ch then ch[pid] else []
  }

  function BlockedSet(es: seq<Edge>): set<int> {
    set e | e in es :: e.blocked
  }

  function BlockingSet(es: seq<Edge>): set<int> {
    set e | e in es :: e.blocking
  }

  function Children(es: seq<Edge>): Graph {
    if es == [] then map[]
    else
      var n := |es| - 1;
      var ch := Children(es[..n]);
      ch[es[n].blocking := Kids(ch, es[n].blocking) + [es[n].blocked]]
  }

  ghost predicate HasEdge(es: seq<Edge>, g: int, b: int) {
    exists e :: e in es && e.blocking == g && e.blocked == b
  }

  lemma {:induction false} ChildrenAreTheEdges(es: seq<Edge>, g: int, b: int)
    ensures b in Kids(Children(es), g) <==> HasEdge(es, g, b)
  {
    if es != [] {
      var n := |es| - 1;
      ChildrenAreTheEdges(es[..n], g, b);
      assert es == es[..n] + [es[n]];
    }
  }

  lemma EdgeShows(es: seq<Edge>, i: nat)
    requires i < |es|
    ensures es[i].blocked in Kids(Children(es), es[i].blocking)
  {
    assert es[i] in es;
    ChildrenAreTheEdges(es, es[i].blocking, es[i].blocked);
  }

  // b is n + 1 edges below a
  ghost predicate ReachIn(ch: Graph, a: int, b: int, n: nat)
    decreases n
  {
    if n == 0 then b in Kids(ch, a)
    else exists m :: ReachIn(ch, a, m, n - 1) && b in Kids(ch, m)
  }

  // b waits, directly or through others, on a
  ghost predicate Reaches(ch: Graph, a: int, b: int) {
    exists n: nat :: ReachIn(ch, a, b, n)
  }

  lemma {:induction false} ReachStep(ch: Graph, a: int, m: int, b: int)
    requires Reaches(ch, a, m) && b in Kids(ch, m)
    ensures Reaches(ch, a, b)
  {
    var n: nat :| ReachIn(ch, a, m, n);
    assert ReachIn(ch, a, b, n + 1);
  }

  lemma {:induction false} ReachCons(ch: Graph, a: int, m: int, b: int, n: nat)
    requires m in Kids(ch, a) && ReachIn(ch, m, b, n)
    ensures ReachIn(ch, a, b, n + 1)
    decreases n
  {
    if n == 0 {
      assert ReachIn(ch, a, m, 0);
    } else {
      var k :| ReachIn(ch, m, k, n - 1) && b in Kids(ch, k);
      ReachCons(ch, a, m, k, n - 1);
    }
  }

  // A set that holds root's children and is closed under "blocks" holds all it reaches.
  lemma {:induction false} ClosedHoldsReach(ch: Graph, root: int, S: set<int>, b: int, n: nat)
    requires KidsWithin(ch, root, S) && forall v :: v in S ==> KidsWithin(ch, v, S)
    requires ReachIn(ch, root, b, n)
    ensures b in S
    decreases n
  {
    if n > 0 {
      var m :| ReachIn(ch, root, m, n - 1) && b in Kids(ch, m);
      ClosedHoldsReach(ch, root, S, m, n - 1);
    }
  }

  // ── the search ──────────────────────────────────────────────────────────

  ghost function AllKids(ch: Graph): set<int> {
    set g, i | g in ch && 0 <= i < |ch[g]| :: ch[g][i]
  }

  ghost predicate Found(ch: Graph, root: int, pids: set<int>) {
    forall b :: b in pids ==> b in AllKids(ch) && Reaches(ch, root, b)
  }

  ghost predicate KidsWithin(ch: Graph, pid: int, pids: set<int>) {
    forall k :: k in Kids(ch, pid) ==> k in pids
  }

  ghost function Elements(stack: seq<int>): set<int> {
    set b | b in stack
  }

  // All found pids are really below root; whatever is still missing is below the stack.
  ghost predicate Searching(ch: Graph, root: int, seen: set<int>, stack: seq<int>) {
    && Found(ch, root, seen + Elements(stack))
    && KidsWithin(ch, root, seen + Elements(stack))
    && forall v :: v in seen ==> KidsWithin(ch, v, seen + Elements(stack))
  }

  lemma SearchStarts(ch: Graph, root: int)
    ensures Searching(ch, root, {}, Kids(ch, root))
  {
    forall b | b in Kids(ch, root) ensures b in AllKids(ch) && Reaches(ch, root, b) {
      assert ReachIn(ch, root, b, 0);
    }
  }

  lemma SearchSkips(ch: Graph, root: int, seen: set<int>, stack: seq<int>, pid: int)
    requires Searching(ch, root, seen, stack + [pid]) && pid in seen
    ensures Searching(ch, root, seen, stack)
  {
    assert seen + Elements(stack + [pid]) == seen + Elements(stack);
  }

  lemma SearchVisits(ch: Graph, root: int, seen: set<int>, stack: seq<int>, pid: int)
    requires Searching(ch, root, seen, stack + [pid])
    ensures Searching(ch, root, seen + {pid}, stack + Kids(ch, pid))
    ensures pid in AllKids(ch)
  {
    var old_ := seen + Elements(stack + [pid]);
    var new_ := seen + {pid} + Elements(stack + Kids(ch, pid));
    assert pid in old_;
    assert new_ == old_ + Elements(Kids(ch, pid));
    forall k | k in Kids(ch, pid) ensures k in AllKids(ch) && Reaches(ch, root, k) {
      ReachStep(ch, root, pid, k);
    }
    assert KidsWithin(ch, pid, new_);
  }

  lemma SearchEnds(ch: Graph, root: int, seen: set<int>)
    requires Searching(ch, root, seen, [])
    ensures forall b :: b in seen <==> Reaches(ch, root, b)
  {
    assert seen + Elements([]) == seen;
    forall b | Reaches(ch, root, b) ensures b in seen {
      var n: nat :| ReachIn(ch, root, b, n);
      ClosedHoldsReach(ch, root, seen, b, n);
    }
  }

  /** Exactly the pids reachable from root by one or more edges, whatever duplicates or
      cycles the graph has. Terminates: each round sees a new pid or shortens the stack. */
  method Descendants(root: int, ch: Graph) returns (seen: set<int>)
    ensures forall b :: b in seen <==> Reaches(ch, root, b)
  {
    seen := {};
    var stack := Kids(ch, root);
    SearchStarts(ch, root);
    while stack != []
      invariant Searching(ch, root, seen, stack)
      decreases |AllKids(ch) - seen|, |stack|
    {
      var pid := stack[|stack| - 1];
      assert stack == stack[..|stack| - 1] + [pid];
      stack := stack[..|stack| - 1];
      if pid in seen {
        SearchSkips(ch, root, seen, stack, pid);
      } else {
        SearchVisits(ch, root, seen, stack, pid);
        ProperSubsetSize(AllKids(ch) - (seen + {pid}), AllKids(ch) - seen, pid);
        seen := seen + {pid};
        stack := stack + Kids(ch, pid);
      }
    }
    SearchEnds(ch, root, seen);
  }

  // ── roots and cycles ────────────────────────────────────────────────────

  function RootPids(es: seq<Edge>): set<int> {
    BlockingSet(es) - BlockedSet(es)
  }

  ghost predicate Cyclic(es: seq<Edge>) {
    exists c :: Reaches(Children(es), c, c)
  }

  ghost predicate Chain(ch: Graph, path: seq<int>) {
    forall i :: 0 <= i < |path| - 1 ==> path[i + 1] in Kids(ch, path[i])
  }

  ghost predicate NoRepeats(path: seq<int>) {
    forall i, j :: 0 <= i < j < |path| ==> path[i] != path[j]
  }

  lemma {:induction false} NoRepeatsFits(path: seq<int>, pids: set<int>)
    requires NoRepeats(path) && forall p :: p in path ==> p in pids
    ensures |path| <= |pids|
  {
    if |path| > 0 {
      assert path[0] in path;
      forall p | p in path[1..] ensures p in pids - {path[0]} {
        var i :| 0 <= i < |path[1..]| && path[1..][i] == p;
        assert path[i + 1] == p;
      }
      NoRepeatsFits(path[1..], pids - {path[0]});
      assert |pids - {path[0]}| == |pids| - 1;
    }
  }

  lemma {:induction false} ChainReaches(ch: Graph, path: seq<int>, j: nat)
    requires Chain(ch, path) && 0 < j < |path|
    ensures Reaches(ch, path[0], path[j])
  {
    if j == 1 {
      assert path[1] in Kids(ch, path[0]);
      assert ReachIn(ch, path[0], path[1], 0);
    } else {
      ChainReaches(ch, path, j - 1);
      assert path[j - 1 + 1] in Kids(ch, path[j - 1]);
      ReachStep(ch, path[0], path[j - 1], path[j]);
    }
  }

  ghost predicate BelowSomeRoot(es: seq<Edge>, b: int) {
    exists r :: r in RootPids(es) && Reaches(Children(es), r, b)
  }

  // c waits on itself, and b is c or waits on it.
  ghost predicate CycleAbove(ch: Graph, c: int, b: int) {
    Reaches(ch, c, c) && (c == b || Reaches(ch, c, b))
  }

  ghost predicate HangsOnACycle(ch: Graph, b: int) {
    exists c :: CycleAbove(ch, c, b)
  }

  // A walk up that revisits g has found a cycle through g, above where it began.
  lemma RevisitIsACycle(ch: Graph, path: seq<int>, g: int, i: nat)
    requires Chain(ch, path) && i < |path| && path[i] == g && path[0] in Kids(ch, g)
    ensures CycleAbove(ch, g, path[|path| - 1])
  {
    if i > 0 {
      ChainReaches(ch, path, i);
      var n: nat :| ReachIn(ch, path[0], g, n);
      ReachCons(ch, g, path[0], g, n);
    } else {
      assert ReachIn(ch, g, g, 0);
    }
    if i < |path| - 1 {
      var rest := path[i..];
      forall k | 0 <= k < |rest| - 1 ensures rest[k + 1] in Kids(ch, rest[k]) {
        assert path[i + k + 1] in Kids(ch, path[i + k]);
      }
      ChainReaches(ch, rest, |rest| - 1);
    }
  }

  lemma LongerChain(ch: Graph, path: seq<int>, g: int)
    requires path != [] && Chain(ch, path) && path[0] in Kids(ch, g)
    ensures Chain(ch, [g] + path)
  {
    var longer := [g] + path;
    forall i | 0 <= i < |longer| - 1 ensures longer[i + 1] in Kids(ch, longer[i]) {
      if i > 0 {
        assert path[(i - 1) + 1] in Kids(ch, path[i - 1]);
      }
    }
  }

  // Walking up from a blocked pid ends at a root above it, or finds a cycle above it.
  lemma {:induction false} Ascend(es: seq<Edge>, path: seq<int>)
    requires path != [] && Chain(Children(es), path) && NoRepeats(path)
    requires forall p :: p in path ==> p in BlockedSet(es)
    ensures BelowSomeRoot(es, path[|path| - 1]) || HangsOnACycle(Children(es), path[|path| - 1])
    decreases |BlockedSet(es)| - |path|
  {
    var ch := Children(es);
    NoRepeatsFits(path, BlockedSet(es));
    assert path[0] in path;
    var e :| e in es && e.blocked == path[0];
    var g := e.blocking;
    ChildrenAreTheEdges(es, g, path[0]);
    assert path[0] in Kids(ch, g);
    if g in path {
      var i :| 0 <= i < |path| && path[i] == g;
      RevisitIsACycle(ch, path, g, i);
    } else {
      var longer := [g] + path;
      LongerChain(ch, path, g);
      assert longer[|longer| - 1] == path[|path| - 1];
      if g in BlockedSet(es) {
        NoRepeatsFits(longer, BlockedSet(es));
        Ascend(es, longer);
      } else {
        ChainReaches(ch, longer, |longer| - 1);
        assert g in RootPids(es);
      }
    }
  }

  /** Blocking with no root means a cycle, so `deadlockSuspected` is never a false alarm. */
  lemma {:induction false} NoRootMeansCycle(es: seq<Edge>)
    requires es != [] && RootPids(es) == {}
    ensures Cyclic(es)
  {
    assert es[0] in es;
    Ascend(es, [es[0].blocked]);
  }

  lemma {:induction false} ReachedIsBlocked(es: seq<Edge>, a: int, b: int)
    requires Reaches(Children(es), a, b)
    ensures b in BlockedSet(es)
  {
    var n: nat :| ReachIn(Children(es), a, b, n);
    if n == 0 {
      ChildrenAreTheEdges(es, a, b);
    } else {
      var m :| ReachIn(Children(es), a, m, n - 1) && b in Kids(Children(es), m);
      ChildrenAreTheEdges(es, m, b);
    }
  }

  /** A root never waits on itself: it is not in its own `blockedPids`. */
  lemma {:induction false} RootNotBelowItself(es: seq<Edge>, r: int)
    requires r in RootPids(es)
    ensures !Reaches(Children(es), r, r)
  {
    if Reaches(Children(es), r, r) {
      ReachedIsBlocked(es, r, r);
    }
  }

  /** Without a cycle there are roots, and together their chains hold exactly the blocked pids. */
  lemma {:induction false} AcyclicRootsCoverBlocked(es: seq<Edge>)
    requires es != [] && !Cyclic(es)
    ensures RootPids(es) != {}
    ensures forall b :: b in BlockedSet(es) <==> BelowSomeRoot(es, b)
  {
    if RootPids(es) == {} {
      NoRootMeansCycle(es);
    }
    forall b ensures b in BlockedSet(es) <==> BelowSomeRoot(es, b) {
      if b in BlockedSet(es) {
        Ascend(es, [b]);
      } else if BelowSomeRoot(es, b) {
        var r :| r in RootPids(es) && Reaches(Children(es), r, b);
        ReachedIsBlocked(es, r, b);
      }
    }
  }

  lemma {:induction false} ReachTrans(ch: Graph, a: int, m: int, b: int, n: nat)
    requires Reaches(ch, a, m) && ReachIn(ch, m, b, n)
    ensures Reaches(ch, a, b)
    decreases n
  {
    if n == 0 {
      ReachStep(ch, a, m, b);
    } else {
      var k :| ReachIn(ch, m, k, n - 1) && b in Kids(ch, k);
      ReachTrans(ch, a, m, k, n - 1);
      ReachStep(ch, a, k, b);
    }
  }

  lemma BelowIsInherited(es: seq<Edge>, c: int, b: int)
    requires BelowSomeRoot(es, c) && (c == b || Reaches(Children(es), c, b))
    ensures BelowSomeRoot(es, b)
  {
    if c != b {
      var r :| r in RootPids(es) && Reaches(Children(es), r, c);
      var n: nat :| ReachIn(Children(es), c, b, n);
      ReachTrans(Children(es), r, c, b, n);
    }
  }

  /** A blocked backend that no root's chain lists is on, or waits on, a cycle that no root
      leads to. */
  lemma OmittedHangsOnACycle(es: seq<Edge>, b: int)
    requires b in BlockedSet(es) && !BelowSomeRoot(es, b)
    ensures exists c :: CycleAbove(Children(es), c, b) && !BelowSomeRoot(es, c)
  {
    Ascend(es, [b]);
    var c :| CycleAbove(Children(es), c, b);
    if BelowSomeRoot(es, c) {
      BelowIsInherited(es, c, b);
    }
  }

  /** The chains of the roots list every blocked backend if and only if every cycle waits, in
      the end, on a root. What they omit is a cycle that stands alone, and what waits on it. */
  lemma ChainsAreCompleteIff(es: seq<Edge>)
    ensures (forall b :: b in BlockedSet(es) ==> BelowSomeRoot(es, b)) <==>
            (forall c :: Reaches(Children(es), c, c) ==> BelowSomeRoot(es, c))
  {
    if forall c :: Reaches(Children(es), c, c) ==> BelowSomeRoot(es, c) {
      forall b | b in BlockedSet(es) ensures BelowSomeRoot(es, b) {
        if !BelowSomeRoot(es, b) {
          OmittedHangsOnACycle(es, b);
        }
      }
    }
    if forall b :: b in BlockedSet(es) ==> BelowSomeRoot(es, b) {
      forall c | Reaches(Children(es), c, c) ensures BelowSomeRoot(es, c) {
        ReachedIsBlocked(es, c, c);
      }
    }
  }

  // p is on, or waits on, a cycle that no root leads to.
  ghost predicate HangsOnAClosedCycle(es: seq<Edge>, p: int) {
    exists c :: CycleAbove(Children(es), c, p) && !BelowSomeRoot(es, c)
  }

  /** There is no root, so blocking is reported as a suspected deadlock, if and only if every
      blocking backend is on, or waits on, a cycle that no root leads to. So one blocking
      backend that hangs on no such cycle silences all the cycles there are. */
  lemma CyclesAreFlaggedIff(es: seq<Edge>)
    ensures RootPids(es) == {} <==> forall p :: p in BlockingSet(es) ==> HangsOnAClosedCycle(es, p)
  {
    if RootPids(es) == {} {
      forall p | p in BlockingSet(es) ensures HangsOnAClosedCycle(es, p) {
        assert p !in RootPids(es);
        OmittedHangsOnACycle(es, p);
      }
    } else {
      var r :| r in RootPids(es);
      if HangsOnAClosedCycle(es, r) {
        var c :| CycleAbove(Children(es), c, r);
        ReachedIsBlocked(es, c, r);
      }
    }
  }

  function CycleBesideARoot(): seq<Edge> {
    [Edge(2, 1, None, None), Edge(3, 4, None, None), Edge(4, 3, None, None)]
  }

  /** The converse fails: a cycle beside a root is not flagged, because a root exists.
      1 blocks 2, and 3 and 4 block each other: cyclic, yet 1 is a root. */
  lemma CycleBesideARootIsMissed()
    ensures Cyclic(CycleBesideARoot()) && 1 in RootPids(CycleBesideARoot())
  {
    var es := CycleBesideARoot();
    assert es[0] in es;
    TwoCycle(es, 1, 2);
  }

  lemma TwoCycle(es: seq<Edge>, i: nat, j: nat)
    requires i < |es| && j < |es|
    requires es[i].blocked == es[j].blocking && es[j].blocked == es[i].blocking
    ensures Cyclic(es)
  {
    EdgeShows(es, i);
    EdgeShows(es, j);
    var a := es[i].blocking;
    assert ReachIn(Children(es), a, es[i].blocked, 0);
    assert ReachIn(Children(es), a, a, 1);
    assert Reaches(Children(es), a, a);
  }

  // ── the report ──────────────────────────────────────────────────────────

  // An idle root holds locks without running a statement, so the advice differs.
  datatype Advice = EndSession | CancelOrEnd

  datatype Root = Root(
    pid: int,
    blockedPids: set<int>,
    query: Option<string>,
    state: Option<string>,
    idle: Option<bool>,
    advice: Advice
  )

  datatype Report =
    | NoBlocking
    | Deadlock(blockedBackends: nat)
    | Chains(
        blockedBackends: nat,
        rootCount: nat,
        worstRootPid: int,
        roots: seq<Root>,
        returned: nat,
        truncated: bool
      )

  function Idle(state: Option<string>): Option<bool> {
    if state.None? then None else Some("idle" <= state.value)
  }

  function AdviceFor(idle: Option<bool>): Advice {
    if idle == Some(true) then EndSession else CancelOrEnd
  }

  ghost predicate SortedByCount(rs: seq<Root>) {
    forall i, j :: 0 <= i < j < |rs| ==> |rs[i].blockedPids| >= |rs[j].blockedPids|
  }

  ghost predicate DistinctPids(rs: seq<Root>) {
    forall i, j :: 0 <= i < j < |rs| ==> rs[i].pid != rs[j].pid
  }

  function Insert(r: Root, rs: seq<Root>): seq<Root> {
    if rs == [] || |r.blockedPids| >= |rs[0].blockedPids| then [r] + rs
    else [rs[0]] + Insert(r, rs[1..])
  }

  lemma {:induction false} InsertKeepsMembers(r: Root, rs: seq<Root>, x: Root)
    ensures x in Insert(r, rs) <==> x == r || x in rs
  {
    if rs != [] && |r.blockedPids| < |rs[0].blockedPids| {
      InsertKeepsMembers(r, rs[1..], x);
    }
  }

  lemma {:induction false} InsertKeepsOrder(r: Root, rs: seq<Root>)
    requires SortedByCount(rs) && DistinctPids(rs)
    requires forall x :: x in rs ==> x.pid != r.pid
    ensures SortedByCount(Insert(r, rs)) && DistinctPids(Insert(r, rs))
  {
    if rs != [] && |r.blockedPids| < |rs[0].blockedPids| {
      InsertKeepsOrder(r, rs[1..]);
      var tail := Insert(r, rs[1..]);
      forall j | 0 <= j < |tail|
        ensures |rs[0].blockedPids| >= |tail[j].blockedPids| && rs[0].pid != tail[j].pid
      {
        InsertKeepsMembers(r, rs[1..], tail[j]);
        if tail[j] in rs[1..] {
          var k :| 0 <= k < |rs[1..]| && rs[1..][k] == tail[j];
          assert rs[k + 1] == tail[j];
        }
        assert rs[0] in rs;
      }
    }
  }

  // `list.sort(key=count, reverse=True)`
  function Sorted(rs: seq<Root>): seq<Root> {
    if rs == [] then [] else Insert(rs[0], Sorted(rs[1..]))
  }

  lemma {:induction false} SortedKeepsMembers(rs: seq<Root>, x: Root)
    ensures x in Sorted(rs) <==> x in rs
  {
    if rs != [] {
      SortedKeepsMembers(rs[1..], x);
      InsertKeepsMembers(rs[0], Sorted(rs[1..]), x);
    }
  }

  lemma {:induction false} SortedIsSorted(rs: seq<Root>)
    requires DistinctPids(rs)
    ensures SortedByCount(Sorted(rs)) && DistinctPids(Sorted(rs))
  {
    if rs != [] {
      SortedIsSorted(rs[1..]);
      forall x | x in Sorted(rs[1..]) ensures x.pid != rs[0].pid {
        SortedKeepsMembers(rs[1..], x);
        var k :| 0 <= k < |rs[1..]| && rs[1..][k] == x;
        assert rs[k + 1] == x;
      }
      InsertKeepsOrder(rs[0], Sorted(rs[1..]));
    }
  }

  ghost predicate IsFirst(es: seq<Edge>, g: int, j: int) {
    0 <= j < |es| && es[j].blocking == g && forall k :: 0 <= k < j ==> es[k].blocking != g
  }

  // What one root entry must say about the graph.
  ghost predicate RootEntry(es: seq<Edge>, r: Root) {
    && r.pid in RootPids(es)
    && (forall b :: b in r.blockedPids <==> Reaches(Children(es), r.pid, b))
    && FirstSeen(es, r.pid, r.query, r.state)
    && r.idle == Idle(r.state)
    && r.advice == AdviceFor(r.idle)
  }

  // Every root, once each, described correctly and ordered by how many backends it holds up.
  ghost predicate FullRanking(es: seq<Edge>, rs: seq<Root>) {
    && SortedByCount(rs)
    && DistinctPids(rs)
    && (forall r :: r in rs ==> RootEntry(es, r))
    && (forall p :: p in RootPids(es) ==> HasEntry(rs, p))
  }

  type Column = map<int, Option<string>>

  // g's columns are those of the first edge it blocks.
  ghost predicate FirstSeen(es: seq<Edge>, g: int, query: Option<string>, state: Option<string>) {
    exists j :: IsFirst(es, g, j) && query == es[j].query && state == es[j].state
  }

  ghost predicate Indexed(es: seq<Edge>, pids: set<int>, query: Column, state: Column) {
    && query.Keys == pids
    && state.Keys == pids
    && forall g :: g in pids ==> FirstSeen(es, g, query[g], state[g])
  }

  lemma NextIsFirst(es: seq<Edge>, i: nat)
    requires i < |es| && es[i].blocking !in BlockingSet(es[..i])
    ensures FirstSeen(es, es[i].blocking, es[i].query, es[i].state)
  {
    forall k | 0 <= k < i ensures es[k].blocking != es[i].blocking {
      assert es[..i][k] in es[..i];
    }
    assert IsFirst(es, es[i].blocking, i);
  }

  lemma PrefixGrows(es: seq<Edge>, i: nat)
    requires i < |es|
    ensures BlockingSet(es[..i + 1]) == BlockingSet(es[..i]) + {es[i].blocking}
    ensures BlockedSet(es[..i + 1]) == BlockedSet(es[..i]) + {es[i].blocked}
    ensures Children(es[..i + 1]) == Children(es[..i])[es[i].blocking :=
                                       Kids(Children(es[..i]), es[i].blocking) + [es[i].blocked]]
  {
    assert es[..i + 1][..i] == es[..i];
    assert es[..i + 1] == es[..i] + [es[i]];
  }

  method Index(es: seq<Edge>)
    returns (ch: Graph, query: Column, state: Column, blocked: set<int>, blocking: set<int>)
    ensures ch == Children(es) && blocked == BlockedSet(es) && blocking == BlockingSet(es)
    ensures Indexed(es, blocking, query, state)
  {
    ch, query, state, blocked, blocking := map[], map[], map[], {}, {};
    for i := 0 to |es|
      invariant ch == Children(es[..i])
      invariant blocked == BlockedSet(es[..i]) && blocking == BlockingSet(es[..i])
      invariant Indexed(es, blocking, query, state)
    {
      var e := es[i];
      PrefixGrows(es, i);
      ch := ch[e.blocking := Kids(ch, e.blocking) + [e.blocked]];
      if e.blocking !in query {
        NextIsFirst(es, i);
        query := query[e.blocking := e.query];
        state := state[e.blocking := e.state];
      }
      blocked := blocked + {e.blocked};
      blocking := blocking + {e.blocking};
    }
    assert es[..|es|] == es;
  }

  method Describe(es: seq<Edge>, ch: Graph, query: Column, state: Column, pid: int) returns (r: Root)
    requires ch == Children(es) && Indexed(es, BlockingSet(es), query, state)
    requires pid in RootPids(es)
    ensures RootEntry(es, r) && r.pid == pid
  {
    var below := Descendants(pid, ch);
    var idle := Idle(state[pid]);
    r := Root(pid, below, query[pid], state[pid], idle, AdviceFor(idle));
  }

  method RankRoots(es: seq<Edge>, ch: Graph, query: Column, state: Column) returns (ranked: seq<Root>)
    requires ch == Children(es) && Indexed(es, BlockingSet(es), query, state)
    ensures FullRanking(es, ranked) && (RootPids(es) != {} ==> ranked != [])
  {
    var roots: seq<Root> := [];
    var todo := RootPids(es);
    ghost var done: set<int> := {};
    while todo != {}
      invariant done !! todo && done + todo == RootPids(es)
      invariant Ranked(es, roots, done)
      decreases todo
    {
      ghost var someRoot := Pick(todo);
      var pid :| pid in todo;
      var r := Describe(es, ch, query, state, pid);
      RankedGrows(es, roots, done, r);
      roots, done, todo := roots + [r], done + {pid}, todo - {pid};
    }
    RankingSurvivesSorting(es, roots);
    ranked := Sorted(roots);
  }

  function Capped(backends: nat, ranked: seq<Root>): Report
    requires ranked != []
  {
    var shown := if |ranked| <= MAX_ROWS then ranked else ranked[..MAX_ROWS];
    Chains(backends, |ranked|, ranked[0].pid, shown, |shown|, |ranked| > MAX_ROWS)
  }

  ghost predicate ReportFor(es: seq<Edge>, rep: Report) {
    if es == [] then rep == NoBlocking
    else if RootPids(es) == {} then rep == Deadlock(|BlockedSet(es)|)
    else exists all: seq<Root> {:trigger FullRanking(es, all)} ::
        FullRanking(es, all) && all != [] && rep == Capped(|BlockedSet(es)|, all)
  }

  method Rca(pairs: seq<Pair>) returns (rep: Report)
    ensures ReportFor(Edges(pairs), rep)
  {
    var es := Edges(pairs);
    if es == [] {
      return NoBlocking;
    }
    var ch, query, state, blocked, blocking := Index(es);
    if blocking - blocked == {} {
      return Deadlock(|blocked|);
    }
    var ranked := RankRoots(es, ch, query, state);
    rep := Capped(|blocked|, ranked);
  }

  // Entries for exactly the given root pids, one each.
  ghost predicate Ranked(es: seq<Edge>, rs: seq<Root>, pids: set<int>) {
    && DistinctPids(rs)
    && (forall r :: r in rs ==> RootEntry(es, r) && r.pid in pids)
    && (forall p :: p in pids ==> HasEntry(rs, p))
  }

  ghost predicate HasEntry(rs: seq<Root>, p: int) {
    exists r :: r in rs && r.pid == p
  }

  lemma RankedGrows(es: seq<Edge>, rs: seq<Root>, pids: set<int>, r: Root)
    requires Ranked(es, rs, pids) && RootEntry(es, r) && r.pid !in pids
    ensures Ranked(es, rs + [r], pids + {r.pid})
  {
    var more := rs + [r];
    forall i, j | 0 <= i < j < |more| ensures more[i].pid != more[j].pid {
      assert rs[i] in rs;
    }
    forall p | p in pids + {r.pid} ensures HasEntry(more, p) {
      if p == r.pid {
        assert r in more;
      } else {
        var q :| q in rs && q.pid == p;
        assert q in more;
      }
    }
  }

  lemma RankingSurvivesSorting(es: seq<Edge>, roots: seq<Root>)
    requires Ranked(es, roots, RootPids(es))
    ensures FullRanking(es, Sorted(roots))
    ensures RootPids(es) != {} ==> Sorted(roots) != []
  {
    SortedIsSorted(roots);
    forall r ensures r in Sorted(roots) <==> r in roots {
      SortedKeepsMembers(roots, r);
    }
    forall p | p in RootPids(es) ensures HasEntry(Sorted(roots), p) {
      var r :| r in roots && r.pid == p;
      assert r in Sorted(roots);
    }
    if RootPids(es) != {} {
      var p := Pick(RootPids(es));
      assert HasEntry(Sorted(roots), p);
    }
  }

  /** The head of the ranking blocks at least as many backends as any root of the graph. */
  lemma {:induction false} WorstRootIsMaximal(es: seq<Edge>, rs: seq<Root>, p: int)
    requires FullRanking(es, rs) && p in RootPids(es)
    ensures exists r :: r in rs && r.pid == p && |r.blockedPids| <= |rs[0].blockedPids|
  {
    var r :| r in rs && r.pid == p;
    var i :| 0 <= i < |rs| && rs[i] == r;
  }
}
