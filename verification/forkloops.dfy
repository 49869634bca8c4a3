/** Fork's loops as the engine runs them: the level-by-level sweep of the rewind step's subtree, the recount of a
 spawn by walking its branches, and the hand-out of new ids. */
module ForkLoops {
  import opened Rows
  import opened Transactions
  import opened Shape
  import opened Reach
  import opened Pruning
  import opened Recount
  import opened Renaming

  // ----- collectDAGSubtree

  /** One query of the sweep: the steps of the flow that the frontier's successor links or their own predecessor link name. */
  function NextLevel(steps: map<nat, Step>, f: nat, frontier: set<nat>): set<nat> {
    set z | z in steps && steps[z].flow == f
            && (steps[z].pred in frontier
                || z in (set p | p in frontier && p in steps && steps[p].succ != 0 :: steps[p].succ))
  }

  lemma LevelIsEdges(steps: map<nat, Step>, f: nat, frontier: set<nat>, z: nat)
    requires 0 !in steps && forall p <- frontier :: p in steps
    ensures z in NextLevel(steps, f, frontier)
            <==> z in steps && steps[z].flow == f && exists p :: p in frontier && Edge(steps, p, z)
  {
    if z in NextLevel(steps, f, frontier) {
      if steps[z].pred in frontier {
        assert Edge(steps, steps[z].pred, z);
      } else {
        var p :| p in frontier && p in steps && steps[p].succ != 0 && steps[p].succ == z;
        assert Edge(steps, p, z);
      }
    }
  }

  /** A set of reached steps that every edge stays in is all that is reached. */
  lemma {:induction false} ClosedIsAll(steps: map<nat, Step>, start: nat, visited: set<nat>, z: nat)
    requires Shaped(steps) && 0 !in steps && start in visited && Reaches(steps, start, z)
    requires forall p, y :: p in visited && Edge(steps, p, y) ==> y in visited
    ensures z in visited
    decreases z
  {
    var p: nat :| Hop(steps, p, z) && p < z && (p == start || Reaches(steps, start, p));
    if p != start { ClosedIsAll(steps, start, visited, p); }
  }

  lemma EdgeReaches(steps: map<nat, Step>, start: nat, p: nat, z: nat)
    requires Shaped(steps) && 0 !in steps && (p == start || Reaches(steps, start, p)) && Edge(steps, p, z)
    ensures Reaches(steps, start, z) && steps[z].flow == steps[p].flow
  {
    EdgesAreLinks(steps, p, z);
    OneHop(steps, p, z);
    if p != start { ReachesOn(steps, start, p, z); }
  }

  /** One level of the sweep: the rows not seen before are collected and make up the next frontier. */
  method AddLevel(level: set<nat>, visited: set<nat>, collected: seq<nat>)
    returns (visited': set<nat>, collected': seq<nat>, frontier: set<nat>)
    requires forall z :: z in collected ==> z in visited
    requires forall i, j :: 0 <= i < j < |collected| ==> collected[i] != collected[j]
    ensures visited' == visited + level && frontier == level - visited
    ensures forall z :: z in collected' <==> z in collected || z in frontier
    ensures forall i, j :: 0 <= i < j < |collected'| ==> collected'[i] != collected'[j]
  {
    var rows := level;
    visited', collected', frontier := visited, collected, {};
    while rows != {}
      invariant rows <= level && visited' == visited + (level - rows) && frontier == (level - rows) - visited
      invariant forall z :: z in collected' <==> z in collected || z in frontier
      invariant forall i, j :: 0 <= i < j < |collected'| ==> collected'[i] != collected'[j]
    {
      var z :| z in rows;
      rows := rows - {z};
      if z !in visited' {
        visited' := visited' + {z};
        collected' := collected' + [z];
        frontier := frontier + {z};
      }
    }
  }

  /** The breadth-first sweep, against any set that the edges from the start stay in. */
  method Sweep(steps: map<nat, Step>, f: nat, start: nat, ghost reach: set<nat>) returns (collected: seq<nat>)
    requires start in steps && start !in reach && reach <= steps.Keys
    requires forall frontier, z :: frontier <= reach + {start} && z in NextLevel(steps, f, frontier) ==> z in reach
    ensures forall z :: z in collected ==> z in reach
    ensures forall i, j :: 0 <= i < j < |collected| ==> collected[i] != collected[j]
    ensures forall p, z :: (p == start || p in collected) && z in NextLevel(steps, f, {p}) ==> z in collected
  {
    var visited := {start};
    collected := [];
    var frontier := {start};
    while frontier != {}
      invariant frontier <= visited <= reach + {start} && start in visited
      invariant forall z :: z in collected <==> z in visited && z != start
      invariant forall p, z :: p in visited && p !in frontier && z in NextLevel(steps, f, {p}) ==> z in visited
      invariant forall i, j :: 0 <= i < j < |collected| ==> collected[i] != collected[j]
      decreases |steps.Keys - visited|, |frontier|
    {
      var level := NextLevel(steps, f, frontier);
      assert level <= reach;
      ghost var before, old_frontier := visited, frontier;
      visited, collected, frontier := AddLevel(level, visited, collected);
      forall p, z | p in visited && p !in frontier && z in NextLevel(steps, f, {p}) ensures z in visited {
        if p in old_frontier { LevelOfOne(steps, f, old_frontier, p, z); }
      }
      Shrinks(steps.Keys, before, visited);
    }
  }

  lemma LevelOfOne(steps: map<nat, Step>, f: nat, frontier: set<nat>, p: nat, z: nat)
    requires p in frontier && z in NextLevel(steps, f, {p})
    ensures z in NextLevel(steps, f, frontier)
  {
  }

  /** It collects exactly the steps the start reaches, each once, and not the start. */
  method CollectSubtree(steps: map<nat, Step>, f: nat, start: nat) returns (collected: seq<nat>)
    requires Shaped(steps) && 0 !in steps && start in steps && steps[start].flow == f
    ensures forall z :: z in collected <==> Reaches(steps, start, z)
    ensures forall i, j :: 0 <= i < j < |collected| ==> collected[i] != collected[j]
  {
    ghost var reach := ReachSet(steps, start);
    ReachClosed(steps, f, start);
    collected := Sweep(steps, f, start, reach);
    SweptAll(steps, f, start, collected);
  }

  ghost function ReachSet(steps: map<nat, Step>, start: nat): set<nat> {
    set z | z in steps && Reaches(steps, start, z)
  }

  lemma ReachClosed(steps: map<nat, Step>, f: nat, start: nat)
    requires Shaped(steps) && 0 !in steps && start in steps
    ensures start !in ReachSet(steps, start)
    ensures forall frontier, z :: frontier <= ReachSet(steps, start) + {start} && z in NextLevel(steps, f, frontier)
                                  ==> z in ReachSet(steps, start)
  {
    if Reaches(steps, start, start) { ReachesUp(steps, start, start); }
    forall frontier, z | frontier <= ReachSet(steps, start) + {start} && z in NextLevel(steps, f, frontier)
      ensures z in ReachSet(steps, start)
    {
      LevelIsEdges(steps, f, frontier, z);
      var p :| p in frontier && Edge(steps, p, z);
      EdgeReaches(steps, start, p, z);
    }
  }

  lemma SweptAll(steps: map<nat, Step>, f: nat, start: nat, collected: seq<nat>)
    requires Shaped(steps) && 0 !in steps && start in steps && steps[start].flow == f
    requires forall z :: z in collected ==> z in ReachSet(steps, start)
    requires forall p, z :: (p == start || p in collected) && z in NextLevel(steps, f, {p}) ==> z in collected
    ensures forall z :: z in collected <==> Reaches(steps, start, z)
  {
    var visited := {start} + ReachSet(steps, start) * (set z | z in collected);
    forall p, y | p in visited && Edge(steps, p, y) ensures y in visited {
      EdgeReaches(steps, start, p, y);
      if p != start { ReachesUp(steps, start, p); }
      ReachesUp(steps, start, y);
      LevelIsEdges(steps, f, {p}, y);
      assert p in {p};
    }
    forall z | Reaches(steps, start, z) ensures z in collected {
      ClosedIsAll(steps, start, visited, z);
      ReachesUp(steps, start, z);
    }
  }

  lemma Shrinks(all: set<nat>, before: set<nat>, after: set<nat>)
    requires before <= after <= all
    ensures |all - after| <= |all - before|
    ensures after != before ==> |all - after| < |all - before|
  {
    if after != before {
      var y :| y in after && y !in before;
      assert all - after <= all - before - {y};
      SubsetSize(all - after, all - before - {y});
    }
  }

  lemma {:induction false} SubsetSize(a: set<nat>, b: set<nat>)
    requires a <= b
    ensures |a| <= |b|
    decreases a
  {
    if a != {} {
      var y :| y in a;
      SubsetSize(a - {y}, b - {y});
    }
  }

  // ----- The recount

  /** inCohort, with its memo: does the lineage chain that starts at l reach s? */
  method InCohortMemo(lineageOf: map<nat, nat>, s: nat, l: nat, memo: map<nat, bool>)
    returns (found: bool, memo': map<nat, bool>)
    requires s != 0 && forall k :: k in lineageOf ==> lineageOf[k] < k
    requires forall k <- memo :: memo[k] == OnChain(lineageOf, k, s)
    ensures found == OnChain(lineageOf, l, s)
    ensures forall k <- memo' :: memo'[k] == OnChain(lineageOf, k, s)
    decreases l
  {
    if l == 0 { return false, memo; }
    if l in memo { return memo[l], memo; }
    memo' := memo;
    if l == s {
      found := true;
    } else if l in lineageOf {
      found, memo' := InCohortMemo(lineageOf, s, lineageOf[l], memo');
    } else {
      found := false;
    }
    memo' := memo'[l := found];
  }

  /** The chain of lineages that starts at l passes s. An id without a row has lineage 0. */
  predicate OnChain(lineageOf: map<nat, nat>, l: nat, s: nat)
    decreases l
  {
    l != 0 && (l == s || (l in lineageOf && lineageOf[l] < l && OnChain(lineageOf, lineageOf[l], s)))
  }

  /** On rows whose lineages are all kept, the chain says what the nesting says. */
  lemma {:induction false} ChainIsWithin(steps: map<nat, Step>, f: nat, x: nat, lineageOf: map<nat, nat>, l: nat, s: nat)
    requires Rewinds(steps, f, x) && s != 0 && (l == 0 || l in Kept(steps, f, x))
    requires lineageOf.Keys == Kept(steps, f, x) && forall k <- lineageOf :: k in steps && lineageOf[k] == steps[k].lineage
    ensures OnChain(lineageOf, l, s) <==> l != 0 && (l == s || Within(steps, l, s))
    decreases l
  {
    if l != 0 && l != s {
      KeptClosed(steps, f, x, l);
      ChainIsWithin(steps, f, x, lineageOf, steps[l].lineage, s);
    }
  }

  /** A step and its child by predecessor link lie in the same branch of s, if the child lies inside s at all. */
  lemma ChildSameBranch(steps: map<nat, Step>, n: nat, c: nat, s: nat, h: nat)
    requires Shaped(steps) && 0 !in steps && InBranch(steps, n, s, h)
    requires c in steps && steps[c].pred == n && Within(steps, c, s)
    ensures InBranch(steps, c, s, h)
  {
    assert StepShape(steps, c) && StepShape(steps, n);
    assert Edge(steps, n, c);
    EdgesAreLinks(steps, n, c);
    LinkKeepsBranch(steps, n, c, s);
  }

  /** An edge between two steps inside the cohort of s stays on one branch. */
  lemma LinkKeepsBranch(steps: map<nat, Step>, p: nat, z: nat, s: nat)
    requires Shaped(steps) && 0 !in steps && LineageDown(steps) && Link(steps, p, z) && Within(steps, p, s) && Within(steps, z, s)
    ensures steps[MemberOf(steps, p, s)].head == steps[MemberOf(steps, z, s)].head
  {
    assert StepShape(steps, z) && StepShape(steps, p);
    if steps[z].lineage == p && steps[z].head == z {
      WithinLower(steps, p, s);
    } else if steps[p].next == z {
    } else {
      var c := steps[p].lineage;
      assert StepShape(steps, c);
      if c == s {
        WithinLower(steps, z, s);
        WithinLower(steps, steps[z].lineage, s);
        assert false;
      }
    }
  }

  /** The parent by predecessor link of a step on a branch is on the branch, unless the step heads it. */
  lemma ParentSameBranch(steps: map<nat, Step>, z: nat, s: nat, h: nat)
    requires Shaped(steps) && 0 !in steps && InBranch(steps, z, s, h) && z != h
    ensures steps[z].pred != 0 && steps[z].pred < z && InBranch(steps, steps[z].pred, s, h)
  {
    assert StepShape(steps, z);
    var p := steps[z].pred;
    assert Edge(steps, p, z);
    EdgesAreLinks(steps, p, z);
    LinkInto(steps, p, z, s);
    if p == s {
      SpawnToHead(steps, z, s, h);
    } else {
      LinkKeepsBranch(steps, p, z, s);
    }
  }

  lemma SpawnToHead(steps: map<nat, Step>, z: nat, s: nat, h: nat)
    requires Shaped(steps) && 0 !in steps && InBranch(steps, z, s, h) && Link(steps, s, z)
    ensures z == h
  {
    assert StepShape(steps, z) && StepShape(steps, s);
    WithinLower(steps, z, s);
    if steps[z].lineage == s && steps[z].head == z {
    } else {
      var l := steps[z].lineage;
      if steps[s].next == z {
        assert l == steps[s].lineage;
      } else {
        assert StepShape(steps, steps[s].lineage);
      }
      assert l < s;
      if l != s { WithinLower(steps, l, s); }
      assert false;
    }
  }

  /** The steps inside the cohort of s, and those of its branch h, among the kept ones. */
  ghost function Inside(steps: map<nat, Step>, kept: set<nat>, s: nat): set<nat> {
    set z | z in kept && Within(steps, z, s)
  }

  ghost function BranchSteps(steps: map<nat, Step>, kept: set<nat>, s: nat, h: nat): set<nat> {
    set z | z in kept && InBranch(steps, z, s, h)
  }

  /** A branch is a tree of predecessor links with its head for a root. */
  ghost predicate Rooted(steps: map<nat, Step>, inside: set<nat>, branch: set<nat>, head: nat) {
    && head in branch && branch <= inside
    && (forall z <- inside :: z in steps)
    && steps[head].pred !in branch
    && (forall c <- inside | steps[c].pred in branch :: c in branch)
    && (forall c <- branch | c != head :: steps[c].pred in branch && steps[c].pred < c)
  }

  lemma BranchRooted(steps: map<nat, Step>, f: nat, x: nat, s: nat, h: nat)
    requires Rewinds(steps, f, x) && s != 0 && h in Heads(steps, Kept(steps, f, x), s)
    ensures Rooted(steps, Inside(steps, Kept(steps, f, x), s), BranchSteps(steps, Kept(steps, f, x), s, h), h)
  {
    var kept := Kept(steps, f, x);
    var inside, branch := Inside(steps, kept, s), BranchSteps(steps, kept, s, h);
    HeadInBranch(steps, f, x, s, h);
    HeadHasSpawn(steps, f, x, s, h);
    forall c | c in inside && steps[c].pred in branch ensures c in branch {
      ChildSameBranch(steps, steps[c].pred, c, s, h);
    }
    forall c | c in branch && c != h ensures steps[c].pred in branch && steps[c].pred < c {
      ParentSameBranch(steps, c, s, h);
      KeptClosed(steps, f, x, c);
    }
  }

  /** What a walk closed under children has seen. */
  lemma {:induction false} WalkSeesAll(steps: map<nat, Step>, inside: set<nat>, branch: set<nat>, head: nat, seen: set<nat>, z: nat)
    requires Rooted(steps, inside, branch, head) && head in seen && z in branch
    requires forall c <- inside | steps[c].pred in seen :: c in seen
    ensures z in seen
    decreases z
  {
    if z != head { WalkSeesAll(steps, inside, branch, head, seen, steps[z].pred); }
  }

  ghost predicate HasStatus(steps: map<nat, Step>, ys: set<nat>, st: Status) {
    exists z :: z in ys && z in steps && steps[z].status == st
  }

  lemma OneMoreStatus(steps: map<nat, Step>, ys: set<nat>, n: nat, st: Status)
    requires n in steps
    ensures HasStatus(steps, ys + {n}, st) <==> HasStatus(steps, ys, st) || steps[n].status == st
  {
    if steps[n].status == st { assert n in ys + {n}; }
  }

  /** Where a walk stands: `seen` is done, `stack` is to do, and no child of a seen step is missing. */
  ghost predicate Walking(steps: map<nat, Step>, inside: set<nat>, branch: set<nat>, head: nat, seen: set<nat>, stack: seq<nat>) {
    && seen <= branch && (forall z <- stack :: z in branch && z !in seen) && Distinct(stack)
    && (head in seen || head in stack)
    && (forall z <- branch :: z in steps && ((z in seen || z in stack) && z != head ==> steps[z].pred in seen))
    && (forall c <- inside :: c in steps && (steps[c].pred in seen ==> c in seen || c in stack))
  }

  lemma WalkOn(steps: map<nat, Step>, inside: set<nat>, branch: set<nat>, head: nat, seen: set<nat>,
               rest: seq<nat>, n: nat, children: seq<nat>)
    requires Rooted(steps, inside, branch, head) && Walking(steps, inside, branch, head, seen, rest + [n])
    requires Distinct(children) && forall c :: c in children <==> c in inside && c in steps && steps[c].pred == n
    ensures n in branch && n !in seen && n in steps && Walking(steps, inside, branch, head, seen + {n}, rest + children)
    ensures |branch - (seen + {n})| < |branch - seen|
  {
    assert (rest + [n])[|rest|] == n;
    assert branch - (seen + {n}) == branch - seen - {n};
    var stack := rest + [n];
    assert stack[|rest|] == n;
    assert forall z :: z in rest ==> z in stack;
    forall c | c in children ensures c in branch && c !in seen + {n} && c !in rest && c != head {
      assert steps[c].pred == n;
    }
    DistinctParts(rest, children, n);
  }

  lemma TakeOneMore(keep: seq<nat>, i: nat)
    requires Distinct(keep) && i < |keep|
    ensures keep[..i + 1] == keep[..i] + [keep[i]] && keep[i] !in keep[..i] && keep[i] in keep
  {
  }

  lemma DistinctParts(rest: seq<nat>, children: seq<nat>, n: nat)
    requires Distinct(rest + [n]) && Distinct(children) && forall c <- children :: c !in rest
    ensures Distinct(rest + children) && n !in rest
  {
    var stack, both := rest + [n], rest + children;
    assert stack[|rest|] == n;
    forall i | 0 <= i < |rest| ensures stack[i] == rest[i] != n && both[i] == rest[i] {}
    forall i, j | 0 <= i < j < |both| ensures both[i] != both[j] {
      if j < |rest| {
        assert stack[i] != stack[j];
      } else if i < |rest| {
        assert both[j] == children[j - |rest|] && children[j - |rest|] in children;
      } else {
        assert both[i] == children[i - |rest|] && both[j] == children[j - |rest|];
      }
    }
  }

  lemma WalkStarts(steps: map<nat, Step>, inside: set<nat>, branch: set<nat>, head: nat)
    requires Rooted(steps, inside, branch, head)
    ensures Walking(steps, inside, branch, head, {}, [head])
    ensures !HasStatus(steps, {}, Failed) && !HasStatus(steps, {}, Cancelled)
  {
  }

  lemma WalkEnds(steps: map<nat, Step>, inside: set<nat>, branch: set<nat>, head: nat, seen: set<nat>)
    requires Rooted(steps, inside, branch, head) && Walking(steps, inside, branch, head, seen, [])
    ensures seen == branch
  {
    forall z | z in branch ensures z in seen { WalkSeesAll(steps, inside, branch, head, seen, z); }
  }

  method Pop(stack: seq<nat>) returns (n: nat, rest: seq<nat>)
    requires stack != []
    ensures stack == rest + [n]
  {
    n, rest := stack[|stack| - 1], stack[..|stack| - 1];
  }

  /** The stack walk from a head: what it holds, and whether x is on it. */
  method Walk(steps: map<nat, Step>, keep: seq<nat>, lineageOf: map<nat, nat>, x: nat, s: nat, head: nat,
              ghost inside: set<nat>, ghost branch: set<nat>)
    returns (failed: bool, cancelled: bool, rewound: bool)
    requires s != 0 && Rooted(steps, inside, branch, head) && Distinct(keep) && ChainsTold(steps, keep, lineageOf, s, inside)
    ensures failed <==> HasStatus(steps, branch, Failed)
    ensures cancelled <==> HasStatus(steps, branch, Cancelled)
    ensures rewound <==> x in branch
  {
    ghost var seen: set<nat> := {};
    failed, cancelled, rewound := false, false, false;
    var stack := [head];
    WalkStarts(steps, inside, branch, head);
    while stack != []
      invariant Walking(steps, inside, branch, head, seen, stack)
      invariant failed <==> HasStatus(steps, seen, Failed)
      invariant cancelled <==> HasStatus(steps, seen, Cancelled)
      invariant rewound <==> x in seen
      decreases |branch - seen|
    {
      var n, rest := Pop(stack);
      var children := ChildrenInCohort(steps, keep, lineageOf, s, n, inside);
      WalkOn(steps, inside, branch, head, seen, rest, n, children);
      if n == x { rewound := true; }
      if steps[n].status.Failed? { failed := true; }
      if steps[n].status.Cancelled? { cancelled := true; }
      OneMoreStatus(steps, seen, n, Failed);
      OneMoreStatus(steps, seen, n, Cancelled);
      seen := seen + {n};
      stack := rest + children;
    }
    WalkEnds(steps, inside, branch, head, seen);
  }

  predicate Distinct(s: seq<nat>) {
    forall i, j :: 0 <= i < j < |s| ==> s[i] != s[j]
  }

  /**
   The walk of one branch of spawn s from its head: which outcomes it holds among the kept steps, and whether the
   rewind step is on it.
   */
  method WalkBranch(steps: map<nat, Step>, keep: seq<nat>, f: nat, x: nat, s: nat, head: nat)
    returns (failed: bool, cancelled: bool, rewound: bool)
    requires Rewinds(steps, f, x) && (forall y :: y in keep <==> y in Kept(steps, f, x)) && Distinct(keep)
    requires s != 0 && head in Heads(steps, Kept(steps, f, x), s)
    ensures failed <==> BranchHolds(steps, Kept(steps, f, x), s, head, Failed)
    ensures cancelled <==> BranchHolds(steps, Kept(steps, f, x), s, head, Cancelled)
    ensures rewound <==> InBranch(steps, x, s, head)
  {
    BranchRooted(steps, f, x, s, head);
    LineagesTold(steps, f, x, keep, s);
    failed, cancelled, rewound := WalkKept(steps, keep, x, s, head, Kept(steps, f, x));
    RewindStays(steps, f, x);
  }

  function LineageOf(steps: map<nat, Step>, keep: seq<nat>): map<nat, nat>
    requires forall y <- keep :: y in steps
  {
    map y | y in keep :: steps[y].lineage
  }

  lemma LineagesTold(steps: map<nat, Step>, f: nat, x: nat, keep: seq<nat>, s: nat)
    requires Rewinds(steps, f, x) && s != 0 && forall y :: y in keep <==> y in Kept(steps, f, x)
    ensures forall y <- keep :: y in steps
    ensures ChainsTold(steps, keep, LineageOf(steps, keep), s, Inside(steps, Kept(steps, f, x), s))
  {
    assert LineageOf(steps, keep).Keys == Kept(steps, f, x);
    Told(steps, f, x, keep, LineageOf(steps, keep), s);
  }

  method WalkKept(steps: map<nat, Step>, keep: seq<nat>, x: nat, s: nat, head: nat, ghost kept: set<nat>)
    returns (failed: bool, cancelled: bool, rewound: bool)
    requires s != 0 && Distinct(keep) && forall y <- keep :: y in steps
    requires Rooted(steps, Inside(steps, kept, s), BranchSteps(steps, kept, s, head), head)
    requires ChainsTold(steps, keep, LineageOf(steps, keep), s, Inside(steps, kept, s))
    ensures failed <==> BranchHolds(steps, kept, s, head, Failed)
    ensures cancelled <==> BranchHolds(steps, kept, s, head, Cancelled)
    ensures rewound <==> x in BranchSteps(steps, kept, s, head)
  {
    failed, cancelled, rewound := Walk(steps, keep, LineageOf(steps, keep), x, s, head,
                                       Inside(steps, kept, s), BranchSteps(steps, kept, s, head));
    HoldsIs(steps, kept, s, head, Failed);
    HoldsIs(steps, kept, s, head, Cancelled);
  }

  lemma HoldsIs(steps: map<nat, Step>, kept: set<nat>, s: nat, h: nat, st: Status)
    ensures HasStatus(steps, BranchSteps(steps, kept, s, h), st) <==> BranchHolds(steps, kept, s, h, st)
  {
    var branch := BranchSteps(steps, kept, s, h);
    if z :| z in kept && InBranch(steps, z, s, h) && steps[z].status == st { assert z in branch; }
  }

  lemma RewindStays(steps: map<nat, Step>, f: nat, x: nat)
    requires Rewinds(steps, f, x)
    ensures x in Kept(steps, f, x)
  {
    if Reaches(steps, x, x) { ReachesUp(steps, x, x); }
  }

  lemma HeadInBranch(steps: map<nat, Step>, f: nat, x: nat, s: nat, h: nat)
    requires Rewinds(steps, f, x) && s != 0 && h in Heads(steps, Kept(steps, f, x), s)
    ensures InBranch(steps, h, s, h)
  {
    assert StepShape(steps, h);
    assert Within(steps, h, s);
  }

  lemma HeadHasSpawn(steps: map<nat, Step>, f: nat, x: nat, s: nat, h: nat)
    requires Rewinds(steps, f, x) && h in Heads(steps, Kept(steps, f, x), s)
    ensures steps[h].pred == s && !Within(steps, s, s)
  {
    if Within(steps, s, s) { WithinLower(steps, s, s); }
  }

  /** For every kept row, the chain of its lineage tells whether it lies inside. */
  ghost predicate ChainsTold(steps: map<nat, Step>, keep: seq<nat>, lineageOf: map<nat, nat>, s: nat, inside: set<nat>) {
    && (forall k <- lineageOf :: lineageOf[k] < k)
    && (forall c <- keep :: c in steps && (OnChain(lineageOf, steps[c].lineage, s) <==> c in inside))
    && (forall c <- inside :: c in keep)
  }

  lemma Told(steps: map<nat, Step>, f: nat, x: nat, keep: seq<nat>, lineageOf: map<nat, nat>, s: nat)
    requires Rewinds(steps, f, x) && s != 0 && forall y :: y in keep <==> y in Kept(steps, f, x)
    requires lineageOf.Keys == Kept(steps, f, x) && forall k <- lineageOf :: k in steps && lineageOf[k] == steps[k].lineage
    ensures ChainsTold(steps, keep, lineageOf, s, Inside(steps, Kept(steps, f, x), s))
  {
    forall c | c in keep
      ensures c in steps && (OnChain(lineageOf, steps[c].lineage, s) <==> c in Inside(steps, Kept(steps, f, x), s))
    {
      KeptClosed(steps, f, x, c);
      ChainIsWithin(steps, f, x, lineageOf, steps[c].lineage, s);
    }
  }

  /** The children of n by predecessor link that lie inside the cohort of s, in row order. */
  method ChildrenInCohort(steps: map<nat, Step>, keep: seq<nat>, lineageOf: map<nat, nat>, s: nat, n: nat, ghost inside: set<nat>)
    returns (children: seq<nat>)
    requires s != 0 && Distinct(keep) && ChainsTold(steps, keep, lineageOf, s, inside)
    ensures forall c :: c in children <==> c in inside && c in steps && steps[c].pred == n
    ensures Distinct(children)
  {
    children := [];
    var memo: map<nat, bool> := map[];
    for i := 0 to |keep|
      invariant forall k <- memo :: memo[k] == OnChain(lineageOf, k, s)
      invariant forall c :: c in children <==> c in keep[..i] && c in inside && steps[c].pred == n
      invariant Distinct(children)
    {
      var c := keep[i];
      assert keep[..i + 1] == keep[..i] + [c];
      if steps[c].pred == n {
        var found;
        found, memo := InCohortMemo(lineageOf, s, steps[c].lineage, memo);
        if found {
          assert c !in keep[..i];
          children := children + [c];
        }
      }
    }
    assert keep[..|keep|] == keep;
  }

  /** How one head counts. */
  method CountHead(steps: map<nat, Step>, keep: seq<nat>, f: nat, x: nat, s: nat, head: nat)
    returns (arrived: bool, lost: bool, soft: bool)
    requires Rewinds(steps, f, x) && (forall y :: y in keep <==> y in Kept(steps, f, x)) && Distinct(keep)
    requires s != 0 && head in Heads(steps, Kept(steps, f, x), s)
    ensures arrived <==> head in ArrivedHeads(steps, Kept(steps, f, x), x, s)
    ensures lost <==> head in LostHeads(steps, Kept(steps, f, x), x, s)
    ensures soft <==> head in SoftHeads(steps, Kept(steps, f, x), x, s)
  {
    var failed, cancelled, rewound := WalkBranch(steps, keep, f, x, s, head);
    arrived := !rewound;
    lost := !rewound && (failed || cancelled);
    soft := !rewound && cancelled && !failed;
  }

  /** The recount of one kept spawn. */
  method CountBranches(steps: map<nat, Step>, keep: seq<nat>, f: nat, x: nat, s: nat)
    returns (arrivals: nat, failures: nat, cancellations: nat)
    requires Rewinds(steps, f, x) && (forall y :: y in keep <==> y in Kept(steps, f, x)) && Distinct(keep) && s != 0
    ensures arrivals == |ArrivedHeads(steps, Kept(steps, f, x), x, s)|
    ensures failures == |LostHeads(steps, Kept(steps, f, x), x, s)|
    ensures cancellations == |SoftHeads(steps, Kept(steps, f, x), x, s)|
  {
    ghost var tally := TallyOf(steps, Kept(steps, f, x), x, s);
    ghost var done: set<nat> := {};
    arrivals, failures, cancellations := 0, 0, 0;
    for i := 0 to |keep|
      invariant Tallied(tally, keep[..i], done, arrivals, failures, cancellations)
    {
      TakeOneMore(keep, i);
      arrivals, failures, cancellations, done :=
        CountRow(steps, keep, f, x, s, i, tally, done, arrivals, failures, cancellations);
    }
    assert keep[..|keep|] == keep;
    TallyAll(tally, keep, done, arrivals, failures, cancellations);
  }

  /** One row: a head is walked and counted, any other row is passed over. */
  method CountRow(steps: map<nat, Step>, keep: seq<nat>, f: nat, x: nat, s: nat, i: nat, ghost t: Tally, ghost done: set<nat>,
                  arrivals: nat, failures: nat, cancellations: nat)
    returns (arrivals': nat, failures': nat, cancellations': nat, ghost done': set<nat>)
    requires Rewinds(steps, f, x) && (forall y :: y in keep <==> y in Kept(steps, f, x)) && Distinct(keep) && s != 0
    requires i < |keep| && keep[i] !in keep[..i] && t == TallyOf(steps, Kept(steps, f, x), x, s)
    requires Tallied(t, keep[..i], done, arrivals, failures, cancellations)
    ensures Tallied(t, keep[..i] + [keep[i]], done', arrivals', failures', cancellations')
  {
    var head := keep[i];
    assert head in Kept(steps, f, x);
    arrivals', failures', cancellations', done' := arrivals, failures, cancellations, done;
    if steps[head].pred == s && steps[head].lineage == s {
      var arrived, lost, soft := CountHead(steps, keep, f, x, s, head);
      TallyOne(t, keep[..i], done, arrivals, failures, cancellations, head, arrived, lost, soft);
      done' := done + {head};
      if arrived { arrivals' := arrivals + 1; }
      if lost { failures' := failures + 1; }
      if soft { cancellations' := cancellations + 1; }
    }
  }

  ghost function TallyOf(steps: map<nat, Step>, kept: set<nat>, x: nat, s: nat): Tally {
    Tally(Heads(steps, kept, s), ArrivedHeads(steps, kept, x, s), LostHeads(steps, kept, x, s), SoftHeads(steps, kept, x, s))
  }

  /** The heads of a spawn, and those that count as arrived, lost, and lost softly. */
  datatype Tally = Tally(heads: set<nat>, arrived: set<nat>, lost: set<nat>, soft: set<nat>)

  ghost predicate Tallied(t: Tally, rows: seq<nat>, done: set<nat>, arrivals: nat, failures: nat, cancellations: nat) {
    && (forall h :: h in done <==> h in rows && h in t.heads)
    && arrivals == |done * t.arrived| && failures == |done * t.lost| && cancellations == |done * t.soft|
  }

  lemma TallyOne(t: Tally, rows: seq<nat>, done: set<nat>, arrivals: nat, failures: nat, cancellations: nat,
                 head: nat, arrived: bool, lost: bool, soft: bool)
    requires Tallied(t, rows, done, arrivals, failures, cancellations) && head in t.heads && head !in rows
    requires (arrived <==> head in t.arrived) && (lost <==> head in t.lost) && (soft <==> head in t.soft)
    ensures Tallied(t, rows + [head], done + {head}, arrivals + (if arrived then 1 else 0),
                    failures + (if lost then 1 else 0), cancellations + (if soft then 1 else 0))
  {
    Counted(done, head, t.arrived);
    Counted(done, head, t.lost);
    Counted(done, head, t.soft);
  }

  lemma TallyAll(t: Tally, rows: seq<nat>, done: set<nat>, arrivals: nat, failures: nat, cancellations: nat)
    requires Tallied(t, rows, done, arrivals, failures, cancellations)
    requires (forall h <- t.heads :: h in rows) && t.arrived <= t.heads && t.lost <= t.heads && t.soft <= t.heads
    ensures arrivals == |t.arrived| && failures == |t.lost| && cancellations == |t.soft|
  {
    assert done * t.arrived == t.arrived && done * t.lost == t.lost && done * t.soft == t.soft;
  }

  lemma Counted(done: set<nat>, h: nat, those: set<nat>)
    requires h !in done
    ensures |(done + {h}) * those| == |done * those| + (if h in those then 1 else 0)
  {
    assert (done + {h}) * those == done * those + (if h in those then {h} else {});
  }

  // ----- New ids

  /** Inserting the kept rows in id order hands out increasing ids. */
  method AssignIds(t: map<nat, Step>, keep: seq<nat>, next: nat) returns (ids: map<nat, nat>, top: nat)
    requires 0 < next && 0 !in t && (forall y :: y in keep <==> y in t)
    requires forall i, j :: 0 <= i < j < |keep| ==> keep[i] < keep[j]
    ensures Increasing(t, ids) && next <= top && forall a <- ids :: next <= ids[a] < top
  {
    ids, top := map[], next;
    for i := 0 to |keep|
      invariant top == next + i
      invariant forall y :: y in ids <==> y in keep[..i]
      invariant forall j :: 0 <= j < i ==> keep[j] in ids && ids[keep[j]] == next + j
    {
      ids := ids[keep[i] := top];
      top := top + 1;
    }
    assert keep[..|keep|] == keep;
    IdsIncrease(t, keep, next, ids);
  }

  lemma IdsIncrease(t: map<nat, Step>, keep: seq<nat>, next: nat, ids: map<nat, nat>)
    requires 0 < next && 0 !in t && (forall y :: y in keep <==> y in t) && (forall y :: y in ids <==> y in keep)
    requires forall i, j :: 0 <= i < j < |keep| ==> keep[i] < keep[j]
    requires forall j :: 0 <= j < |keep| ==> keep[j] in ids && ids[keep[j]] == next + j
    ensures Increasing(t, ids) && forall a <- ids :: next <= ids[a] < next + |keep|
  {
    assert ids.Keys == t.Keys;
    forall a, b | a in ids && b in ids && a < b ensures ids[a] < ids[b] {
      var i :| 0 <= i < |keep| && keep[i] == a;
      var j :| 0 <= j < |keep| && keep[j] == b;
      assert i < j;
    }
    forall a | a in ids ensures next <= ids[a] < next + |keep| {
      var i :| 0 <= i < |keep| && keep[i] == a;
    }
  }
}
