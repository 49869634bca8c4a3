/**
 What Fork prunes: everything the rewind step reaches. The rest is closed under predecessors, lineages and
 branch heads, and a cohort that is kept keeps every one of its branches' heads.
 */
module Pruning {
  import opened Rows
  import opened Transactions
  import opened Shape
  import opened Reach

  ghost function Kept(steps: map<nat, Step>, f: nat, x: nat): set<nat> {
    set y | y in steps && steps[y].flow == f && !Reaches(steps, x, y)
  }

  /** Once a cohort converged, the last step of each of its branches links to the fan-in. */
  ghost predicate EndsLinked(steps: map<nat, Step>, f: nat) {
    forall y {:trigger steps[y].succ} :: y in steps && steps[y].flow == f
      && steps[y].lineage != 0 && steps[y].lineage in steps && steps[steps[y].lineage].next != 0 && steps[y].next == 0
      ==> steps[y].succ == steps[steps[y].lineage].next
  }

  /** A step of a flow's well-shaped tables, to be rewound to. */
  ghost predicate Rewinds(steps: map<nat, Step>, f: nat, x: nat) {
    Shaped(steps) && 0 !in steps && LineageDown(steps) && x in steps && steps[x].flow == f
  }

  /** A step nothing follows reaches nothing. */
  lemma {:induction false} NoEdgeNoReach(steps: map<nat, Step>, y: nat, z: nat)
    requires forall w :: !Edge(steps, y, w)
    ensures !Reaches(steps, y, z)
    decreases z
  {
    if Reaches(steps, y, z) {
      var p: nat :| Hop(steps, p, z) && p < z && (p == y || Reaches(steps, y, p));
      NoEdgeNoReach(steps, y, p);
    }
  }

  lemma EndsOnlyAtFanIn(steps: map<nat, Step>, y: nat, w: nat)
    requires Shaped(steps) && 0 !in steps && y in steps && !steps[y].spawned && steps[y].next == 0 && Edge(steps, y, w)
    ensures steps[y].lineage != 0 && steps[y].lineage in steps && w == steps[steps[y].lineage].next
  {
    EdgesAreLinks(steps, y, w);
    assert StepShape(steps, w);
  }

  /**
   Exactly when the end of a branch leads to its fan-in: when it links to it, or was the last to arrive. An end
   that left through an edge that is not an ordinary one links to nothing, and if it did not arrive last, a fork
   at it does not prune the fan-in its own re-run will produce again.
   */
  lemma EndReachesFanIn(steps: map<nat, Step>, y: nat)
    requires Shaped(steps) && 0 !in steps && y in steps && !steps[y].spawned && steps[y].next == 0
    requires steps[y].lineage != 0 && steps[y].lineage in steps && steps[steps[y].lineage].next != 0
    ensures steps[steps[y].lineage].next in steps
    ensures var j := steps[steps[y].lineage].next;
            Reaches(steps, y, j) <==> steps[y].succ == j || steps[j].pred == y
  {
    assert StepShape(steps, y);
    var t := steps[y].lineage;
    assert StepShape(steps, t);
    var j := steps[t].next;
    assert StepShape(steps, j);
    if Edge(steps, y, j) {
      EdgesAreLinks(steps, y, j);
      OneHop(steps, y, j);
    } else {
      forall w ensures !Edge(steps, y, w) { if Edge(steps, y, w) { EndsOnlyAtFanIn(steps, y, w); } }
      NoEdgeNoReach(steps, y, j);
    }
  }

  /** A member of a converged cohort reaches the fan-in. */
  lemma {:induction false} ExitReaches(steps: map<nat, Step>, f: nat, z: nat, top: nat)
    requires Shaped(steps) && 0 !in steps && EndsLinked(steps, f) && forall w <- steps :: w < top
    requires z in steps && steps[z].flow == f && steps[z].lineage != 0
    requires steps[z].lineage in steps && steps[steps[z].lineage].next != 0
    ensures Reaches(steps, z, steps[steps[z].lineage].next)
    decreases top - z
  {
    assert StepShape(steps, z);
    var j := steps[steps[z].lineage].next;
    assert StepShape(steps, steps[z].lineage);
    var n := steps[z].next;
    if n == 0 {
      assert steps[z].succ == j;
      OneHop(steps, z, j);
    } else {
      assert SameBranch(steps[z], steps[n]);
      BranchReaches(steps, z, n);
      ExitReaches(steps, f, n, top);
      ReachesOn(steps, z, n, j);
    }
  }

  /** An edge into a cohort from outside leads from its spawn to the head of a branch. */
  lemma LinkInto(steps: map<nat, Step>, p: nat, z: nat, s: nat)
    requires Shaped(steps) && 0 !in steps && Link(steps, p, z) && Within(steps, z, s)
    ensures p == s || Within(steps, p, s)
  {
    assert StepShape(steps, z) && StepShape(steps, p);
    if steps[z].lineage == p && steps[z].head == z {
    } else if steps[p].next == z {
    } else {
      var c := steps[p].lineage;
      assert StepShape(steps, c);
      assert Within(steps, c, s);
      assert Within(steps, p, c);
      WithinOn(steps, p, c, s);
    }
  }

  /** Whoever reaches into a cohort without reaching its spawn is inside it already. */
  lemma {:induction false} ReachesFromInside(steps: map<nat, Step>, x: nat, z: nat, s: nat)
    requires Shaped(steps) && 0 !in steps && Reaches(steps, x, z) && Within(steps, z, s)
    requires s != x && !Reaches(steps, x, s)
    ensures Within(steps, x, s)
    decreases z
  {
    var p: nat :| Hop(steps, p, z) && p < z && (p == x || Reaches(steps, x, p));
    EdgesAreLinks(steps, p, z);
    LinkInto(steps, p, z, s);
    if p != x { ReachesFromInside(steps, x, p, s); }
  }

  // ----- What is kept

  lemma KeptClosed(steps: map<nat, Step>, f: nat, x: nat, y: nat)
    requires Rewinds(steps, f, x) && y in Kept(steps, f, x)
    ensures var r := steps[y];
            && (r.lineage != 0 ==> r.lineage in Kept(steps, f, x) && r.lineage != x)
            && (r.pred != 0 ==> r.pred in Kept(steps, f, x) && r.pred != x)
            && (r.head != 0 ==> r.head in Kept(steps, f, x))
  {
    assert StepShape(steps, y);
    var r := steps[y];
    if r.lineage != 0 {
      assert StepShape(steps, r.head);
      SpawnReaches(steps, r.lineage, y);
      if Reaches(steps, x, r.lineage) { ReachesOn(steps, x, r.lineage, y); }
      if r.head != y {
        BranchReaches(steps, r.head, y);
        if Reaches(steps, x, r.head) { ReachesOn(steps, x, r.head, y); }
      }
    }
    if r.pred != 0 {
      OneHop(steps, r.pred, y);
      if Reaches(steps, x, r.pred) { ReachesOn(steps, x, r.pred, y); }
    }
  }

  /** Later steps of a branch whose earlier step is the rewind step, or pruned, are pruned. */
  lemma PrunedOnward(steps: map<nat, Step>, f: nat, x: nat, y: nat, z: nat)
    requires Rewinds(steps, f, x) && y in steps && z in steps && y < z && SameBranch(steps[y], steps[z])
    requires y == x || Reaches(steps, x, y)
    ensures Reaches(steps, x, z)
  {
    BranchReaches(steps, y, z);
    if y != x { ReachesOn(steps, x, y, z); }
  }

  /** A fork at x prunes the fan-in of every converged cohort around x: what Fork's own pruned set shows. */
  ghost predicate FanInsPruned(steps: map<nat, Step>, f: nat, x: nat) {
    forall s {:trigger Within(steps, x, s)} :: Within(steps, x, s) && s in steps && steps[s].next != 0 ==> Reaches(steps, x, steps[s].next)
  }

  /** The cohorts around the rewind step are kept, unlike their fan-ins. */
  lemma PathKept(steps: map<nat, Step>, f: nat, x: nat, s: nat)
    requires Rewinds(steps, f, x) && Within(steps, x, s)
    ensures s in Kept(steps, f, x) && s != x
  {
    WithinDown(steps, x, s);
    if Reaches(steps, x, s) { ReachesUp(steps, x, s); }
  }

  /** A cohort converges only after the cohorts inside it. */
  ghost predicate Converges(steps: map<nat, Step>, f: nat) {
    forall y {:trigger steps[y].spawned} :: y in steps && steps[y].flow == f && steps[y].spawned
      && steps[y].lineage != 0 && steps[y].lineage in steps && steps[steps[y].lineage].next != 0
      ==> steps[y].next != 0
  }

  /** Where every exit links to its fan-in and cohorts converge from the inside, every fork prunes the fan-ins around it. */
  lemma {:induction false} PathPruned(steps: map<nat, Step>, f: nat, x: nat, s: nat, top: nat)
    requires Rewinds(steps, f, x) && forall w <- steps :: w < top
    requires EndsLinked(steps, f) && Converges(steps, f)
    requires Within(steps, x, s) && s in steps && steps[s].next != 0
    ensures Reaches(steps, x, steps[s].next)
    decreases x - s
  {
    WithinDown(steps, x, s);
    var m := MemberOf(steps, x, s);
    if m == x {
      ExitReaches(steps, f, x, top);
    } else {
      WithinDown(steps, x, m);
      WithinLower(steps, x, m);
      assert StepShape(steps, m);
      PathPruned(steps, f, x, m, top);
      assert steps[m].next != 0;
      assert StepShape(steps, s) && SameBranch(steps[m], steps[steps[m].next]);
      ExitReaches(steps, f, steps[m].next, top);
      ReachesOn(steps, x, steps[m].next, steps[s].next);
    }
  }

  /** The only edges into the head of a branch come from the spawn. */
  lemma LinkToHead(steps: map<nat, Step>, p: nat, h: nat)
    requires Shaped(steps) && 0 !in steps && Link(steps, p, h)
    requires steps[h].head == h && steps[h].lineage != 0
    ensures p == steps[h].lineage
  {
    assert StepShape(steps, h) && StepShape(steps, p);
    if steps[p].lineage in steps { assert StepShape(steps, steps[p].lineage); }
  }

  /** A kept cohort keeps the head of every branch. */
  lemma HeadKept(steps: map<nat, Step>, f: nat, x: nat, h: nat)
    requires Rewinds(steps, f, x) && h in steps && steps[h].flow == f && steps[h].head == h && steps[h].lineage != 0
    requires steps[h].lineage in Kept(steps, f, x) && steps[h].lineage != x
    ensures h in Kept(steps, f, x)
  {
    if Reaches(steps, x, h) {
      var p: nat :| Hop(steps, p, h) && p < h && (p == x || Reaches(steps, x, p));
      EdgesAreLinks(steps, p, h);
      LinkToHead(steps, p, h);
    }
  }
}
