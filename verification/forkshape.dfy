/** Fork's clone of a flow is a well-shaped execution graph again, with links to pruned steps cleared. */
module ForkShape {
  import opened Rows
  import opened Transactions
  import opened Shape
  import opened Reach
  import opened Pruning
  import opened Recount

  /** An ordinary kept step keeps its continuation. */
  lemma NextKept(steps: map<nat, Step>, f: nat, x: nat, y: nat)
    requires Rewinds(steps, f, x) && y in Kept(steps, f, x) && y != x && !steps[y].spawned && steps[y].next != 0
    ensures steps[y].next in Kept(steps, f, x)
  {
    assert StepShape(steps, y);
    var m := steps[y].next;
    if Reaches(steps, x, m) {
      var p: nat :| Hop(steps, p, m) && p < m && (p == x || Reaches(steps, x, p));
      EdgesAreLinks(steps, p, m);
      assert SameBranch(steps[y], steps[m]);
      OnlyFrom(steps, y, p, m);
    }
  }

  /** The edge into an ordinary step's continuation comes from that step alone. */
  lemma OnlyFrom(steps: map<nat, Step>, y: nat, p: nat, m: nat)
    requires Shaped(steps) && 0 !in steps && y in steps && !steps[y].spawned && steps[y].next == m != 0 && Link(steps, p, m)
    ensures p == y
  {
    assert StepShape(steps, y) && StepShape(steps, p) && StepShape(steps, m);
    if steps[m].lineage == p && steps[m].head == m {
      assert false;
    } else if steps[p].next == m {
      NextOnce(steps, y, p);
    } else {
      NextOnce(steps, y, steps[p].lineage);
      assert false;
    }
  }

  /** No two steps continue with the same step. */
  lemma NextOnce(steps: map<nat, Step>, a: nat, b: nat)
    requires Shaped(steps) && a in steps && b in steps && steps[a].next == steps[b].next != 0
    ensures a == b
  {
    assert StepShape(steps, a) && StepShape(steps, b);
    assert SameBranch(steps[a], steps[b]) && SameBranch(steps[b], steps[a]);
  }

  lemma NoHeads(steps: map<nat, Step>, kept: set<nat>, x: nat, y: nat)
    requires Shaped(steps) && y in steps && !steps[y].spawned && y != 0
    ensures ArrivedHeads(steps, kept, x, y) == {} && LostHeads(steps, kept, x, y) == {} && SoftHeads(steps, kept, x, y) == {}
  {
    NoMembersYet(steps, y);
    assert Heads(steps, kept, y) == {};
  }

  /** The columns of a row of the clone that the shape speaks of, and how they relate to the origin's. */
  predicate RowOf(r: Step, q: Step, y: nat, x: nat, kept: set<nat>) {
    && q.flow == r.flow && q.lineage == r.lineage && q.pred == r.pred && q.head == r.head
    && q.ordinal == r.ordinal && q.depth == r.depth && q.exitTask == r.exitTask
    && (y != x ==> q.spawned == r.spawned && q.settled == !r.Faulted()
                   && q.next == (if r.next in kept then r.next else 0) && q.succ == (if r.succ in kept then r.succ else 0))
    && (y == x ==> q.next == 0 && q.succ == 0)
  }

  ghost predicate CloneOf(steps: map<nat, Step>, t: map<nat, Step>, f: nat, x: nat) {
    t.Keys == Kept(steps, f, x) && forall y <- t :: RowOf(steps[y], t[y], y, x, t.Keys)
  }

  lemma RewoundIsClone(steps: map<nat, Step>, f: nat, x: nat, caller: bool)
    ensures CloneOf(steps, Rewound(steps, f, x, caller), f, x)
  {
    var t := Rewound(steps, f, x, caller);
    assert t.Keys == Kept(steps, f, x);
  }

  /** Links backward are all kept. */
  lemma KeptBackward(steps: map<nat, Step>, t: map<nat, Step>, f: nat, x: nat, y: nat)
    requires Forkable(steps, f, x) && CloneOf(steps, t, f, x) && y in t
    ensures LineageOk(t, y) && HeadOk(t, y)
  {
    assert StepShape(steps, y);
    KeptClosed(steps, f, x, y);
  }

  /** What a kept step follows is no loss. */
  lemma PredPassed(steps: map<nat, Step>, f: nat, x: nat, y: nat)
    requires Forkable(steps, f, x) && y in Kept(steps, f, x) && steps[y].pred in Kept(steps, f, x) && steps[y].pred != x
    ensures !steps[steps[y].pred].Faulted()
  {
    var p := steps[y].pred;
    assert StepShape(steps, y) && StepShape(steps, p);
    assert steps[p].Faulted() ==> !steps[p].spawned && steps[p].next == 0;
    if !steps[p].spawned && steps[p].next == 0 {
      // Then y is the fan-in of p's cohort: kept, so x is not inside it, and the cohort holds no loss.
      var s := steps[p].lineage;
      assert s in steps && steps[s].next == y;
      assert StepShape(steps, s);
      KeptClosed(steps, f, x, p);
      assert Within(steps, p, s);
      assert !Within(steps, x, s);
      assert steps[p].Faulted() ==> HoldsLoss(steps, f, x, s);
    }
  }

  lemma KeptPred(steps: map<nat, Step>, t: map<nat, Step>, f: nat, x: nat, y: nat)
    requires Forkable(steps, f, x) && CloneOf(steps, t, f, x) && y in t
    ensures PredOk(t, y)
  {
    assert StepShape(steps, y);
    KeptClosed(steps, f, x, y);
    var p := steps[y].pred;
    if p != 0 {
      KeptClosed(steps, f, x, p);
      PredPassed(steps, f, x, y);
    }
  }

  /** Links forward are kept, or cleared. */
  lemma KeptForward(steps: map<nat, Step>, t: map<nat, Step>, f: nat, x: nat, y: nat)
    requires Forkable(steps, f, x) && CloneOf(steps, t, f, x) && y in t
    ensures NextOk(t, y) && SuccOk(t, y)
  {
    assert StepShape(steps, y);
    if y != x { assert steps[y].Faulted() ==> !steps[y].spawned && steps[y].next == 0; }
    KeptClosed(steps, f, x, y);
  }

  lemma KeptOwn(steps: map<nat, Step>, f: nat, x: nat, caller: bool, y: nat)
    requires Forkable(steps, f, x) && y in Kept(steps, f, x)
    ensures OwnOk(KeptRow(steps, Kept(steps, f, x), x, caller, y))
  {
    assert StepShape(steps, y);
    if y != x {
      assert steps[y].Faulted() ==> !steps[y].spawned;
      if !steps[y].spawned {
        NoHeads(steps, Kept(steps, f, x), x, y);
      } else {
        ArrivalsCounted(steps, f, x, y);
      }
    }
  }

  lemma KeptExit(steps: map<nat, Step>, f: nat, x: nat, caller: bool, y: nat)
    requires Forkable(steps, f, x) && y in Rewound(steps, f, x, caller)
    ensures ExitOk(Rewound(steps, f, x, caller), y)
  {
    var t := Rewound(steps, f, x, caller);
    assert StepShape(steps, y);
    var l := steps[y].lineage;
    if l != 0 && l in t && t[l].next != 0 && t[y].exitTask && t[y].next == 0 && !t[y].spawned {
      KeptClosed(steps, f, x, y);
      assert t[l].next == steps[l].next && steps[l].next in Kept(steps, f, x);
      if y == x {
        assert Within(steps, x, l);
        assert false;
      } else if steps[y].next != 0 {
        NextKept(steps, f, x, y);
        assert false;
      }
    }
  }

  /** A kept step with a later kept step on its branch is not the rewind step, and keeps its continuation. */
  lemma NextStays(steps: map<nat, Step>, f: nat, x: nat, a: nat, b: nat)
    requires Rewinds(steps, f, x) && a in Kept(steps, f, x) && b in Kept(steps, f, x)
    requires a < b && SameBranch(steps[a], steps[b])
    ensures a != x && steps[a].next in Kept(steps, f, x) && Follows(steps[a], steps[b], b)
  {
    assert Follows(steps[a], steps[b], b);
    if a == x { PrunedOnward(steps, f, x, x, b); }
    assert StepShape(steps, a);
    var n := steps[a].next;
    if n < b && Reaches(steps, x, n) { PrunedOnward(steps, f, x, n, b); }
  }

  lemma KeptOrdered(steps: map<nat, Step>, t: map<nat, Step>, f: nat, x: nat, a: nat, b: nat)
    requires Rewinds(steps, f, x) && CloneOf(steps, t, f, x) && a in t && b in t
    requires a < b && SameBranch(t[a], t[b])
    ensures Follows(t[a], t[b], b)
  {
    assert RowOf(steps[a], t[a], a, x, t.Keys) && RowOf(steps[b], t[b], b, x, t.Keys);
    NextStays(steps, f, x, a, b);
  }

  lemma ForkStep(steps: map<nat, Step>, f: nat, x: nat, caller: bool, y: nat)
    requires Forkable(steps, f, x) && y in Rewound(steps, f, x, caller)
    ensures StepShape(Rewound(steps, f, x, caller), y)
  {
    var t := Rewound(steps, f, x, caller);
    RewoundIsClone(steps, f, x, caller);
    KeptBackward(steps, t, f, x, y);
    KeptPred(steps, t, f, x, y);
    KeptForward(steps, t, f, x, y);
    KeptOwn(steps, f, x, caller, y);
    KeptExit(steps, f, x, caller, y);
  }

  lemma ForkHeads(steps: map<nat, Step>, t: map<nat, Step>, f: nat, x: nat)
    requires HeadsDistinct(steps) && CloneOf(steps, t, f, x)
    ensures HeadsDistinct(t)
  {
    forall a, b | Siblings(t, a, b) ensures t[a].ordinal != t[b].ordinal { assert Siblings(steps, a, b); }
  }

  lemma ForkBranches(steps: map<nat, Step>, t: map<nat, Step>, f: nat, x: nat)
    requires Rewinds(steps, f, x) && CloneOf(steps, t, f, x)
    ensures BranchOrdered(t)
  {
    forall a, b | a in t && b in t && a < b && SameBranch(t[a], t[b]) ensures Follows(t[a], t[b], b) {
      KeptOrdered(steps, t, f, x, a, b);
    }
  }

  lemma ForkShaped(steps: map<nat, Step>, f: nat, x: nat, caller: bool)
    requires Forkable(steps, f, x)
    ensures Shaped(Rewound(steps, f, x, caller))
  {
    RewoundIsClone(steps, f, x, caller);
    ForkBranches(steps, Rewound(steps, f, x, caller), f, x);
    ForkHeads(steps, Rewound(steps, f, x, caller), f, x);
    forall y | y in Rewound(steps, f, x, caller) ensures StepShape(Rewound(steps, f, x, caller), y) {
      ForkStep(steps, f, x, caller, y);
    }
  }

  /** The clone is of one flow, unmarked, and holds no loss that has settled. */
  lemma ForkPassed(steps: map<nat, Step>, f: nat, x: nat, caller: bool, y: nat)
    requires y in Rewound(steps, f, x, caller)
    ensures var q := Rewound(steps, f, x, caller)[y]; q.Passed() && !q.cancelling && q.flow == f
  {
  }
}
