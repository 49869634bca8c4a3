/**
 Exactly which forks put their clone back inside the live engine's rules. The condition speaks of what Fork has
 in hand before it inserts a row - its pruned set, the branches of the kept cohorts, the kept losses - and it is
 necessary as well as sufficient.
 */
module ForkExact {
  import opened Rows
  import opened Transactions
  import opened Shape
  import opened Ledger
  import opened Reach
  import opened Pruning
  import opened Recount
  import opened ForkLedger
  import opened ForkShape

  /** Inside a cohort that has converged nothing is open, and a loss can only be one written over a settled step. */
  ghost predicate ConvergedQuiet(steps: map<nat, Step>) {
    forall s, z {:trigger Within(steps, z, s)} :: Within(steps, z, s) && s in steps && steps[s].next != 0 ==> !steps[z].Loose()
  }

  /** The clone is a well-shaped running flow in order, with nothing stirring inside what has converged. */
  ghost predicate Restored(t: map<nat, Step>, f: nat) {
    Shaped(t) && InOrder(t, f) && ConvergedQuiet(t)
  }

  lemma {:induction false} KeptWithin(steps: map<nat, Step>, f: nat, x: nat, caller: bool, z: nat, s: nat)
    requires Rewinds(steps, f, x) && z in Kept(steps, f, x)
    ensures Within(Rewound(steps, f, x, caller), z, s) <==> Within(steps, z, s)
    decreases z
  {
    var l := steps[z].lineage;
    assert Rewound(steps, f, x, caller)[z].lineage == l;
    if 0 < l < z {
      KeptClosed(steps, f, x, z);
      KeptWithin(steps, f, x, caller, l, s);
    }
  }

  // ----- Enough

  /** A converged cohort of the clone lies off the rewind path. */
  lemma ConvergedOffPath(steps: map<nat, Step>, f: nat, x: nat, caller: bool, s: nat)
    requires Rewinds(steps, f, x) && FanInsPruned(steps, f, x) && s in Rewound(steps, f, x, caller)
    requires Rewound(steps, f, x, caller)[s].next != 0
    ensures s != x && steps[s].next != 0 && !Within(steps, x, s)
  {
    var n := steps[s].next;
    assert n in Kept(steps, f, x) && n != 0;
  }

  lemma RestoredQuiet(steps: map<nat, Step>, f: nat, x: nat, caller: bool)
    requires Forkable(steps, f, x)
    ensures ConvergedQuiet(Rewound(steps, f, x, caller))
  {
    var t := Rewound(steps, f, x, caller);
    forall s, z | Within(t, z, s) && s in t && t[s].next != 0 ensures !t[z].Live() && !t[z].Faulted() {
      ConvergedOffPath(steps, f, x, caller, s);
      KeptWithin(steps, f, x, caller, z, s);
      WithinDown(steps, z, s);
      assert t[z] == KeptRow(steps, Kept(steps, f, x), x, caller, z);
      assert steps[z].Faulted() ==> HoldsLoss(steps, f, x, s);
    }
  }

  // ----- Needed

  lemma MemberOffPath(steps: map<nat, Step>, f: nat, x: nat, y: nat, z: nat)
    requires Rewinds(steps, f, x) && y != 0 && y != x && !Within(steps, x, y)
    requires z in steps && steps[z].lineage == y
    ensures y < z && z != x && !Within(steps, x, z)
  {
    assert StepShape(steps, z);
    assert Within(steps, z, y);
    if Within(steps, x, z) { WithinOn(steps, x, z, y); }
  }

  lemma BooksClose(t: map<nat, Step>, f: nat, y: nat)
    requires y in t && !t[y].Live() && Books(t, f, y, 0, false) && Tokens(t, f, y) == {}
    ensures !t[y].Token()
  {
  }

  /** Only the rewind step's own row is live. */
  lemma KeptNotLive(steps: map<nat, Step>, f: nat, x: nat, caller: bool, y: nat)
    requires y in Kept(steps, f, x) && y != x
    ensures !Rewound(steps, f, x, caller)[y].Live()
  {
  }

  /** Off the path a clone in order holds no open work, and so no unresolved cohort. */
  lemma {:induction false} OffPathClosed(steps: map<nat, Step>, f: nat, x: nat, caller: bool, y: nat, top: nat)
    requires Rewinds(steps, f, x) && InOrder(Rewound(steps, f, x, caller), f) && forall w <- steps :: w < top
    requires y in Kept(steps, f, x) && y != x && !Within(steps, x, y)
    ensures Tokens(Rewound(steps, f, x, caller), f, y) == {}
    ensures !Rewound(steps, f, x, caller)[y].Token()
    decreases top - y
  {
    var t := Rewound(steps, f, x, caller);
    if z :| z in Tokens(t, f, y) {
      assert z in Kept(steps, f, x) && t[z].lineage == steps[z].lineage;
      MemberOffPath(steps, f, x, y, z);
      OffPathClosed(steps, f, x, caller, z, top);
    }
    assert Books(t, f, y, 0, false);
    KeptNotLive(steps, f, x, caller, y);
    BooksClose(t, f, y);
  }

  /** On the path every cohort of a clone in order waits for the one member the rewind step is, or lies inside of. */
  lemma {:induction false} OnPathWaits(steps: map<nat, Step>, f: nat, x: nat, caller: bool, s: nat)
    requires Rewinds(steps, f, x) && InOrder(Rewound(steps, f, x, caller), f) && Within(steps, x, s)
    ensures s in Kept(steps, f, x) && s != x && steps[s].spawned
    ensures Tokens(Rewound(steps, f, x, caller), f, s) == {MemberOf(steps, x, s)}
    ensures Rewound(steps, f, x, caller)[s].Unresolved()
    decreases x - s
  {
    var t := Rewound(steps, f, x, caller);
    PathKept(steps, f, x, s);
    WithinDown(steps, x, s);
    var m := MemberOf(steps, x, s);
    var top := AllBelow(steps);
    RewindKept(steps, f, x);
    if m == x {
      assert t[x].Live();
    } else {
      WithinLower(steps, m, s);
      OnPathWaits(steps, f, x, caller, m);
    }
    assert m in Tokens(t, f, s);
    forall y | y in Tokens(t, f, s) ensures y == m {
      if y == x || Within(steps, x, y) { MemberIs(steps, x, s, y); } else { OffPathClosed(steps, f, x, caller, y, top); }
    }
    assert Tokens(t, f, s) == {m};
    assert Books(t, f, s, 0, false);
  }

  lemma NeedsHeads(steps: map<nat, Step>, f: nat, x: nat, caller: bool)
    requires Rewinds(steps, f, x) && InOrder(Rewound(steps, f, x, caller), f)
    ensures KeptHeaded(steps, f, x)
  {
    var t := Rewound(steps, f, x, caller);
    var top := AllBelow(steps);
    forall s | s in Kept(steps, f, x) && s in steps && s != x && steps[s].spawned
      ensures |Heads(steps, steps.Keys, s)| == steps[s].size
    {
      ArrivalsAre(steps, f, x, s);
      assert Books(t, f, s, 0, false);
      if Within(steps, x, s) { OnPathWaits(steps, f, x, caller, s); } else { OffPathClosed(steps, f, x, caller, s, top); }
    }
  }

  lemma NeedsFanIns(steps: map<nat, Step>, f: nat, x: nat, caller: bool)
    requires Rewinds(steps, f, x) && InOrder(Rewound(steps, f, x, caller), f) && Shaped(Rewound(steps, f, x, caller))
    ensures FanInsPruned(steps, f, x)
  {
    var t := Rewound(steps, f, x, caller);
    forall s | Within(steps, x, s) && s in steps && steps[s].next != 0 ensures Reaches(steps, x, steps[s].next) {
      OnPathWaits(steps, f, x, caller, s);
      assert StepShape(t, s) && StepShape(steps, s);
    }
  }

  /** A converged cohort off the path keeps its fan-in. */
  lemma FanInKept(steps: map<nat, Step>, f: nat, x: nat, s: nat)
    requires Rewinds(steps, f, x) && s in Kept(steps, f, x) && s != x && !Within(steps, x, s) && steps[s].next != 0
    ensures steps[s].next in Kept(steps, f, x)
  {
    assert StepShape(steps, s);
    var j := steps[s].next;
    if Reaches(steps, x, j) {
      var p: nat :| Hop(steps, p, j) && p < j && (p == x || Reaches(steps, x, p));
      EdgesAreLinks(steps, p, j);
      assert SameBranch(steps[s], steps[j]);
      LinkToNext(steps, s, p, j);
      if p != s && p != x { ReachesFromInside(steps, x, p, s); }
    }
  }

  /** The edges into a step's continuation come from that step, or from inside its cohort. */
  lemma LinkToNext(steps: map<nat, Step>, s: nat, p: nat, j: nat)
    requires Shaped(steps) && 0 !in steps && s in steps && steps[s].next == j != 0 && Link(steps, p, j)
    ensures p == s || Within(steps, p, s)
  {
    assert StepShape(steps, s) && StepShape(steps, p) && StepShape(steps, j);
    if steps[p].next == j {
      NextOnce(steps, s, p);
    } else if steps[p].lineage in steps && steps[steps[p].lineage].next == j {
      NextOnce(steps, s, steps[p].lineage);
    }
  }

  lemma LossEnds(steps: map<nat, Step>, f: nat, x: nat, caller: bool, y: nat)
    requires Rewinds(steps, f, x) && Shaped(Rewound(steps, f, x, caller))
    requires y in Kept(steps, f, x) && y != x && steps[y].Faulted()
    ensures !steps[y].spawned && steps[y].next == 0
  {
    var t := Rewound(steps, f, x, caller);
    assert t[y] == KeptRow(steps, Kept(steps, f, x), x, caller, y);
    assert StepShape(t, y);
    if steps[y].next != 0 { NextKept(steps, f, x, y); }
  }

  lemma ConvergedClean(steps: map<nat, Step>, f: nat, x: nat, caller: bool, y: nat)
    requires Rewinds(steps, f, x) && ConvergedQuiet(Rewound(steps, f, x, caller))
    requires y in Kept(steps, f, x) && y != x && steps[y].next != 0 && !Within(steps, x, y)
    ensures !HoldsLoss(steps, f, x, y)
  {
    var t := Rewound(steps, f, x, caller);
    FanInKept(steps, f, x, y);
    assert t[y].next == steps[y].next;
    if HoldsLoss(steps, f, x, y) {
      var z :| z in Kept(steps, f, x) && z in steps && Within(steps, z, y) && steps[z].Faulted();
      KeptWithin(steps, f, x, caller, z, y);
    }
  }

  lemma NeedsLosses(steps: map<nat, Step>, f: nat, x: nat, caller: bool)
    requires Rewinds(steps, f, x) && Restored(Rewound(steps, f, x, caller), f)
    ensures LossesStop(steps, f, x)
  {
    forall y | y in Kept(steps, f, x) && y in steps && y != x
      ensures steps[y].Faulted() ==> !steps[y].spawned && steps[y].next == 0
      ensures steps[y].spawned && steps[y].next != 0 && !Within(steps, x, y) ==> !HoldsLoss(steps, f, x, y)
    {
      if steps[y].Faulted() { LossEnds(steps, f, x, caller, y); }
      if steps[y].next != 0 && !Within(steps, x, y) { ConvergedClean(steps, f, x, caller, y); }
    }
  }

  // ----- Exactly

  /**
   A fork restores its flow - shape, ledger, quiet - if and only if it prunes the fan-ins of the cohorts around
   the rewind step, every cohort it keeps has a head for each branch, and no loss it keeps has gone on.
   */
  lemma ForkRestores(steps: map<nat, Step>, f: nat, x: nat, caller: bool)
    requires Rewinds(steps, f, x)
    ensures Restored(Rewound(steps, f, x, caller), f) <==> Fits(steps, f, x)
  {
    if Fits(steps, f, x) {
      ForkShaped(steps, f, x, caller);
      ForkInOrder(steps, f, x, caller);
      RestoredQuiet(steps, f, x, caller);
    }
    if Restored(Rewound(steps, f, x, caller), f) {
      NeedsFanIns(steps, f, x, caller);
      NeedsHeads(steps, f, x, caller);
      NeedsLosses(steps, f, x, caller);
    }
  }

  /** A step that moved on is not a loss, and nothing inside a cohort that converged is. */
  ghost predicate PassedUnharmed(steps: map<nat, Step>, f: nat) {
    && (forall y {:trigger steps[y].settled} :: y in steps && steps[y].flow == f ==> steps[y].Passed())
    && (forall s, z {:trigger Within(steps, z, s)} :: Within(steps, z, s) && s in steps && steps[s].flow == f && steps[s].next != 0
          ==> !steps[z].Faulted())
  }

  lemma UnharmedStop(steps: map<nat, Step>, f: nat, x: nat)
    requires Rewinds(steps, f, x) && PassedUnharmed(steps, f)
    ensures LossesStop(steps, f, x)
  {
    forall y | y in Kept(steps, f, x) && y in steps && y != x
      ensures steps[y].Faulted() ==> !steps[y].spawned && steps[y].next == 0
      ensures steps[y].spawned && steps[y].next != 0 && !Within(steps, x, y) ==> !HoldsLoss(steps, f, x, y)
    {
      assert StepShape(steps, y) && steps[y].Passed();
    }
  }

  /** In a flow whose branches all have heads and whose losses all ended something, the fan-ins alone decide. */
  lemma FanInsDecide(steps: map<nat, Step>, f: nat, x: nat, caller: bool)
    requires Rewinds(steps, f, x) && EveryBranchHeaded(steps, f) && PassedUnharmed(steps, f)
    ensures Shaped(Rewound(steps, f, x, caller)) && InOrder(Rewound(steps, f, x, caller), f) <==> FanInsPruned(steps, f, x)
  {
    UnharmedStop(steps, f, x);
    if FanInsPruned(steps, f, x) { ForkRestores(steps, f, x, caller); }
    if Shaped(Rewound(steps, f, x, caller)) && InOrder(Rewound(steps, f, x, caller), f) { NeedsFanIns(steps, f, x, caller); }
  }
}
