/** Flows on which a fork does not fit, one for each of its three conditions - and one on which the next one will not. */
module ForkWitness {
  import opened Rows
  import opened Transactions
  import opened Shape
  import opened Ledger
  import opened Reach
  import opened Pruning
  import opened Recount
  import opened ForkExact
  import opened Heritage

  function Done(): Step { NewStep(1, 0, 0, 0, 0, 0, false, false).(status := Completed, settled := true) }

  function BranchStep(h: nat, i: nat): Step { Done().(lineage := 1, head := h, pred := 1, depth := 1, ordinal := i) }

  lemma Table(steps: map<nat, Step>)
    requires Shaped(steps) && 0 !in steps && forall y <- steps :: steps[y].flow == 1
    ensures LineageDown(steps) && forall x <- steps :: Rewinds(steps, 1, x)
  {
    LineagesDescend(steps);
  }

  // ----- An exit by goto

  /** Branches 2 and 3 of spawn 1, converged on 4; step 2 left by a goto and arrived first. */
  function GotoExit(): map<nat, Step> {
    map[1 := Done().(spawned := true, size := 2, arrivals := 2, succ := 2, next := 4),
        2 := BranchStep(2, 0),
        3 := BranchStep(3, 1).(exitTask := true, succ := 4),
        4 := NewStep(1, 0, 0, 3, 0, 2, false, false)]
  }

  lemma GotoExitShaped()
    ensures Shaped(GotoExit()) && forall x <- GotoExit() :: Rewinds(GotoExit(), 1, x)
  {
    var steps := GotoExit();
    assert StepShape(steps, 1);
    assert StepShape(steps, 2);
    assert StepShape(steps, 3);
    assert StepShape(steps, 4);
    forall y, z | y in steps && z in steps && y < z && SameBranch(steps[y], steps[z]) ensures Follows(steps[y], steps[z], z) {
      assert y == 1 && z == 4;
    }
    forall y, z | Siblings(steps, y, z) ensures steps[y].ordinal != steps[z].ordinal {}
    assert Shaped(steps);
    Table(steps);
  }

  /** A fork at 2 keeps the fan-in beside the rewound branch, and the clone is not well-shaped. */
  lemma GotoForkFails()
    ensures 4 in Kept(GotoExit(), 1, 2) && !FanInsPruned(GotoExit(), 1, 2) && !EndsLinked(GotoExit(), 1)
    ensures !Shaped(Rewound(GotoExit(), 1, 2, false))
  {
    var steps := GotoExit();
    GotoExitShaped();
    EndReachesFanIn(steps, 2);
    assert steps[2].succ != steps[steps[2].lineage].next;
    assert Within(steps, 2, 1);
    assert {2, 3} == Heads(steps, steps.Keys, 1);
    PathKept(steps, 1, 2, 1);
    ArrivalsAre(steps, 1, 2, 1);
    var t := Rewound(steps, 1, 2, false);
    assert t[1].spawned && t[1].next == 4 && t[1].arrivals == 1 && t[1].size == 2;
    assert !StepShape(t, 1);
  }

  lemma GotoExitHeaded(x: nat)
    ensures KeptHeaded(GotoExit(), 1, x) && LossesStop(GotoExit(), 1, x)
  {
    var steps := GotoExit();
    assert {2, 3} == Heads(steps, steps.Keys, 1);
    forall y | y in steps ensures !steps[y].Faulted() {}
    forall y ensures !HoldsLoss(steps, 1, x, y) {}
  }

  /** In the same flow, forks at 3 - which arrived last - and at the fan-in itself are none the worse for it. */
  lemma OtherForksFit()
    ensures Fits(GotoExit(), 1, 3) && Fits(GotoExit(), 1, 4)
  {
    var steps := GotoExit();
    GotoExitShaped();
    EndReachesFanIn(steps, 3);
    GotoExitHeaded(3);
    GotoExitHeaded(4);
    forall s | Within(steps, 3, s) ensures s == 1 { assert steps[3].lineage == 1; }
    forall s ensures !Within(steps, 4, s) { assert steps[4].lineage == 0; }
  }

  // ----- A direct edge

  /** Spawn 1 with one branch, step 2, and one edge straight to its fan-in 3. */
  function DirectEdge(): map<nat, Step> {
    map[1 := Done().(spawned := true, size := 2, arrivals := 2, succ := 2, next := 3),
        2 := BranchStep(2, 0).(exitTask := true, succ := 3),
        3 := NewStep(1, 0, 0, 2, 0, 2, false, false)]
  }

  lemma DirectEdgeShaped()
    ensures Shaped(DirectEdge()) && Rewinds(DirectEdge(), 1, 2)
  {
    var steps := DirectEdge();
    assert StepShape(steps, 1);
    assert StepShape(steps, 2);
    assert StepShape(steps, 3);
    forall y, z | y in steps && z in steps && y < z && SameBranch(steps[y], steps[z]) ensures Follows(steps[y], steps[z], z) {
      assert y == 1 && z == 3;
    }
    forall y, z ensures !Siblings(steps, y, z) {}
    assert Shaped(steps);
    Table(steps);
  }

  /** A fork at 2 prunes the fan-in, but its cohort will wait for an arrival that never comes. */
  lemma DirectEdgeForkFails()
    ensures FanInsPruned(DirectEdge(), 1, 2) && !KeptHeaded(DirectEdge(), 1, 2)
    ensures 1 in Rewound(DirectEdge(), 1, 2, false) && !Books(Rewound(DirectEdge(), 1, 2, false), 1, 1, 0, false)
    ensures !InOrder(Rewound(DirectEdge(), 1, 2, false), 1)
  {
    var steps := DirectEdge();
    DirectEdgeShaped();
    EndReachesFanIn(steps, 2);
    forall s | Within(steps, 2, s) ensures s == 1 { assert steps[2].lineage == 1; }
    assert Within(steps, 2, 1);
    PathKept(steps, 1, 2, 1);
    DirectEdgeCounts();
  }

  lemma DirectEdgeCounts()
    requires Rewinds(DirectEdge(), 1, 2) && 1 in Kept(DirectEdge(), 1, 2) && Within(DirectEdge(), 2, 1)
    ensures |Heads(DirectEdge(), DirectEdge().Keys, 1)| == 1
    ensures 1 in Rewound(DirectEdge(), 1, 2, false) && !Books(Rewound(DirectEdge(), 1, 2, false), 1, 1, 0, false)
  {
    var steps := DirectEdge();
    DirectEdgeHeads();
    ArrivalsAre(steps, 1, 2, 1);
    var t := Rewound(steps, 1, 2, false);
    assert t[1] == KeptRow(steps, Kept(steps, 1, 2), 2, false, 1);
    forall y | y in t && t[y].lineage == 1 ensures y == 2 { assert steps[y].lineage == 1; }
    NeverResolves(t);
  }

  lemma DirectEdgeHeads()
    ensures |Heads(DirectEdge(), DirectEdge().Keys, 1)| == 1
  {
    assert {2} == Heads(DirectEdge(), DirectEdge().Keys, 1);
  }

  lemma NeverResolves(t: map<nat, Step>)
    requires 1 in t && t[1].spawned && t[1].arrivals == 0 && t[1].size == 2
    requires forall y <- t :: t[y].lineage == 1 ==> y == 2
    ensures !Books(t, 1, 1, 0, false)
  {
    Subset(Tokens(t, 1, 1), {2});
  }

  // ----- A clone of a terminated flow

  /**
   A flow terminated while the branch 2 of its spawn 1 had a fan-out of its own: 4 was still running, 3 had arrived.
   */
  function Terminated4(): map<nat, Step> {
    map[1 := Done().(spawned := true, size := 2, arrivals := 1, succ := 2),
        2 := BranchStep(2, 0).(spawned := true, size := 1, succ := 4),
        3 := BranchStep(3, 1).(exitTask := true),
        4 := NewStep(1, 2, 4, 2, 0, 2, false, true).(status := Terminated)]
  }

  lemma Terminated4Shaped()
    ensures Shaped(Terminated4()) && Rewinds(Terminated4(), 1, 3)
  {
    var steps := Terminated4();
    assert StepShape(steps, 1);
    assert StepShape(steps, 2);
    assert StepShape(steps, 3);
    assert StepShape(steps, 4);
    forall y, z ensures !(y in steps && z in steps && y < z && SameBranch(steps[y], steps[z])) {}
    forall y, z | Siblings(steps, y, z) ensures steps[y].ordinal != steps[z].ordinal {}
    assert Shaped(steps);
    Table(steps);
  }

  lemma Terminated4Around()
    ensures (forall s :: Within(Terminated4(), 3, s) <==> s == 1) && !Within(Terminated4(), 3, 2)
    ensures forall y :: y in Terminated4() ==> y in Kept(Terminated4(), 1, 3)
  {
    var steps := Terminated4();
    forall s ensures Within(steps, 3, s) <==> s == 1 { assert steps[3].lineage == 1 && steps[1].lineage == 0; }
    forall w ensures !Edge(steps, 3, w) {}
    forall y | y in steps ensures y in Kept(steps, 1, 3) { NoEdgeNoReach(steps, 3, y); }
  }

  lemma Terminated4Heads()
    ensures |Heads(Terminated4(), Terminated4().Keys, 1)| == 2 && |Heads(Terminated4(), Terminated4().Keys, 2)| == 1
  {
    var steps := Terminated4();
    assert {2, 3} == Heads(steps, steps.Keys, 1);
    assert {4} == Heads(steps, steps.Keys, 2);
  }

  /** A fork at 3 fits. */
  lemma Terminated4Fits()
    ensures Fits(Terminated4(), 1, 3)
  {
    var steps := Terminated4();
    Terminated4Around();
    Terminated4Heads();
    forall y | y in steps ensures !steps[y].Faulted() {}
    forall y ensures !HoldsLoss(steps, 1, 3, y) {}
  }

  lemma NoneLostHere(steps: map<nat, Step>, kept: set<nat>, x: nat, s: nat)
    requires forall y <- steps :: !steps[y].Faulted()
    ensures LostHeads(steps, kept, x, s) == {} && SoftHeads(steps, kept, x, s) == {}
  {
    forall h ensures !BranchHolds(steps, kept, s, h, Failed) && !BranchHolds(steps, kept, s, h, Cancelled) {}
  }

  /** Its clone, rewound to 3: the inner cohort 2 is counted as arrived, though nothing will ever converge it. */
  function CloneFresh(): map<nat, Step> {
    map[1 := Done().(spawned := true, size := 2, arrivals := 1, succ := 2),
        2 := BranchStep(2, 0).(spawned := true, size := 1, arrivals := 1, succ := 4),
        3 := NewStep(1, 1, 3, 1, 1, 1, false, true),
        4 := NewStep(1, 2, 4, 2, 0, 2, false, true).(status := Terminated, settled := true)]
  }

  lemma Terminated4Counts()
    ensures var kept := Kept(Terminated4(), 1, 3);
            && kept == {1, 2, 3, 4}
            && |ArrivedHeads(Terminated4(), kept, 3, 1)| == 1 && |ArrivedHeads(Terminated4(), kept, 3, 2)| == 1
            && |ArrivedHeads(Terminated4(), kept, 3, 4)| == 0
            && forall s :: LostHeads(Terminated4(), kept, 3, s) == {} && SoftHeads(Terminated4(), kept, 3, s) == {}
  {
    var steps := Terminated4();
    Terminated4Shaped();
    Terminated4Around();
    Terminated4Heads();
    var kept := Kept(steps, 1, 3);
    assert kept == {1, 2, 3, 4};
    ArrivalsAre(steps, 1, 3, 1);
    ArrivalsAre(steps, 1, 3, 2);
    assert Heads(steps, kept, 4) == {};
    forall s ensures LostHeads(steps, kept, 3, s) == {} && SoftHeads(steps, kept, 3, s) == {} { NoneLostHere(steps, kept, 3, s); }
  }

  lemma Terminated4Clone()
    ensures Rewound(Terminated4(), 1, 3, false) == CloneFresh() && FrozenCohort(CloneFresh())
  {
    Terminated4Counts();
    var t, kept := Rewound(Terminated4(), 1, 3, false), Kept(Terminated4(), 1, 3);
    assert t.Keys == {1, 2, 3, 4};
    assert KeptRow(Terminated4(), kept, 3, false, 1) == CloneFresh()[1];
    assert KeptRow(Terminated4(), kept, 3, false, 2) == CloneFresh()[2];
    assert KeptRow(Terminated4(), kept, 3, false, 4) == CloneFresh()[4];
    forall y | y in t ensures t[y] == CloneFresh()[y] {}
    assert Clean(CloneFresh()[2]);
  }

  /** The clone's tables once 3 has been claimed and completed. */
  function CloneRunning(): Db {
    var three := NewStep(1, 1, 3, 1, 1, 1, false, true).(status := Completed, leaseSeq := 1);
    Db(CloneFresh()[3 := three], map[1 := Flow(Running, 0)], 5, 2)
  }

  lemma CloneRuns()
    ensures var db := Db(CloneFresh(), map[1 := Flow(Running, 0)], 5, 2);
            Claimable(db, 3) && Complete(Claim(db, 3), 3, 1) == CloneRunning()
  {
    var claimed := NewStep(1, 1, 3, 1, 1, 1, false, true).(status := Running, leaseSeq := 1);
    assert CloneFresh()[3 := claimed][3 := claimed.(status := Completed)] == CloneRunning().steps;
  }

  lemma CloneArrives()
    ensures LineageDown(CloneRunning().steps)
    ensures var steps := Arrive(CloneRunning(), 3, true, false).steps;
            && steps.Keys == {1, 2, 3, 4, 5} && steps[1].next == 5 && steps[5].pred == 3
            && steps[2] == CloneFresh()[2] && steps[4] == CloneFresh()[4] && steps[1].lineage == 0
            && steps[1].pred == 0 && steps[3].pred == 1
  {
    var db := CloneRunning();
    var db1 := db.(steps := Arrived(db.steps, 3, 1));
    assert db1.steps[1].arrivals == 2;
    assert Arrive(db, 3, true, false) == InsertFanIn(db1, 1, 3, true, false);
  }

  /**
   The arrival of 3 in that clone converges the outer cohort over an inner one that has not: a second fork, of the
   clone and at 4, would keep the fan-in 5 beside the rewound branch. Cohorts no longer converge from the inside.
   */
  lemma TerminatedCloneBreaks()
    ensures LineageDown(CloneRunning().steps)
    ensures var steps := Arrive(CloneRunning(), 3, true, false).steps;
            && !Converges(steps, 1) && 4 in steps && Within(steps, 4, 1) && !FanInsPruned(steps, 1, 4)
  {
    CloneArrives();
    InnerLeft(Arrive(CloneRunning(), 3, true, false).steps);
  }

  lemma InnerLeft(steps: map<nat, Step>)
    requires steps.Keys == {1, 2, 3, 4, 5} && steps[1].next == 5 && steps[5].pred == 3 && steps[3].pred == 1 && steps[1].pred == 0
    requires steps[2] == CloneFresh()[2] && steps[4] == CloneFresh()[4]
    ensures !Converges(steps, 1) && Within(steps, 4, 1) && !FanInsPruned(steps, 1, 4)
  {
    assert steps[2].spawned && steps[2].lineage == 1 && steps[2].next == 0;
    assert Within(steps, 2, 1) && Within(steps, 4, 1);
    forall w ensures !Edge(steps, 4, w) {}
    NoEdgeNoReach(steps, 4, 5);
  }
}
