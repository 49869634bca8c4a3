/**
 Fork's clone of one flow, before its rows get new ids: the kept rows, with the counters of every spawn counted
 afresh by branches, and the rewind step opened again.
 */
module Recount {
  import opened Rows
  import opened Transactions
  import opened Shape
  import opened Ledger
  import opened Reach
  import opened Pruning

  /** The branches of s among the kept steps, by their heads. */
  ghost function Heads(steps: map<nat, Step>, kept: set<nat>, s: nat): set<nat> {
    set h | h in kept && h in steps && steps[h].lineage == s && steps[h].pred == s
  }

  /** The branch of s that starts at h holds a kept step with this status. */
  ghost predicate BranchHolds(steps: map<nat, Step>, kept: set<nat>, s: nat, h: nat, st: Status) {
    exists z :: z in kept && InBranch(steps, z, s, h) && steps[z].status == st
  }

  /** The branches that have arrived: all but the one the rewind step re-runs. */
  ghost function ArrivedHeads(steps: map<nat, Step>, kept: set<nat>, x: nat, s: nat): set<nat> {
    set h | h in Heads(steps, kept, s) && !InBranch(steps, x, s, h)
  }

  ghost function LostHeads(steps: map<nat, Step>, kept: set<nat>, x: nat, s: nat): set<nat> {
    set h | h in ArrivedHeads(steps, kept, x, s) && (BranchHolds(steps, kept, s, h, Failed) || BranchHolds(steps, kept, s, h, Cancelled))
  }

  ghost function SoftHeads(steps: map<nat, Step>, kept: set<nat>, x: nat, s: nat): set<nat> {
    set h | h in ArrivedHeads(steps, kept, x, s) && BranchHolds(steps, kept, s, h, Cancelled) && !BranchHolds(steps, kept, s, h, Failed)
  }

  /** A kept step that never stopped is frozen. */
  function Frozen(st: Status): Status {
    if st.Terminal() then st else Terminated
  }

  /** The row of the rewind step: the leaf runs again, a caller waits again for the child that re-runs. */
  function RewoundRow(r: Step, caller: bool): Step {
    r.(status := if caller then Running else Pending, parked := caller, leaseSeq := 0, succ := 0,
       size := if caller then r.size else 0, arrivals := 0, failures := 0, cancellations := 0,
       cancelling := false, settled := false, spawned := false, next := 0)
  }

  ghost function KeptRow(steps: map<nat, Step>, kept: set<nat>, x: nat, caller: bool, y: nat): Step
    requires y in steps
  {
    var r := steps[y];
    if y == x then RewoundRow(r, caller)
    else
      r.(status := Frozen(r.status), parked := false, leaseSeq := 0,
         succ := if r.succ in kept then r.succ else 0, next := if r.next in kept then r.next else 0,
         arrivals := |ArrivedHeads(steps, kept, x, y)|, failures := |LostHeads(steps, kept, x, y)|,
         cancellations := |SoftHeads(steps, kept, x, y)|,
         cancelling := false, settled := !r.Faulted())
  }

  ghost function Rewound(steps: map<nat, Step>, f: nat, x: nat, caller: bool): map<nat, Step> {
    var kept := Kept(steps, f, x);
    map y | y in steps && y in kept :: KeptRow(steps, kept, x, caller, y)
  }

  // ----- What a flow has to satisfy for the count by branches to be the engine's own

  /** Every branch of every cohort has a head step: no edge leads from a fan-out straight to its fan-in. */
  ghost predicate EveryBranchHeaded(steps: map<nat, Step>, f: nat) {
    forall s {:trigger steps[s].spawned} :: s in steps && steps[s].flow == f && steps[s].spawned
      ==> |Heads(steps, steps.Keys, s)| == steps[s].size
  }

  /** Every branch of every cohort the clone takes over has a head step. */
  ghost predicate KeptHeaded(steps: map<nat, Step>, f: nat, x: nat) {
    forall s {:trigger steps[s].spawned} :: s in Kept(steps, f, x) && s in steps && s != x && steps[s].spawned
      ==> |Heads(steps, steps.Keys, s)| == steps[s].size
  }

  /** Some kept step inside s's cohort is a loss. */
  ghost predicate HoldsLoss(steps: map<nat, Step>, f: nat, x: nat, s: nat) {
    exists z :: z in Kept(steps, f, x) && z in steps && Within(steps, z, s) && steps[z].Faulted()
  }

  /**
   No kept loss has gone on: a lost step has neither spawned nor a continuation, and a cohort that has converged
   on a kept fan-in holds none.
   */
  ghost predicate LossesStop(steps: map<nat, Step>, f: nat, x: nat) {
    forall y {:trigger steps[y].spawned} :: y in Kept(steps, f, x) && y in steps && y != x ==>
      && (steps[y].Faulted() ==> !steps[y].spawned && steps[y].next == 0)
      && (steps[y].spawned && steps[y].next != 0 && !Within(steps, x, y) ==> !HoldsLoss(steps, f, x, y))
  }

  /** What Fork takes for granted: exactly what it needs to put its clone back inside the live engine's rules. */
  ghost predicate Fits(steps: map<nat, Step>, f: nat, x: nat) {
    FanInsPruned(steps, f, x) && KeptHeaded(steps, f, x) && LossesStop(steps, f, x)
  }

  ghost predicate Forkable(steps: map<nat, Step>, f: nat, x: nat) {
    Rewinds(steps, f, x) && Fits(steps, f, x)
  }

  lemma {:induction false} AllBelow(steps: map<nat, Step>) returns (top: nat)
    ensures forall w <- steps :: w < top
    decreases steps
  {
    if steps == map[] {
      top := 0;
    } else {
      var y :| y in steps;
      var rest := AllBelow(steps - {y});
      top := Max(rest, y + 1);
      forall w <- steps ensures w < top {
        if w != y { assert w in steps - {y}; }
      }
    }
  }

  // ----- Branches

  lemma HeadsAre(steps: map<nat, Step>, f: nat, x: nat, s: nat, h: nat)
    requires Rewinds(steps, f, x) && s != 0
    ensures h in Heads(steps, steps.Keys, s) <==> h in steps && steps[h].lineage == s && steps[h].head == h
  {
    if h in steps { assert StepShape(steps, h); }
  }

  lemma AllHeadsKept(steps: map<nat, Step>, f: nat, x: nat, s: nat)
    requires Rewinds(steps, f, x) && s in Kept(steps, f, x) && s != x && s != 0
    ensures Heads(steps, Kept(steps, f, x), s) == Heads(steps, steps.Keys, s)
  {
    forall h | h in Heads(steps, steps.Keys, s) ensures h in Kept(steps, f, x) {
      HeadsAre(steps, f, x, s, h);
      assert StepShape(steps, h);
      HeadKept(steps, f, x, h);
    }
  }

  /** What the count by branches gives: every branch that has a head, less the one that holds the rewind step. */
  lemma ArrivalsAre(steps: map<nat, Step>, f: nat, x: nat, s: nat)
    requires Rewinds(steps, f, x) && s in Kept(steps, f, x) && s != x
    ensures |ArrivedHeads(steps, Kept(steps, f, x), x, s)| + (if Within(steps, x, s) then 1 else 0) == |Heads(steps, steps.Keys, s)|
  {
    var kept := Kept(steps, f, x);
    var all := Heads(steps, kept, s);
    assert s != 0;
    AllHeadsKept(steps, f, x, s);
    if Within(steps, x, s) {
      var m := MemberOf(steps, x, s);
      var h := steps[m].head;
      assert StepShape(steps, m);
      assert StepShape(steps, h);
      HeadsAre(steps, f, x, s, h);
      assert h in all && InBranch(steps, x, s, h);
      assert ArrivedHeads(steps, kept, x, s) == all - {h};
    } else {
      assert ArrivedHeads(steps, kept, x, s) == all;
    }
  }

  /**
   Exactly when the count is the ledger's: when every branch has a head step. A branch that was a direct edge from
   the spawn to its fan-in has none, and is never counted as arrived.
   */
  lemma CountIsRight(steps: map<nat, Step>, f: nat, x: nat, s: nat)
    requires Rewinds(steps, f, x) && s in Kept(steps, f, x) && s != x
    ensures |ArrivedHeads(steps, Kept(steps, f, x), x, s)| + (if Within(steps, x, s) then 1 else 0) == steps[s].size
            <==> |Heads(steps, steps.Keys, s)| == steps[s].size
  {
    ArrivalsAre(steps, f, x, s);
  }

  /** The number of arrivals counted for a kept spawn: every branch, less the one that holds the rewind step. */
  lemma ArrivalsCounted(steps: map<nat, Step>, f: nat, x: nat, s: nat)
    requires Forkable(steps, f, x) && s in Kept(steps, f, x) && s != x && steps[s].spawned
    ensures |ArrivedHeads(steps, Kept(steps, f, x), x, s)| == steps[s].size - (if Within(steps, x, s) then 1 else 0)
    ensures Within(steps, x, s) ==> steps[s].size > 0
  {
    ArrivalsAre(steps, f, x, s);
  }

  /** The head of the branch of s that a step inside s's cohort lies in is a head of s, and kept with the step. */
  lemma BranchHeadKept(steps: map<nat, Step>, f: nat, x: nat, z: nat, s: nat)
    requires Rewinds(steps, f, x) && z in Kept(steps, f, x) && Within(steps, z, s)
    ensures s in Kept(steps, f, x) && s != x && MemberOf(steps, z, s) in Kept(steps, f, x)
    ensures steps[MemberOf(steps, z, s)].head in Heads(steps, Kept(steps, f, x), s)
  {
    var m := MemberOf(steps, z, s);
    MemberKept(steps, f, x, z, s);
    KeptClosed(steps, f, x, m);
    WithinDown(steps, z, s);
    assert StepShape(steps, m);
    assert StepShape(steps, steps[m].head);
  }

  lemma {:induction false} MemberKept(steps: map<nat, Step>, f: nat, x: nat, z: nat, s: nat)
    requires Rewinds(steps, f, x) && z in Kept(steps, f, x) && (s == 0 || Within(steps, z, s))
    ensures MemberOf(steps, z, s) in Kept(steps, f, x)
    decreases z
  {
    if steps[z].lineage != s {
      KeptClosed(steps, f, x, z);
      MemberKept(steps, f, x, steps[z].lineage, s);
    }
  }
}
