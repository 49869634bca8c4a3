/**
 What the counters decide. When a flow's books are closed, its status says what its steps say: completed
 when no step was lost, cancelled when no step failed, failed otherwise - whatever the order in which the
 branches arrived, and however deep the fan-outs nest.
 */
module Verdict {
  import opened Rows
  import opened Transactions
  import opened Ledger

  ghost predicate HasFailed(steps: map<nat, Step>, f: nat) {
    exists y :: y in steps && steps[y].flow == f && steps[y].status.Failed?
  }

  ghost predicate HasFaulted(steps: map<nat, Step>, f: nat) {
    exists y :: y in steps && steps[y].flow == f && steps[y].Faulted()
  }

  ghost predicate NoOpenWork(steps: map<nat, Step>, f: nat) {
    forall y :: y in steps && steps[y].flow == f ==> !steps[y].Token()
  }

  /** Outstanding work anywhere shows up on the trunk. */
  lemma {:induction false} TokensClimb(steps: map<nat, Step>, f: nat, y: nat) returns (top: nat)
    requires Nested(steps) && Balanced(steps, f)
    requires y in steps && steps[y].flow == f && steps[y].Token()
    ensures top in Tokens(steps, f, 0) && (top != y ==> steps[top].Unresolved())
    decreases y
  {
    var s := steps[y].lineage;
    if s == 0 {
      top := y;
      assert InCohort(steps[y], f, 0);
    } else {
      assert InCohort(steps[y], f, s);
      assert y in Tokens(steps, f, s);
      assert Books(steps, f, s, 0, false);
      top := TokensClimb(steps, f, s);
    }
  }

  lemma AllClosed(steps: map<nat, Step>, f: nat)
    requires Nested(steps) && Balanced(steps, f) && Tokens(steps, f, 0) == {}
    ensures NoOpenWork(steps, f)
  {
    forall y | y in steps && steps[y].flow == f ensures !steps[y].Token() {
      if steps[y].Token() { var top := TokensClimb(steps, f, y); }
    }
  }

  /** Every loss in closed books is carried to the trunk, and carried as a failure if it contains one. */
  lemma {:induction false} LossClimbs(steps: map<nat, Step>, f: nat, y: nat)
    requires Nested(steps) && Balanced(steps, f) && NoOpenWork(steps, f)
    requires y in steps && steps[y].flow == f && steps[y].Lost()
    ensures Losses(steps, f, 0) != {}
    ensures steps[y].HardLost() ==> SoftLosses(steps, f, 0) != Losses(steps, f, 0)
    decreases y
  {
    var s := steps[y].lineage;
    assert InCohort(steps[y], f, s);
    assert y in Losses(steps, f, s);
    if s != 0 {
      assert Books(steps, f, s, 0, false);
      assert steps[s].flow == f && !steps[s].Token();
      if steps[y].HardLost() {
        assert SoftLosses(steps, f, s) <= Losses(steps, f, s) - {y};
        Subset(SoftLosses(steps, f, s), Losses(steps, f, s) - {y});
      }
      LossClimbs(steps, f, s);
    }
  }

  /** Every loss is made of a lost step, and every hard loss of a failed one. */
  lemma {:induction false} LossDescends(steps: map<nat, Step>, f: nat, y: nat, top: nat)
    requires Nested(steps) && Balanced(steps, f)
    requires forall z <- steps :: z < top
    requires y in steps && steps[y].flow == f && steps[y].Lost()
    ensures HasFaulted(steps, f)
    ensures steps[y].HardLost() ==> HasFailed(steps, f)
    decreases top - y
  {
    if !steps[y].Faulted() {
      assert Books(steps, f, y, 0, false);
      if steps[y].HardLost() {
        var z := HardMember(steps, f, y);
        LossDescends(steps, f, z, top);
      } else {
        var z :| z in Losses(steps, f, y);
        LossDescends(steps, f, z, top);
      }
    } else if steps[y].HardLost() && !steps[y].status.Failed? {
      assert Books(steps, f, y, 0, false);
      var z := HardMember(steps, f, y);
      LossDescends(steps, f, z, top);
    }
  }

  lemma HardMember(steps: map<nat, Step>, f: nat, s: nat) returns (z: nat)
    requires Nested(steps) && s in steps
    requires |SoftLosses(steps, f, s)| < |Losses(steps, f, s)|
    ensures z in Losses(steps, f, s) && steps[z].HardLost() && s < z
  {
    if Losses(steps, f, s) <= SoftLosses(steps, f, s) {
      Subset(Losses(steps, f, s), SoftLosses(steps, f, s));
    }
    z :| z in Losses(steps, f, s) && z !in SoftLosses(steps, f, s);
  }

  /** A flow that stops by loss is cancelled exactly when nothing in it failed, and leaves nothing open. */
  lemma LossVerdict(steps: map<nat, Step>, f: nat, cancelled: bool, top: nat)
    requires Nested(steps) && Settled(steps, f, FlowLost(cancelled)) && forall z <- steps :: z < top
    ensures NoOpenWork(steps, f) && HasFaulted(steps, f)
    ensures cancelled <==> !HasFailed(steps, f)
  {
    AllClosed(steps, f);
    var y :| y in Losses(steps, f, 0);
    LossDescends(steps, f, y, top);
    if !cancelled {
      var z :| z in Losses(steps, f, 0) && z !in SoftLosses(steps, f, 0);
      LossDescends(steps, f, z, top);
    } else if HasFailed(steps, f) {
      var z :| z in steps && steps[z].flow == f && steps[z].status.Failed?;
      LossClimbs(steps, f, z);
    }
  }

  /** A flow that completes contains no lost step and leaves nothing open. */
  lemma SuccessVerdict(steps: map<nat, Step>, f: nat)
    requires Nested(steps) && Balanced(steps, f)
    requires Tokens(steps, f, 0) == {} && Losses(steps, f, 0) == {}
    ensures NoOpenWork(steps, f) && !HasFaulted(steps, f)
  {
    AllClosed(steps, f);
    if HasFaulted(steps, f) {
      var y :| y in steps && steps[y].flow == f && steps[y].Faulted();
      LossClimbs(steps, f, y);
    }
  }

  /** While a flow runs, its one trunk token is either the only open step, or the spawn of the open cohort. */
  lemma SoleTrunkStep(steps: map<nat, Step>, f: nat, x: nat)
    requires Nested(steps) && InOrder(steps, f)
    requires x in steps && steps[x].flow == f && steps[x].lineage == 0 && steps[x].Live() && !steps[x].spawned
    ensures forall y :: y in steps && steps[y].flow == f && y != x ==> !steps[y].Token()
  {
    assert InCohort(steps[x], f, 0);
    assert x in Tokens(steps, f, 0);
    assert Tokens(steps, f, 0) == {x} by {
      Singleton(Tokens(steps, f, 0), x);
    }
    forall y | y in steps && steps[y].flow == f && y != x ensures !steps[y].Token() {
      if steps[y].Token() { var top := TokensClimb(steps, f, y); }
    }
  }

  lemma Singleton(a: set<nat>, x: nat)
    requires |a| == 1 && x in a
    ensures a == {x}
  {
    assert |a - {x}| == 0;
  }
}
