/**
 Off the rewind path Fork's count from scratch agrees with the counters the live engine kept: on a flow that
 ended with closed books, a kept cohort that does not hold the rewind step gets back exactly what it had.
 */
module ForkAgrees {
  import opened Rows
  import opened Transactions
  import opened Shape
  import opened Ledger
  import opened Verdict
  import opened Reach
  import opened Pruning
  import opened Recount
  import opened ForkLedger

  ghost predicate SameCounts(r: Step, q: Step) {
    q.arrivals == r.arrivals && q.failures == r.failures && q.cancellations == r.cancellations
  }

  /** Everything inside a kept cohort off the path is kept. */
  lemma MembersKept(steps: map<nat, Step>, f: nat, x: nat, s: nat, y: nat)
    requires Rewinds(steps, f, x) && s in Kept(steps, f, x) && s != x && s != 0 && !Within(steps, x, s)
    requires y in steps && steps[y].lineage == s
    ensures y in Kept(steps, f, x) && y != x && !Within(steps, x, y)
  {
    assert StepShape(steps, y);
    assert Within(steps, y, s);
    if Reaches(steps, x, y) { ReachesFromInside(steps, x, y, s); }
    if Within(steps, x, y) { WithinOn(steps, x, y, s); }
  }

  /** A member of a kept cohort off the path plays the same part in the clone as in the origin. */
  lemma SamePart(steps: map<nat, Step>, f: nat, x: nat, caller: bool, y: nat)
    requires Forkable(steps, f, x) && NoOpenWork(steps, f) && y in Kept(steps, f, x) && y != x
    requires steps[y].spawned ==> SameCounts(steps[y], KeptRow(steps, Kept(steps, f, x), x, caller, y))
    ensures var q := KeptRow(steps, Kept(steps, f, x), x, caller, y);
            q.Lost() == steps[y].Lost() && q.HardLost() == steps[y].HardLost() && q.lineage == steps[y].lineage && q.flow == f
  {
    assert !steps[y].Token();
  }

  lemma SameLosses(steps: map<nat, Step>, t: map<nat, Step>, f: nat, s: nat)
    requires forall y <- t :: y in steps && t[y].flow == steps[y].flow == f && t[y].lineage == steps[y].lineage
    requires forall y <- steps | InCohort(steps[y], f, s) :: y in t && t[y].Lost() == steps[y].Lost() && t[y].HardLost() == steps[y].HardLost()
    ensures Losses(t, f, s) == Losses(steps, f, s) && SoftLosses(t, f, s) == SoftLosses(steps, f, s)
  {
  }

  lemma RowsOfOneFlow(steps: map<nat, Step>, f: nat, x: nat, caller: bool)
    ensures var t := Rewound(steps, f, x, caller);
            t.Keys == Kept(steps, f, x)
            && forall y <- t :: y in steps && t[y].flow == steps[y].flow == f && t[y].lineage == steps[y].lineage
  {
    var t := Rewound(steps, f, x, caller);
    assert t.Keys == Kept(steps, f, x);
  }

  /** From equal losses and closed books on both sides, equal counters. */
  lemma BooksAgree(steps: map<nat, Step>, t: map<nat, Step>, f: nat, s: nat)
    requires s in steps && s in t && steps[s].spawned && t[s].spawned && t[s].size == steps[s].size
    requires Books(steps, f, s, 0, false) && Books(t, f, s, 0, false)
    requires Tokens(steps, f, s) == {} && Tokens(t, f, s) == {}
    requires Losses(t, f, s) == Losses(steps, f, s) && SoftLosses(t, f, s) == SoftLosses(steps, f, s)
    ensures SameCounts(steps[s], t[s])
  {
  }

  lemma {:induction false} OffPathAgrees(steps: map<nat, Step>, f: nat, x: nat, caller: bool, s: nat, top: nat)
    requires Forkable(steps, f, x) && Balanced(steps, f) && NoOpenWork(steps, f) && forall w <- steps :: w < top
    requires s in Kept(steps, f, x) && s != x && steps[s].spawned && !Within(steps, x, s)
    ensures SameCounts(steps[s], KeptRow(steps, Kept(steps, f, x), x, caller, s))
    decreases top - s
  {
    var t := Rewound(steps, f, x, caller);
    RowsOfOneFlow(steps, f, x, caller);
    forall y | y in steps && InCohort(steps[y], f, s)
      ensures y in t && t[y].Lost() == steps[y].Lost() && t[y].HardLost() == steps[y].HardLost()
    {
      assert StepShape(steps, y);
      MembersKept(steps, f, x, s, y);
      if steps[y].spawned { OffPathAgrees(steps, f, x, caller, y, top); }
      SamePart(steps, f, x, caller, y);
    }
    SameLosses(steps, t, f, s);
    assert Books(steps, f, s, 0, false);
    RewoundBooks(steps, f, x, caller, s);
    TokensLeft(steps, f, x, caller, s);
    assert Tokens(steps, f, s) == {};
    BooksAgree(steps, t, f, s);
  }
}
