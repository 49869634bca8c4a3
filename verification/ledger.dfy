/**
 The fan-out ledger. The engine tracks a cohort with four counters on its spawn step; this module says what
 they count - tokens (units of outstanding work) and losses - and shows that the upward walk of a loss keeps
 the count right at every level.
 */
module Ledger {
  import opened Rows
  import opened Transactions

  /** Outstanding work of the cohort s of flow f (of f's trunk when s is 0). */
  ghost function Tokens(steps: map<nat, Step>, f: nat, s: nat): set<nat> {
    set y | y in steps && InCohort(steps[y], f, s) && steps[y].Token()
  }

  ghost function Losses(steps: map<nat, Step>, f: nat, s: nat): set<nat> {
    set y | y in steps && InCohort(steps[y], f, s) && steps[y].Lost()
  }

  /** The losses that are cancellations through and through. */
  ghost function SoftLosses(steps: map<nat, Step>, f: nat, s: nat): set<nat> {
    set y | y in steps && InCohort(steps[y], f, s) && steps[y].Lost() && !steps[y].HardLost()
  }

  /**
   The books of cohort s are right. `owed` is the number of branches whose outcome is known but not yet
   entered (0 in every committed state), `soft` says whether an owed loss is a cancellation.
   */
  ghost predicate Books(steps: map<nat, Step>, f: nat, s: nat, owed: nat, soft: bool)
    requires s in steps
  {
    var r := steps[s];
    && (r.spawned ==> |Tokens(steps, f, s)| + r.arrivals + owed == r.size)
    && |Losses(steps, f, s)| == r.failures + owed
    && |SoftLosses(steps, f, s)| == r.cancellations + if soft then owed else 0
  }

  /** Every cohort of flow f balances, except that `hole` (0 for none) still owes one loss. */
  ghost predicate BalancedBut(steps: map<nat, Step>, f: nat, hole: nat, soft: bool) {
    forall s {:trigger Books(steps, f, s, 0, soft)} {:trigger Books(steps, f, s, 1, soft)} ::
      s in steps && steps[s].flow == f ==> Books(steps, f, s, if s == hole then 1 else 0, soft)
  }

  ghost predicate Balanced(steps: map<nat, Step>, f: nat) {
    forall s {:trigger Books(steps, f, s, 0, false)} ::
      s in steps && steps[s].flow == f ==> Books(steps, f, s, 0, false)
  }

  /** A running flow: balanced books, one trunk token, no loss on the trunk. */
  ghost predicate InOrder(steps: map<nat, Step>, f: nat) {
    Balanced(steps, f) && |Tokens(steps, f, 0)| == 1 && Losses(steps, f, 0) == {}
  }

  // ----- How the three sets react to a write

  ghost predicate SameRole(r: Step, q: Step) {
    && r.flow == q.flow && r.lineage == q.lineage
    && r.Token() == q.Token() && r.Lost() == q.Lost() && r.HardLost() == q.HardLost()
  }

  /** Rewriting one row moves it in or out of the sets of its own cohort and touches no other set. */
  lemma OneRow(steps: map<nat, Step>, x: nat, q: Step, f: nat, s: nat)
    requires x in steps && q.flow == steps[x].flow && q.lineage == steps[x].lineage
    ensures !InCohort(q, f, s) ==> Tokens(steps[x := q], f, s) == Tokens(steps, f, s)
                                   && Losses(steps[x := q], f, s) == Losses(steps, f, s)
                                   && SoftLosses(steps[x := q], f, s) == SoftLosses(steps, f, s)
    ensures InCohort(q, f, s) ==>
              && Tokens(steps[x := q], f, s) == Tokens(steps, f, s) - {x} + (if q.Token() then {x} else {})
              && Losses(steps[x := q], f, s) == Losses(steps, f, s) - {x} + (if q.Lost() then {x} else {})
              && SoftLosses(steps[x := q], f, s)
                 == SoftLosses(steps, f, s) - {x} + (if q.Lost() && !q.HardLost() then {x} else {})
  {
  }

  /** Inserting a fresh row. */
  lemma NewRow(steps: map<nat, Step>, y: nat, q: Step, f: nat, s: nat)
    requires y !in steps
    ensures !InCohort(q, f, s) ==> Tokens(steps[y := q], f, s) == Tokens(steps, f, s)
                                   && Losses(steps[y := q], f, s) == Losses(steps, f, s)
                                   && SoftLosses(steps[y := q], f, s) == SoftLosses(steps, f, s)
    ensures InCohort(q, f, s) ==>
              && Tokens(steps[y := q], f, s) == Tokens(steps, f, s) + (if q.Token() then {y} else {})
              && Losses(steps[y := q], f, s) == Losses(steps, f, s) + (if q.Lost() then {y} else {})
              && SoftLosses(steps[y := q], f, s)
                 == SoftLosses(steps, f, s) + (if q.Lost() && !q.HardLost() then {y} else {})
  {
  }

  /** Bulk writes that keep every row's role keep every set. */
  lemma SameSets(steps: map<nat, Step>, steps': map<nat, Step>, f: nat, s: nat)
    requires forall y :: y in steps' && steps'[y].flow == f <==> y in steps && steps[y].flow == f
    requires forall y <- steps' | y in steps && steps[y].flow == f :: SameRole(steps[y], steps'[y])
    ensures Tokens(steps', f, s) == Tokens(steps, f, s)
    ensures Losses(steps', f, s) == Losses(steps, f, s)
    ensures SoftLosses(steps', f, s) == SoftLosses(steps, f, s)
  {
  }

  /** The counter columns of a row. */
  ghost predicate SameCounters(r: Step, q: Step) {
    && r.spawned == q.spawned && (r.spawned ==> r.size == q.size) && r.arrivals == q.arrivals
    && r.failures == q.failures && r.cancellations == q.cancellations
  }

  /** Writes that keep roles and counters of a flow's steps keep the flow in order. */
  lemma OrderKept(steps: map<nat, Step>, steps': map<nat, Step>, f: nat)
    requires InOrder(steps, f)
    requires forall y :: y in steps' && steps'[y].flow == f <==> y in steps && steps[y].flow == f
    requires forall y <- steps' | y in steps && steps[y].flow == f ::
               SameRole(steps[y], steps'[y]) && SameCounters(steps[y], steps'[y])
    ensures InOrder(steps', f)
  {
    SameSets(steps, steps', f, 0);
    forall s | s in steps' && steps'[s].flow == f ensures Books(steps', f, s, 0, false) {
      assert Books(steps, f, s, 0, false);
      SameSets(steps, steps', f, s);
    }
  }

  // ----- The walk of a loss

  /** Columns the walk never writes. */
  predicate CountersOnly(r: Step, q: Step) {
    q == r.(arrivals := q.arrivals, failures := q.failures, cancellations := q.cancellations)
  }

  ghost predicate OnlyCounted(steps: map<nat, Step>, steps': map<nat, Step>, f: nat) {
    && steps'.Keys == steps.Keys
    && (forall y <- steps :: CountersOnly(steps[y], steps'[y]))
    && (forall y <- steps | steps[y].flow != f || !steps[y].spawned :: steps'[y] == steps[y])
  }

  /** Lineages stay inside a flow and name spawns. */
  ghost predicate Nested(steps: map<nat, Step>) {
    0 !in steps && forall y {:trigger steps[y].lineage} :: y in steps ==>
      && steps[y].lineage < y
      && (steps[y].lineage != 0 ==> steps[y].lineage in steps && steps[steps[y].lineage].flow == steps[y].flow
                                    && steps[steps[y].lineage].spawned)
  }

  lemma SoftAmongLost(steps: map<nat, Step>, f: nat, s: nat)
    ensures |SoftLosses(steps, f, s)| <= |Losses(steps, f, s)|
  {
    Subset(SoftLosses(steps, f, s), Losses(steps, f, s));
  }

  lemma {:induction false} Subset(a: set<nat>, b: set<nat>)
    requires a <= b
    ensures |a| <= |b|
    decreases a
  {
    if a != {} {
      var y :| y in a;
      Subset(a - {y}, b - {y});
    }
  }

  /** What the walk leaves behind: a flow in order, or one whose books are all closed by the loss. */
  ghost predicate Settled(steps: map<nat, Step>, f: nat, o: Outcome) {
    match o
    case Contained => InOrder(steps, f)
    case FlowLost(c) =>
      && Balanced(steps, f) && Tokens(steps, f, 0) == {} && Losses(steps, f, 0) != {}
      && (c <==> SoftLosses(steps, f, 0) == Losses(steps, f, 0))
  }

  /** Entering an owed loss at `cur` makes cur's books right whatever happens above. */
  lemma BumpEnters(steps: map<nat, Step>, f: nat, cur: nat, soft: bool)
    requires Nested(steps) && cur in steps && steps[cur].flow == f && steps[cur].spawned
    requires Books(steps, f, cur, 1, soft)
    ensures var b := Bump(steps[cur], soft);
            && Books(steps[cur := b], f, cur, 0, false)
            && b.arrivals <= b.size && b.failures > 0 && b.cancellations <= b.failures
  {
    var b := Bump(steps[cur], soft);
    OneRow(steps, cur, b, f, cur);
    SoftAmongLost(steps, f, cur);
  }

  /** The books of the other cohorts when `cur` stays unresolved. */
  lemma BumpQuiet(steps: map<nat, Step>, f: nat, cur: nat, soft: bool, s: nat)
    requires Nested(steps) && cur in steps && steps[cur].flow == f && steps[cur].spawned
    requires var b := Bump(steps[cur], soft); b.arrivals < b.size
    ensures var steps1 := steps[cur := Bump(steps[cur], soft)];
            && Tokens(steps1, f, s) == Tokens(steps, f, s) && Losses(steps1, f, s) == Losses(steps, f, s)
            && SoftLosses(steps1, f, s) == SoftLosses(steps, f, s)
  {
    OneRow(steps, cur, Bump(steps[cur], soft), f, s);
  }

  /** When `cur` resolves it stops being a token of the cohort it belongs to and becomes a loss of it. */
  lemma BumpTurns(steps: map<nat, Step>, f: nat, cur: nat, soft: bool)
    requires Nested(steps) && cur in steps && steps[cur].flow == f && steps[cur].spawned && !steps[cur].Live()
    requires !steps[cur].Faulted() && Books(steps, f, cur, 1, soft)
    requires var b := Bump(steps[cur], soft); b.arrivals >= b.size
    ensures var b := Bump(steps[cur], soft);
            && steps[cur].Token() && !steps[cur].Lost() && !b.Token() && b.Lost()
            && (b.HardLost() <==> b.cancellations != b.failures)
            && InCohort(b, f, b.lineage) && InCohort(steps[cur], f, b.lineage)
  {
    BumpEnters(steps, f, cur, soft);
  }

  lemma BumpElsewhere(steps: map<nat, Step>, f: nat, cur: nat, soft: bool, s: nat)
    requires cur in steps && s != steps[cur].lineage
    ensures var steps1 := steps[cur := Bump(steps[cur], soft)];
            && Tokens(steps1, f, s) == Tokens(steps, f, s) && Losses(steps1, f, s) == Losses(steps, f, s)
            && SoftLosses(steps1, f, s) == SoftLosses(steps, f, s)
  {
    OneRow(steps, cur, Bump(steps[cur], soft), f, s);
  }

  /** A token that turns into a loss, in the sets of the cohort it belongs to. */
  lemma TokenLost(steps: map<nat, Step>, x: nat, q: Step, f: nat, p: nat)
    requires x in steps && InCohort(steps[x], f, p) && InCohort(q, f, p)
    requires steps[x].Token() && !steps[x].Lost() && !q.Token() && q.Lost()
    ensures var steps1 := steps[x := q];
            && Tokens(steps1, f, p) == Tokens(steps, f, p) - {x}
            && |Tokens(steps1, f, p)| + 1 == |Tokens(steps, f, p)|
            && Losses(steps1, f, p) == Losses(steps, f, p) + {x}
            && |Losses(steps1, f, p)| == |Losses(steps, f, p)| + 1
            && SoftLosses(steps1, f, p) == SoftLosses(steps, f, p) + (if q.HardLost() then {} else {x})
            && |SoftLosses(steps1, f, p)| == |SoftLosses(steps, f, p)| + (if q.HardLost() then 0 else 1)
  {
    OneRow(steps, x, q, f, p);
    assert x in Tokens(steps, f, p) by { assert InCohort(steps[x], f, p); }
    MovedOut(Tokens(steps, f, p), Tokens(steps[x := q], f, p), x, false);
    MovedIn(Losses(steps, f, p), Losses(steps[x := q], f, p), x, true);
    MovedIn(SoftLosses(steps, f, p), SoftLosses(steps[x := q], f, p), x, !q.HardLost());
  }

  lemma MovedOut(a: set<nat>, b: set<nat>, x: nat, stays: bool)
    requires x in a && b == a - {x} + (if stays then {x} else {})
    ensures !stays ==> b == a - {x} && |b| + 1 == |a|
    ensures stays ==> b == a
  {
  }

  lemma MovedIn(a: set<nat>, b: set<nat>, x: nat, joins: bool)
    requires x !in a && b == a - {x} + (if joins then {x} else {})
    ensures joins ==> b == a + {x} && |b| == |a| + 1
    ensures !joins ==> b == a
  {
  }

  lemma BumpAbove(steps: map<nat, Step>, f: nat, cur: nat, soft: bool)
    requires Nested(steps) && cur in steps && steps[cur].flow == f && steps[cur].spawned && !steps[cur].Live()
    requires !steps[cur].Faulted() && Books(steps, f, cur, 1, soft)
    requires var b := Bump(steps[cur], soft); b.arrivals >= b.size
    ensures var b := Bump(steps[cur], soft);
            var steps1 := steps[cur := b];
            var p := b.lineage;
            && |Tokens(steps1, f, p)| + 1 == |Tokens(steps, f, p)|
            && Losses(steps1, f, p) == Losses(steps, f, p) + {cur}
            && |Losses(steps1, f, p)| == |Losses(steps, f, p)| + 1
            && SoftLosses(steps1, f, p) == SoftLosses(steps, f, p)
                                           + (if b.cancellations == b.failures then {cur} else {})
            && |SoftLosses(steps1, f, p)| == |SoftLosses(steps, f, p)|
                                             + (if b.cancellations == b.failures then 1 else 0)
  {
    var b := Bump(steps[cur], soft);
    BumpTurns(steps, f, cur, soft);
    TokenLost(steps, cur, b, f, b.lineage);
  }

  lemma WalkStops(steps: map<nat, Step>, f: nat, cur: nat, soft: bool)
    requires Nested(steps) && cur in steps && steps[cur].flow == f && steps[cur].spawned
    requires BalancedBut(steps, f, cur, soft) && |Tokens(steps, f, 0)| == 1 && Losses(steps, f, 0) == {}
    requires var b := Bump(steps[cur], soft); b.arrivals < b.size
    ensures InOrder(steps[cur := Bump(steps[cur], soft)], f)
  {
    var steps1 := steps[cur := Bump(steps[cur], soft)];
    assert Books(steps, f, cur, 1, soft);
    BumpQuiet(steps, f, cur, soft, 0);
    forall s | s in steps1 && steps1[s].flow == f ensures Books(steps1, f, s, 0, false) {
      if s == cur {
        BumpEnters(steps, f, cur, soft);
      } else {
        assert Books(steps, f, s, 0, soft);
        BumpQuiet(steps, f, cur, soft, s);
      }
    }
  }

  lemma WalkRises(steps: map<nat, Step>, f: nat, cur: nat, soft: bool)
    requires Nested(steps) && cur in steps && steps[cur].flow == f && steps[cur].spawned && !steps[cur].Live()
    requires !steps[cur].Faulted() && BalancedBut(steps, f, cur, soft)
    requires var b := Bump(steps[cur], soft); b.arrivals >= b.size
    ensures var b := Bump(steps[cur], soft);
            BalancedBut(steps[cur := b], f, b.lineage, b.cancellations == b.failures)
  {
    var b := Bump(steps[cur], soft);
    var steps1 := steps[cur := b];
    var soft' := b.cancellations == b.failures;
    assert Books(steps, f, cur, 1, soft);
    forall s | s in steps1 && steps1[s].flow == f
      ensures Books(steps1, f, s, if s == b.lineage then 1 else 0, soft')
    {
      if s == cur {
        BumpEnters(steps, f, cur, soft);
      } else if s == b.lineage {
        assert Books(steps, f, s, 0, soft);
        BumpAbove(steps, f, cur, soft);
      } else {
        assert Books(steps, f, s, 0, soft);
        BumpElsewhere(steps, f, cur, soft, s);
      }
    }
  }

  /** A loss that resolves a cohort on the trunk closes the flow's books. */
  lemma WalkEnds(steps: map<nat, Step>, f: nat, cur: nat, soft: bool)
    requires Nested(steps) && cur in steps && steps[cur].flow == f && steps[cur].spawned && !steps[cur].Live()
    requires !steps[cur].Faulted() && BalancedBut(steps, f, cur, soft) && steps[cur].lineage == 0
    requires |Tokens(steps, f, 0)| == 1 && Losses(steps, f, 0) == {}
    requires var b := Bump(steps[cur], soft); b.arrivals >= b.size
    ensures var b := Bump(steps[cur], soft);
            Settled(steps[cur := b], f, FlowLost(b.cancellations == b.failures))
  {
    var b := Bump(steps[cur], soft);
    WalkRises(steps, f, cur, soft);
    assert Books(steps, f, cur, 1, soft);
    BumpAbove(steps, f, cur, soft);
    assert SoftLosses(steps, f, 0) == {} by {
      assert SoftLosses(steps, f, 0) <= Losses(steps, f, 0);
    }
    CloseTrunk(steps[cur := b], f, cur, b.cancellations == b.failures);
  }

  /**
   propagateCohortFailure keeps the ledger: started from a flow that is in order except that `cur` owes one
   loss, the walk ends with the loss absorbed and the flow in order, or with every book of the flow closed
   and the right verdict.
   */
  lemma {:induction false} PropagateBalances(steps: map<nat, Step>, f: nat, cur: nat, soft: bool)
    requires Nested(steps) && LineageDown(steps) && cur in steps && steps[cur].flow == f && steps[cur].spawned
    requires SpawnsDone(steps, f)
    requires BalancedBut(steps, f, cur, soft) && |Tokens(steps, f, 0)| == 1 && Losses(steps, f, 0) == {}
    ensures var r := Propagate(steps, cur, soft);
            Settled(r.0, f, r.1)
    decreases cur
  {
    var b := Bump(steps[cur], soft);
    if b.arrivals < b.size {
      WalkStops(steps, f, cur, soft);
    } else if b.lineage == 0 {
      WalkEnds(steps, f, cur, soft);
    } else {
      WalkRises(steps, f, cur, soft);
      BumpElsewhere(steps, f, cur, soft, 0);
      BumpKeepsNested(steps, cur, soft);
      PropagateBalances(steps[cur := b], f, b.lineage, b.cancellations == b.failures);
    }
  }

  lemma BumpKeepsNested(steps: map<nat, Step>, cur: nat, soft: bool)
    requires Nested(steps) && cur in steps && steps[cur].spawned && SpawnsDone(steps, steps[cur].flow)
    ensures var steps1 := steps[cur := Bump(steps[cur], soft)];
            Nested(steps1) && LineageDown(steps1) && SpawnsDone(steps1, steps[cur].flow)
  {
  }

  /** The walk writes counters of spawns of one flow, and nothing else. */
  lemma {:induction false} PropagateCounts(steps: map<nat, Step>, f: nat, cur: nat, soft: bool)
    requires Nested(steps) && LineageDown(steps) && cur in steps && steps[cur].flow == f && steps[cur].spawned
    ensures OnlyCounted(steps, Propagate(steps, cur, soft).0, f)
    decreases cur
  {
    var b := Bump(steps[cur], soft);
    var steps1 := steps[cur := b];
    if b.arrivals >= b.size && b.lineage != 0 {
      NestedBump(steps, cur, b);
      BumpCounts(steps, f, cur, b);
      PropagateCounts(steps1, f, b.lineage, b.cancellations == b.failures);
      OnlyCountedTrans(steps, steps1, Propagate(steps1, b.lineage, b.cancellations == b.failures).0, f);
    } else {
      BumpCounts(steps, f, cur, b);
    }
  }

  lemma BumpCounts(steps: map<nat, Step>, f: nat, cur: nat, b: Step)
    requires cur in steps && steps[cur].flow == f && steps[cur].spawned && CountersOnly(steps[cur], b)
    ensures OnlyCounted(steps, steps[cur := b], f)
  {
  }

  lemma NestedBump(steps: map<nat, Step>, cur: nat, b: Step)
    requires Nested(steps) && cur in steps && CountersOnly(steps[cur], b)
    ensures Nested(steps[cur := b]) && LineageDown(steps[cur := b])
  {
  }

  lemma OnlyCountedTrans(a: map<nat, Step>, b: map<nat, Step>, c: map<nat, Step>, f: nat)
    requires OnlyCounted(a, b, f) && OnlyCounted(b, c, f)
    ensures OnlyCounted(a, c, f)
  {
  }

  /** A step that spawned a cohort is done: neither live nor itself a loss. */
  ghost predicate SpawnsDone(steps: map<nat, Step>, f: nat) {
    forall y {:trigger steps[y].spawned} | y in steps && steps[y].flow == f && steps[y].spawned ::
      !steps[y].Live() && !steps[y].Faulted()
  }

  /** The walk reached the trunk: its only token turned into its only loss. */
  lemma CloseTrunk(steps1: map<nat, Step>, f: nat, cur: nat, soft: bool)
    requires 0 !in steps1 && BalancedBut(steps1, f, 0, soft)
    requires |Tokens(steps1, f, 0)| == 0
    requires Losses(steps1, f, 0) == {cur}
    requires SoftLosses(steps1, f, 0) == if soft then {cur} else {}
    ensures Settled(steps1, f, FlowLost(soft))
  {
    forall s | s in steps1 && steps1[s].flow == f ensures Books(steps1, f, s, 0, false) {
      assert Books(steps1, f, s, 0, soft);
    }
  }
}
