/** Arrivals, completions and failures hand everything on. */
module HeritageArrivals {
  import opened Rows
  import opened Transactions
  import opened Shape
  import opened Ledger
  import opened Accounting
  import opened Verdict
  import opened Shaping
  import opened Reach
  import opened Recount
  import opened ForkExact
  import opened Machine
  import opened Leases
  import opened Carrying
  import opened Quiet
  import opened Commits
  import opened Runs
  import opened Heritage
  import opened HeritageQuiet
  import opened HeritageCommits
  import opened HeritageMoves

  /** What an advance says beyond a transaction's reach. */
  ghost predicate GraphKept(db: Db, db': Db, x: nat, c: nat) {
    && (forall z {:trigger z in db.steps} :: z in db.steps && z in db'.steps ==>
          (z != x ==> db'.steps[z].size == db.steps[z].size)
          && (db'.steps[z].next == db.steps[z].next || (z == c && db.steps[z].next == 0)))
    && (forall z {:trigger z in db'.steps} :: z in db'.steps && z !in db.steps ==> FreshRow(db, x, db'.steps[z]))
  }

  lemma CarriedAdvance(db: Db, db': Db, x: nat, c: nat, inherit: bool)
    requires Carries(db, db', x, inherit) && GraphKept(db, db', x, c)
    ensures Advance(db, db', x, c)
  {
  }

  /** The loss of y handed over: counters alone, each with a failure in it. */
  lemma LossRows(db: Db, y: nat, soft: bool)
    requires LineageDown(db.steps) && y in db.steps
    ensures Lose(db, y, soft).steps.Keys == db.steps.Keys
    ensures forall z {:trigger LossCounted(db.steps[z], Lose(db, y, soft).steps[z])} :: z in db.steps ==> LossCounted(db.steps[z], Lose(db, y, soft).steps[z])
  {
    if db.steps[y].lineage != 0 { PropagateFails(db.steps, db.steps[y].lineage, soft); }
  }

  /** Rows as they were, or with a loss counted. */
  ghost predicate LossesCounted(steps: map<nat, Step>, steps': map<nat, Step>) {
    steps'.Keys == steps.Keys && forall z {:trigger LossCounted(steps[z], steps'[z])} :: z in steps ==> LossCounted(steps[z], steps'[z])
  }

  lemma LossGraph(db: Db, db1: Db, db': Db, x: nat)
    requires GraphKept(db, db1, x, x) && db1.steps.Keys == db.steps.Keys && LossesCounted(db1.steps, db'.steps)
    ensures GraphKept(db, db', x, x) && db'.steps.Keys == db.steps.Keys
  {
    forall z | z in db.steps ensures db'.steps[z].size == db1.steps[z].size && db'.steps[z].next == db1.steps[z].next {
      assert LossCounted(db1.steps[z], db'.steps[z]);
    }
  }

  lemma LossClean(db: Db, db1: Db, db': Db, f: nat)
    requires CleanFrom(db, db1, f) && db1.steps.Keys == db.steps.Keys && LossesCounted(db1.steps, db'.steps)
    ensures CleanFrom(db, db', f)
  {
    forall y | y in db.steps && y in db'.steps && db.steps[y].flow == f && Clean(db'.steps[y])
      ensures Clean(db.steps[y]) || db'.steps[y].next != 0
    {
      assert LossCounted(db1.steps[y], db'.steps[y]);
      assert Clean(db1.steps[y]);
    }
  }

  // ----- Failures

  lemma FailRows(db: Db, x: nat, g: nat, cancelled: bool)
    requires LineageDown(db.steps) && HoldMatches(db, x, g)
    ensures LossesCounted(Failing(db, x, cancelled).steps, Fail(db, x, g, cancelled).steps)
  {
    var db1 := Failing(db, x, cancelled);
    assert forall y <- db1.steps :: db1.steps[y].lineage == db.steps[y].lineage;
    LossRows(db1, x, cancelled);
    assert Fail(db, x, g, cancelled) == Lose(db1, x, cancelled);
  }

  lemma FailingGraph(db: Db, x: nat, cancelled: bool)
    requires x in db.steps && !db.steps[x].spawned
    ensures var db1 := Failing(db, x, cancelled);
            GraphKept(db, db1, x, x) && db1.steps.Keys == db.steps.Keys && CleanFrom(db, db1, db.steps[x].flow)
  {
  }

  /** A step that closes without moving on, with nothing else touched but counters. */
  lemma ClosesFair(db: Db, db1: Db, db': Db, x: nat, p: Past)
    requires Advance(db, db', x, x) && LossesCounted(db1.steps, db'.steps) && db1.steps.Keys == db.steps.Keys
    requires !db.steps[x].settled && !db.steps[x].spawned && db.steps[x].next == 0
    requires var q := db1.steps[x];
             !q.spawned && q.next == 0 && !q.status.Open() && (q.Faulted() && q.settled ==> x in p.reaped)
             && (db.steps[x].Loose() || q.settled) && (q.status.Terminated? ==> db.steps[x].status.Terminated?)
    requires !FlowDone(db', db.steps[x].flow) ==> CleanFrom(db, db', db.steps[x].flow)
    ensures Fair(db, db', x, x, p, p)
  {
    assert LossCounted(db1.steps[x], db'.steps[x]);
  }

  lemma FailAdvance(db: Db, x: nat, g: nat, cancelled: bool)
    requires WellShaped(db) && LineageDown(db.steps) && HoldMatches(db, x, g) && !db.steps[x].settled && !db.steps[x].spawned
    ensures Advance(db, Fail(db, x, g, cancelled), x, x) && CleanFrom(db, Fail(db, x, g, cancelled), db.steps[x].flow)
    ensures LossesCounted(Failing(db, x, cancelled).steps, Fail(db, x, g, cancelled).steps)
  {
    var db1, db' := Failing(db, x, cancelled), Fail(db, x, g, cancelled);
    FailRows(db, x, g, cancelled);
    FailingGraph(db, x, cancelled);
    LossGraph(db, db1, db', x);
    LossClean(db, db1, db', db.steps[x].flow);
    FailCarries(db, x, g, cancelled, false);
    CarriedAdvance(db, db', x, x, false);
  }

  lemma UnsettledPlain(db: Db, x: nat)
    requires WellShaped(db) && x in db.steps && !db.steps[x].settled
    ensures !db.steps[x].spawned && db.steps[x].next == 0
  {
    assert StepShape(db.steps, x);
  }

  lemma FailFair(db: Db, db': Db, x: nat, g: nat, cancelled: bool, p: Past)
    requires WellShaped(db) && LineageDown(db.steps) && HoldMatches(db, x, g) && !db.steps[x].settled
    requires db' == Fail(db, x, g, cancelled)
    ensures Advance(db, db', x, x) && Fair(db, db', x, x, p, p)
  {
    UnsettledPlain(db, x);
    FailAdvance(db, x, g, cancelled);
    ClosesFair(db, Failing(db, x, cancelled), db', x, p);
  }

  // ----- Completions

  lemma FinishFair(db: Db, x: nat, p: Past)
    requires Mover(db, x)
    ensures Advance(db, Finish(db, x), x, x) && Fair(db, Finish(db, x), x, x, p, p)
  {
    MoverAlone(db, x);
  }

  // ----- Arrivals

  /** Whether the arrival of x is the one its cohort converges on. */
  predicate Converging(db: Db, x: nat)
    requires x in db.steps && db.steps[x].lineage in db.steps
  {
    var t := db.steps[db.steps[x].lineage];
    t.size > 0 && t.arrivals + 1 >= t.size && t.failures == 0 && !FlowDone(db, db.steps[x].flow)
  }

  /** The tables once the arrival of x is counted. */
  function Counted(db: Db, x: nat): Db
    requires x in db.steps && db.steps[x].lineage in db.steps
  {
    db.(steps := Arrived(db.steps, x, db.steps[x].lineage))
  }

  lemma CountedGraph(db: Db, x: nat)
    requires WellShaped(db) && LineageDown(db.steps) && Unmoved(db, x) && db.steps[x].lineage != 0
    ensures db.steps[x].lineage in db.steps && db.steps[x].lineage != x && LineageDown(Counted(db, x).steps)
    ensures GraphKept(db, Counted(db, x), x, x) && Counted(db, x).steps.Keys == db.steps.Keys
    ensures Counted(db, x).steps[x] == db.steps[x].(settled := true)
    ensures var t := db.steps[x].lineage; Counted(db, x).steps[t] == CountedRow(db.steps[t])
    ensures forall z <- db.steps | z != x && z != db.steps[x].lineage :: Counted(db, x).steps[z] == db.steps[z]
  {
    MoverAlone(db, x);
  }

  /** An arrival that does not converge its cohort is counted, and may hand a loss upward. */
  lemma ArriveCounts(db: Db, x: nat, inherit: bool, e: bool)
    requires LineageDown(db.steps) && x in db.steps && db.steps[x].lineage != 0 && LineageDown(Counted(db, x).steps)
    requires db.steps[x].lineage != x && !Converging(db, x)
    ensures LossesCounted(Counted(db, x).steps, Arrive(db, x, inherit, e).steps)
  {
    var t := db.steps[x].lineage;
    var db1 := Counted(db, x);
    var c := db1.steps[t];
    if c.size > 0 && c.arrivals >= c.size && !FlowDone(db, db.steps[x].flow) {
      LossRows(db1, t, c.cancellations == c.failures);
      assert Arrive(db, x, inherit, e) == Lose(db1, t, c.cancellations == c.failures);
    } else {
      assert Arrive(db, x, inherit, e) == db1;
    }
  }

  lemma CountedClean(db: Db, x: nat)
    requires WellShaped(db) && LineageDown(db.steps) && Unmoved(db, x) && db.steps[x].lineage != 0
    requires db.steps[x].lineage in db.steps && !Converging(db, x) && !FlowDone(db, db.steps[x].flow)
    requires db.steps[db.steps[x].lineage].size > 0
    ensures CleanFrom(db, Counted(db, x), db.steps[x].flow)
  {
    CountedGraph(db, x);
    MoverAlone(db, x);
    var db1 := Counted(db, x);
    forall y | y in db.steps && Clean(db1.steps[y]) ensures Clean(db.steps[y]) {
      assert y != x && y != db.steps[x].lineage;
    }
  }

  /** An arrival that does not converge its cohort, also in a stopped flow. */
  lemma WaitFair(db: Db, x: nat, inherit: bool, e: bool, p: Past)
    requires WellShaped(db) && LineageDown(db.steps) && Unmoved(db, x) && db.steps[x].lineage != 0
    requires db.steps[x].lineage in db.steps && !Converging(db, x) && (x in p.reaped || !db.steps[x].Faulted())
    requires !FlowDone(db, db.steps[x].flow) ==> db.steps[db.steps[x].lineage].size > 0
    requires FlowDone(db, db.steps[x].flow) ==> FlowDone(Arrive(db, x, inherit, e), db.steps[x].flow)
    ensures Advance(db, Arrive(db, x, inherit, e), x, x) && Fair(db, Arrive(db, x, inherit, e), x, x, p, p)
  {
    CountedGraph(db, x);
    MoverAlone(db, x);
    ArriveCounts(db, x, inherit, e);
    var db1, db' := Counted(db, x), Arrive(db, x, inherit, e);
    LossGraph(db, db1, db', x);
    ArriveCarries(db, x, inherit, e);
    CarriedAdvance(db, db', x, x, inherit);
    if !FlowDone(db, db.steps[x].flow) {
      CountedClean(db, x);
      LossClean(db, db1, db', db.steps[x].flow);
    }
    ClosesFair(db, db1, db', x, p);
  }

  // ----- Convergence

  /** The tables with the fan-in of t's cohort inserted: links and one row. */
  ghost predicate FannedIn(db1: Db, db': Db, t: nat, x: nat) {
    && t in db1.steps && db'.steps.Keys == db1.steps.Keys + {db1.nextStep} && db1.nextStep != 0
    && (forall z {:trigger z in db1.steps} :: z in db1.steps ==>
          db'.steps[z] == db1.steps[z].(succ := db'.steps[z].succ, next := db'.steps[z].next)
          && db'.steps[z].next == if z == t then db1.nextStep else db1.steps[z].next)
    && var q := db'.steps[db1.nextStep];
       q.pred == x && q.flow == db1.steps[t].flow && q.status.Pending? && !q.settled && !q.spawned && q.next == 0
       && q.lineage == db1.steps[t].lineage
  }

  lemma ConvergeRows(db: Db, x: nat, inherit: bool, e: bool)
    requires WellShaped(db) && LineageDown(db.steps) && Unmoved(db, x) && db.steps[x].lineage != 0
    requires db.steps[x].lineage in db.steps && Converging(db, x)
    ensures FannedIn(Counted(db, x), Arrive(db, x, inherit, e), db.steps[x].lineage, x)
  {
    CountedGraph(db, x);
    MoverAlone(db, x);
    var t := db.steps[x].lineage;
    assert Arrive(db, x, inherit, e) == InsertFanIn(Counted(db, x), t, x, inherit, e);
    FanInGraph(Counted(db, x), t, x, inherit, e);
  }

  lemma ConvergeGraph(db: Db, db1: Db, db': Db, x: nat, t: nat)
    requires x in db.steps && t == db.steps[x].lineage && t in db.steps && x != t && db.steps[t].next == 0
    requires GraphKept(db, db1, x, x) && db1.steps.Keys == db.steps.Keys && FannedIn(db1, db', t, x)
    requires db1.steps[t] == CountedRow(db.steps[t]) && db.steps[t].flow == db.steps[x].flow
    requires db.steps[x].next == 0 == db1.steps[x].next
    requires var l := db.steps[t].lineage; l == 0 || Within(db.steps, x, l)
    ensures GraphKept(db, db', x, t)
  {
    forall z | z in db.steps && z in db'.steps
      ensures (z != x ==> db'.steps[z].size == db.steps[z].size)
      ensures db'.steps[z].next == db.steps[z].next || (z == t && db.steps[z].next == 0)
    {
      assert z in db1.steps;
    }
  }

  lemma ConvergeClean(db: Db, db1: Db, db': Db, x: nat, t: nat)
    requires db1.steps.Keys == db.steps.Keys && FannedIn(db1, db', t, x) && x in db.steps && !db1.steps[x].spawned
    requires forall z <- db.steps | z != x && z != t :: db1.steps[z] == db.steps[z]
    ensures CleanFrom(db, db', db.steps[x].flow)
  {
    forall y | y in db.steps && y in db'.steps && Clean(db'.steps[y]) ensures Clean(db.steps[y]) || db'.steps[y].next != 0 {
      assert y in db1.steps;
    }
  }

  lemma LineageAbove(db: Db, x: nat)
    requires WellShaped(db) && LineageDown(db.steps) && x in db.steps && db.steps[x].lineage != 0
    ensures db.steps[x].lineage in db.steps && Within(db.steps, x, db.steps[x].lineage)
    ensures var l := db.steps[db.steps[x].lineage].lineage; l == 0 || Within(db.steps, x, l)
  {
    var t := db.steps[x].lineage;
    assert StepShape(db.steps, x) && StepShape(db.steps, t);
    if db.steps[t].lineage != 0 { assert Within(db.steps, t, db.steps[t].lineage); }
  }

  lemma FanInGraph(db: Db, t: nat, x: nat, inherit: bool, e: bool)
    requires t in db.steps && x in db.steps && db.steps[x].flow in db.flows && db.nextStep !in db.steps
    ensures var db' := InsertFanIn(db, t, x, inherit, e);
            && db'.steps.Keys == db.steps.Keys + {db.nextStep}
            && (forall z <- db.steps :: db'.steps[z] == db.steps[z].(succ := db'.steps[z].succ, next := db'.steps[z].next)
                                        && db'.steps[z].next == if z == t then db.nextStep else db.steps[z].next)
            && var q := db'.steps[db.nextStep];
               q.pred == x && q.flow == db.steps[t].flow && q.status.Pending? && !q.settled && !q.spawned && q.next == 0
               && q.lineage == db.steps[t].lineage
  {
  }

  lemma ConvergeAdvance(db: Db, x: nat, inherit: bool, e: bool)
    requires WellShaped(db) && LineageDown(db.steps) && Unmoved(db, x) && db.steps[x].lineage != 0
    requires db.steps[x].lineage in db.steps && Converging(db, x) && db.steps[db.steps[x].lineage].next == 0
    ensures Advance(db, Arrive(db, x, inherit, e), x, db.steps[x].lineage)
    ensures CleanFrom(db, Arrive(db, x, inherit, e), db.steps[x].flow)
    ensures FannedIn(Counted(db, x), Arrive(db, x, inherit, e), db.steps[x].lineage, x)
  {
    var t := db.steps[x].lineage;
    var db1, db' := Counted(db, x), Arrive(db, x, inherit, e);
    CountedGraph(db, x);
    MoverAlone(db, x);
    ConvergeRows(db, x, inherit, e);
    LineageAbove(db, x);
    assert StepShape(db.steps, x);
    ConvergeGraph(db, db1, db', x, t);
    ConvergeClean(db, db1, db', x, t);
    ArriveCarries(db, x, inherit, e);
    CarriedAdvance(db, db', x, t, inherit);
  }

  /** The rows that matter once t's cohort has its fan-in. */
  lemma FannedRows(db: Db, db1: Db, db': Db, x: nat, t: nat)
    requires FannedIn(db1, db', t, x) && x in db1.steps && x != t && x in db.steps && t in db.steps
    requires db1.steps[x] == db.steps[x].(settled := true) && db1.steps[t] == CountedRow(db.steps[t])
    ensures x in db'.steps && db'.steps[x] == db.steps[x].(settled := true, succ := db'.steps[x].succ)
    ensures t in db'.steps && db'.steps[t].flow == db.steps[t].flow && db'.steps[t].spawned == db.steps[t].spawned
    ensures db'.steps[t].size == db.steps[t].size && db'.steps[t].arrivals == db.steps[t].arrivals + 1
            && db'.steps[t].failures == db.steps[t].failures
  {
  }

  lemma ConvergesFair(db: Db, db': Db, x: nat, t: nat, p: Past)
    requires Advance(db, db', x, t) && CleanFrom(db, db', db.steps[x].flow) && x != t
    requires db.steps[x].status.Completed? && !db.steps[x].settled && !db.steps[x].spawned && db.steps[x].next == 0
    requires db'.steps[x] == db.steps[x].(settled := true, succ := db'.steps[x].succ)
    requires Hushed(db'.steps, t) && InnerConverged(db, db', t, p.frozen)
    ensures Fair(db, db', x, t, p, p)
  {
  }

  /** The arrival a cohort converges on. */
  lemma ConvergingFair(db: Db, x: nat, inherit: bool, e: bool, p: Past)
    requires Mover(db, x) && db.steps[x].lineage != 0 && CleanConverge(db, p.frozen)
    requires db.steps[x].lineage in db.steps && Converging(db, x) && db.steps[db.steps[x].lineage].next == 0
    requires var db' := Arrive(db, x, inherit, e); Nested(db'.steps) && Balanced(db'.steps, db.steps[x].flow)
    ensures Advance(db, Arrive(db, x, inherit, e), x, db.steps[x].lineage)
    ensures Fair(db, Arrive(db, x, inherit, e), x, db.steps[x].lineage, p, p)
  {
    var t := db.steps[x].lineage;
    var db1, db' := Counted(db, x), Arrive(db, x, inherit, e);
    ConvergeAdvance(db, x, inherit, e);
    CountedGraph(db, x);
    MoverAlone(db, x);
    assert StepShape(db.steps, x);
    FannedRows(db, db1, db', x, t);
    ConvergeFair(db, db', x, t, p.frozen);
    ConvergesFair(db, db', x, t, p);
  }
}
