/**
 What the transactions that move a token write at most: rows of one flow, new rows of that flow, and its flow
 row - never the row of another dispatch's step beyond its counters and links.
 */
module Carrying {
  import opened Rows
  import opened Transactions
  import opened Shape
  import opened Ledger
  import opened Accounting
  import opened Shaping
  import opened Leases
  import opened Cancel

  /** Columns a transition may write in a row that is not its own. */
  predicate CarriedRow(r: Step, q: Step) {
    q == r.(size := q.size, arrivals := q.arrivals, failures := q.failures, cancellations := q.cancellations,
            succ := q.succ, next := q.next)
  }

  /** Columns it may write in its own step's row. */
  predicate OwnRow(r: Step, q: Step) {
    q == r.(status := q.status, parked := q.parked, size := q.size, arrivals := q.arrivals, failures := q.failures,
            cancellations := q.cancellations, succ := q.succ, next := q.next, settled := q.settled, spawned := q.spawned)
    && !q.status.Open() && (q.parked ==> r.parked && q.status == r.status)
  }

  /** A row it may add. */
  predicate AddedRow(db: Db, x: nat, inherit: bool, q: Step)
    requires x in db.steps && db.steps[x].flow in db.flows
  {
    q.flow == db.steps[x].flow && q.pred == x && q.status.Pending? && !q.parked && q.leaseSeq == 0 && !q.settled
    && (q.cancelling <==> InheritedMark(db, x, inherit))
  }

  ghost predicate RowsCarried(db: Db, db': Db, x: nat, inherit: bool)
    requires x in db.steps && db.steps[x].flow in db.flows
  {
    && db'.nextStep >= db.nextStep
    && (forall z {:trigger z in db.steps} :: z in db.steps ==>
          z in db'.steps
          && (if z == x then OwnRow(db.steps[z], db'.steps[z]) else CarriedRow(db.steps[z], db'.steps[z]))
          && (db.steps[z].flow != db.steps[x].flow ==> db'.steps[z] == db.steps[z]))
    && (forall z {:trigger z in db'.steps} :: z in db'.steps && z !in db.steps ==>
          z >= db.nextStep && !FlowDone(db, db.steps[x].flow) && AddedRow(db, x, inherit, db'.steps[z]))
  }

  ghost predicate FlowsCarried(db: Db, db': Db, f: nat) {
    && db'.nextFlow == db.nextFlow && db'.flows.Keys == db.flows.Keys
    && forall h {:trigger db'.flows[h]} :: h in db.flows ==>
         db'.flows[h] == db.flows[h]
         || (h == f && !db.flows[f].status.Terminal() && db'.flows[f] == db.flows[f].(status := db'.flows[f].status))
  }

  ghost predicate Carries(db: Db, db': Db, x: nat, inherit: bool) {
    x in db.steps && db.steps[x].flow in db.flows
    && RowsCarried(db, db', x, inherit) && FlowsCarried(db, db', db.steps[x].flow)
  }

  // ----- Consequences

  lemma CarriedLeases(db: Db, db': Db, x: nat, g: nat, inherit: bool)
    requires Carries(db, db', x, inherit) && Own(db, x, g)
    ensures OwnerWrites(db, db', x, g)
  {
    forall z | z in db'.steps && z in db.steps && z != x
      ensures OthersWrite(db.steps[z], db'.steps[z], FlowDone(db', db.steps[z].flow))
    {
      assert CarriedRow(db.steps[z], db'.steps[z]);
    }
  }

  lemma CarriedMarks(db: Db, db': Db, x: nat, inherit: bool)
    requires Carries(db, db', x, inherit) && WellShaped(db) && WellShaped(db') && MarksOk(db)
    requires FlowDone(db, db.steps[x].flow) || inherit == !db.steps[x].cancelling
    ensures MarksOk(db')
  {
    forall z | z in db.steps
      ensures db'.steps[z].cancelling == db.steps[z].cancelling && db'.steps[z].pred == db.steps[z].pred
              && db'.steps[z].flow == db.steps[z].flow
    {
      assert z in db'.steps;
    }
    forall y | y in db'.steps && y !in db.steps ensures y >= db.nextStep && InsertedRight(db, db', y) {
      assert AddedRow(db, x, inherit, db'.steps[y]);
      assert x in db'.steps && x != 0;
    }
    MarksAfter(db, db');
  }

  /** The flows a transition does not belong to stay in order. */
  lemma CarriedBystander(db: Db, db': Db, x: nat, inherit: bool, h: nat)
    requires Carries(db, db', x, inherit) && h != db.steps[x].flow && InOrder(db.steps, h)
    ensures InOrder(db'.steps, h)
    ensures forall y | y in db'.steps && db'.steps[y].flow == h :: y in db.steps && db'.steps[y] == db.steps[y]
  {
    forall y ensures y in db'.steps && db'.steps[y].flow == h <==> y in db.steps && db.steps[y].flow == h {
      if y in db.steps { assert y in db'.steps; }
    }
    Bystander(db.steps, db'.steps, h);
  }

  // ----- The transactions

  lemma NextCarries(db: Db, x: nat, inherit: bool, exitTask: bool)
    requires Ids(db) && x in db.steps && !db.steps[x].status.Open() && !FlowDone(db, db.steps[x].flow)
    ensures Carries(db, Next(db, x, inherit, exitTask), x, inherit)
  {
  }

  lemma DirectCarries(db: Db, x: nat, inherit: bool, exitTask: bool)
    requires Ids(db) && x in db.steps && !db.steps[x].status.Open() && !FlowDone(db, db.steps[x].flow)
    ensures Carries(db, Direct(db, x, inherit, exitTask), x, inherit)
  {
  }

  lemma FinishCarries(db: Db, x: nat, inherit: bool)
    requires Ids(db) && x in db.steps && !db.steps[x].status.Open() && !FlowDone(db, db.steps[x].flow)
    ensures Carries(db, Finish(db, x), x, inherit)
  {
  }

  lemma PushCarries(db: Db, f: nat, x: nat, inherit: bool, tasks: seq<bool>, direct: nat, exitTask: bool)
    requires Ids(db) && Moving(db.steps, f, x) && !FlowDone(db, f) && |tasks| > 0
    ensures Carries(db, Push(db, x, inherit, tasks, direct, exitTask), x, inherit)
  {
    PushRows(db, f, x, inherit, tasks, direct, exitTask);
    RowsAdded(db, x, inherit, PushedRow(db, x, |tasks|, direct), tasks);
  }

  lemma RowsAdded(db: Db, x: nat, inherit: bool, q: Step, tasks: seq<bool>)
    requires Ids(db) && x in db.steps && OwnRow(db.steps[x], q) && !FlowDone(db, db.steps[x].flow)
    ensures Carries(db, db.(steps := db.steps[x := q] + Branches(db, x, inherit, tasks, |tasks|),
                            nextStep := db.nextStep + |tasks|), x, inherit)
  {
    var rows := Branches(db, x, inherit, tasks, |tasks|);
    forall z | z in rows ensures AddedRow(db, x, inherit, rows[z]) {
      assert rows[z] == Branch(db, x, inherit, tasks, z - db.nextStep);
    }
  }

  /** The step x and one row more. */
  lemma OneMoreRow(db: Db, db1: Db, db': Db, x: nat, inherit: bool, row: Step)
    requires Carries(db, db1, x, inherit) && db1.steps.Keys == db.steps.Keys && db1.nextStep == db.nextStep
    requires db.nextStep !in db.steps && !FlowDone(db, db.steps[x].flow) && AddedRow(db, x, inherit, row)
    requires db'.steps == db1.steps[db.nextStep := row] && db'.nextStep > db.nextStep
    requires db'.flows == db1.flows && db'.nextFlow == db1.nextFlow
    ensures Carries(db, db', x, inherit)
  {
    forall z | z in db.steps ensures z in db'.steps && db'.steps[z] == db1.steps[z] {
      assert z in db1.steps;
    }
  }

  lemma PushDirectCarries(db: Db, f: nat, x: nat, inherit: bool, direct: nat, exitTask: bool)
    requires Ids(db) && Moving(db.steps, f, x) && !FlowDone(db, f) && direct > 0 && db.steps[x].lineage != x
    requires forall z <- db.steps :: db.steps[z].lineage != x
    ensures Carries(db, Push(db, x, inherit, [], direct, exitTask), x, inherit)
  {
    var q := PushedRow(db, x, 0, direct).(next := db.nextStep);
    var row := PushedFanIn(db, f, x, inherit, direct, exitTask);
    RowCarries(db, x, inherit, q);
    OneMoreRow(db, db.(steps := db.steps[x := q]), Push(db, x, inherit, [], direct, exitTask), x, inherit, row);
  }

  lemma RowCarries(db: Db, x: nat, inherit: bool, q: Step)
    requires Ids(db) && x in db.steps && OwnRow(db.steps[x], q)
    ensures Carries(db, db.(steps := db.steps[x := q]), x, inherit)
  {
  }

  /** The fan-in of a cohort without members: one row linked, one added. */
  lemma FanInAlone(db: Db, f: nat, x: nat, inherit: bool, exitTask: bool) returns (row: Step)
    requires x in db.steps && db.steps[x].flow == f && f in db.flows
    requires forall z <- db.steps :: db.steps[z].lineage != x
    ensures InsertFanIn(db, x, x, inherit, exitTask)
            == db.(steps := db.steps[x := db.steps[x].(next := db.nextStep)][db.nextStep := row], nextStep := db.nextStep + 1)
    ensures AddedRow(db, x, inherit, row)
  {
    row := FanInRow(db, x, x, inherit, exitTask);
    SpawnAlone(db, f, x);
  }

  lemma Overwrite(steps: map<nat, Step>, x: nat, a: Step, b: Step)
    ensures steps[x := a][x := b] == steps[x := b]
  {
  }

  lemma PushedFanIn(db: Db, f: nat, x: nat, inherit: bool, direct: nat, exitTask: bool) returns (row: Step)
    requires Ids(db) && Moving(db.steps, f, x) && !FlowDone(db, f) && direct > 0 && db.steps[x].lineage != x
    requires forall z <- db.steps :: db.steps[z].lineage != x
    ensures Push(db, x, inherit, [], direct, exitTask)
            == db.(steps := db.steps[x := PushedRow(db, x, 0, direct).(next := db.nextStep)][db.nextStep := row],
                   nextStep := db.nextStep + 1)
    ensures AddedRow(db, x, inherit, row)
  {
    var db1 := db.(steps := db.steps[x := PushedRow(db, x, 0, direct)]);
    PushConverges(db, x, inherit, direct, exitTask);
    row := FanInAlone(db1, f, x, inherit, exitTask);
    Overwrite(db.steps, x, PushedRow(db, x, 0, direct), PushedRow(db, x, 0, direct).(next := db.nextStep));
  }

  lemma LoseCarries(db: Db, db1: Db, x: nat, inherit: bool, f: nat, c: bool)
    requires Carries(db, db1, x, inherit) && db.steps[x].flow == f
    ensures Carries(db, LoseFlow(db1, f, c), x, inherit)
  {
  }

  lemma WalkCarries(db: Db, db1: Db, x: nat, inherit: bool, f: nat, cur: nat, soft: bool)
    requires Carries(db, db1, x, inherit) && db.steps[x].flow == f && db1.steps.Keys == db.steps.Keys
    requires Nested(db1.steps) && LineageDown(db1.steps)
    requires cur in db1.steps && db1.steps[cur].spawned && db1.steps[cur].flow == f
    ensures Carries(db, SettleLoss(db1, f, Propagate(db1.steps, cur, soft)), x, inherit)
  {
    var p := Propagate(db1.steps, cur, soft);
    PropagateCounts(db1.steps, f, cur, soft);
    var db2 := db1.(steps := p.0);
    forall z | z in db.steps
      ensures if z == x then OwnRow(db.steps[z], db2.steps[z]) else CarriedRow(db.steps[z], db2.steps[z])
    {
      assert z in db1.steps && CountersOnly(db1.steps[z], db2.steps[z]);
    }
    assert RowsCarried(db, db2, x, inherit);
    if p.1.FlowLost? { LoseCarries(db, db2, x, inherit, f, p.1.cancelled); }
  }

  lemma ArrivedCarries(db: Db, x: nat, inherit: bool)
    requires WellShaped(db) && Unmoved(db, x) && db.steps[x].lineage != 0
    ensures db.steps[x].lineage in db.steps
    ensures Carries(db, db.(steps := Arrived(db.steps, x, db.steps[x].lineage)), x, inherit)
  {
    assert StepShape(db.steps, x);
  }

  /** Which rows the successor links of a cohort touch. */
  lemma LinksCarried(db1: Db, t: nat, z: nat)
    requires t in db1.steps && z in db1.steps
    ensures LinkedRows(db1, t).Keys == db1.steps.Keys
    ensures var q := LinkedRows(db1, t)[z]; q == db1.steps[z].(succ := q.succ, next := q.next)
    ensures db1.steps[z].flow != db1.steps[t].flow ==> LinkedRows(db1, t)[z] == db1.steps[z]
  {
  }

  lemma LinkedCarries(db: Db, db1: Db, t: nat, x: nat, inherit: bool)
    requires Carries(db, db1, x, inherit) && db1.steps.Keys == db.steps.Keys
    requires t in db1.steps && db1.steps[t].flow == db.steps[x].flow
    ensures Carries(db, db1.(steps := LinkedRows(db1, t)), x, inherit)
  {
    var linked := LinkedRows(db1, t);
    forall z | z in db.steps
      ensures z in linked && (if z == x then OwnRow(db.steps[z], linked[z]) else CarriedRow(db.steps[z], linked[z]))
      ensures db.steps[z].flow != db.steps[x].flow ==> linked[z] == db.steps[z]
    {
      assert z in db1.steps;
      LinksCarried(db1, t, z);
    }
    forall z | z in linked ensures z in db.steps { LinksCarried(db1, t, t); }
  }

  lemma FanInCarries(db: Db, db1: Db, t: nat, x: nat, inherit: bool, exitTask: bool)
    requires Carries(db, db1, x, inherit) && db1.steps.Keys == db.steps.Keys && db1.nextStep == db.nextStep
    requires Ids(db) && !FlowDone(db, db.steps[x].flow) && db1.flows == db.flows
    requires t in db1.steps && db1.steps[t].flow == db.steps[x].flow
    ensures Carries(db, InsertFanIn(db1, t, x, inherit, exitTask), x, inherit)
  {
    var row := FanInRow(db1, t, x, inherit, exitTask);
    LinkedCarries(db, db1, t, x, inherit);
    LinksCarried(db1, t, t);
    OneMoreRow(db, db1.(steps := LinkedRows(db1, t)), InsertFanIn(db1, t, x, inherit, exitTask), x, inherit, row);
  }

  lemma LossCarries(db: Db, db1: Db, x: nat, inherit: bool, y: nat, soft: bool)
    requires Carries(db, db1, x, inherit) && db1.steps.Keys == db.steps.Keys
    requires Nested(db1.steps) && LineageDown(db1.steps) && y in db1.steps && db1.steps[y].flow == db.steps[x].flow
    ensures Carries(db, Lose(db1, y, soft), x, inherit)
  {
    var t := db1.steps[y].lineage;
    if t == 0 {
      LoseCarries(db, db1, x, inherit, db.steps[x].flow, soft);
    } else {
      assert t in db1.steps;
      WalkCarries(db, db1, x, inherit, db.steps[x].flow, t, soft);
    }
  }

  lemma ResolveCarries(db: Db, db1: Db, t: nat, x: nat, inherit: bool, exitTask: bool)
    requires Carries(db, db1, x, inherit) && db1.steps.Keys == db.steps.Keys && db1.nextStep == db.nextStep
    requires Ids(db) && db1.flows == db.flows && x in db1.steps && db1.steps[x].flow == db.steps[x].flow
    requires Nested(db1.steps) && LineageDown(db1.steps) && t in db1.steps && db1.steps[t].flow == db.steps[x].flow
    ensures Carries(db, Resolve(db1, t, x, inherit, exitTask), x, inherit)
  {
    var c := db1.steps[t];
    if c.size > 0 && c.arrivals >= c.size && !FlowDone(db, db.steps[x].flow) {
      if c.failures == 0 {
        FanInCarries(db, db1, t, x, inherit, exitTask);
      } else {
        LossCarries(db, db1, x, inherit, t, c.cancellations == c.failures);
      }
    }
  }

  lemma ArriveCarries(db: Db, x: nat, inherit: bool, exitTask: bool)
    requires WellShaped(db) && LineageDown(db.steps) && Unmoved(db, x) && db.steps[x].lineage != 0
    ensures Carries(db, Arrive(db, x, inherit, exitTask), x, inherit)
  {
    var t := db.steps[x].lineage;
    assert StepShape(db.steps, x);
    ArrivedCarries(db, x, inherit);
    ArrivedShape(db, x);
    NestedFromShape(Arrived(db.steps, x, t));
    ResolveCarries(db, db.(steps := Arrived(db.steps, x, t)), t, x, inherit, exitTask);
  }

  lemma FailingCarries(db: Db, x: nat, cancelled: bool, inherit: bool)
    requires Ids(db) && x in db.steps
    ensures Carries(db, Failing(db, x, cancelled), x, inherit)
  {
  }

  lemma FailCarries(db: Db, x: nat, g: nat, cancelled: bool, inherit: bool)
    requires WellShaped(db) && LineageDown(db.steps) && HoldMatches(db, x, g) && !db.steps[x].settled
    ensures Carries(db, Fail(db, x, g, cancelled), x, inherit)
  {
    FailingCarries(db, x, cancelled, inherit);
    FailingShape(db, x, cancelled);
    NestedFromShape(Failing(db, x, cancelled).steps);
    LossCarries(db, Failing(db, x, cancelled), x, inherit, x, cancelled);
  }
}
