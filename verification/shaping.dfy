/** Every transaction keeps the tables well-shaped. */
module Shaping {
  import opened Rows
  import opened Transactions
  import opened Shape
  import opened Ledger
  import opened Accounting

  /** Step x is done with its task and has not moved on. */
  ghost predicate Unmoved(db: Db, x: nat) {
    x in db.steps && !db.steps[x].status.Open() && !db.steps[x].settled
  }

  /** Step x may move on: its cohort has not converged. */
  ghost predicate MayMove(db: Db, x: nat) {
    Unmoved(db, x) && db.steps[x].status.Completed?
    && (db.steps[x].lineage != 0 && db.steps[x].lineage in db.steps ==> db.steps[db.steps[x].lineage].next == 0)
  }

  lemma NotMoved(db: Db, x: nat)
    requires WellShaped(db) && Unmoved(db, x)
    ensures !db.steps[x].spawned && db.steps[x].next == 0 && x != 0 && StepShape(db.steps, x)
    ensures db.steps[x].arrivals == 0 && db.steps[x].failures == 0 && db.steps[x].cancellations == 0
  {
    assert StepShape(db.steps, x);
  }

  lemma NestedFromShape(steps: map<nat, Step>)
    requires 0 !in steps && Shaped(steps)
    ensures Nested(steps) && LineageDown(steps)
  {
    forall y | y in steps
      ensures steps[y].lineage < y
      ensures steps[y].lineage != 0 ==> steps[y].lineage in steps && steps[steps[y].lineage].flow == steps[y].flow
                                        && steps[steps[y].lineage].spawned
    {
      assert StepShape(steps, y);
    }
  }

  lemma OwnRows(steps: map<nat, Step>)
    requires Shaped(steps)
    ensures forall y :: y in steps ==> OwnOk(steps[y])
  {
    forall y | y in steps ensures OwnOk(steps[y]) { assert StepShape(steps, y); }
  }

  /** Status and counter writes, alone or in bulk, and removal of whole flows. */
  lemma QuietShape(db: Db, db': Db)
    requires WellShaped(db) && BonesKept(db.steps, db'.steps) && WholeFlows(db.steps, db'.steps)
    requires forall y <- db'.steps :: OwnOk(db'.steps[y]) && db'.steps[y].flow in db'.flows
    requires forall f <- db'.flows :: f in db.flows
    requires db'.nextStep == db.nextStep && db'.nextFlow == db.nextFlow
    ensures WellShaped(db')
  {
    ShapeKept(db.steps, db'.steps);
  }

  /** The new row and the rewritten one of a step that goes on to a single successor. */
  lemma GrowOne(steps: map<nat, Step>, x: nat, y: nat, q: Step, row: Step)
    requires x in steps && y !in steps && !steps[x].spawned && GrownRow(steps[x], q) && OwnOk(q)
    requires forall z <- steps :: OwnOk(steps[z]) && steps[z].lineage != x && steps[z].lineage < z
    requires q.settled && q.next == y && q.succ == y && q.exitTask == steps[x].exitTask
    requires SameBranch(row, steps[x]) && row.pred == x && row.ordinal == q.ordinal && steps[x].depth < row.depth
    requires row.next == 0 && row.succ == 0 && !row.spawned && OwnOk(row)
    requires steps[x].lineage != 0 && steps[x].lineage in steps ==> steps[steps[x].lineage].next == 0
    ensures Grown(steps, steps[x := q][y := row], x, x, y)
  {
    var steps' := steps[x := q][y := row];
    forall z | z in steps
      ensures OwnOk(steps'[z]) && GrownRow(steps[z], steps'[z]) && LinkRule(steps[z], steps'[z], x, y)
    {
    }
  }

  lemma NextShape(db: Db, x: nat, inherit: bool, exitTask: bool)
    requires WellShaped(db) && MayMove(db, x)
    ensures WellShaped(Next(db, x, inherit, exitTask))
  {
    if !FlowDone(db, db.steps[x].flow) {
      var db' := Next(db, x, inherit, exitTask);
      NotMoved(db, x);
      OwnRows(db.steps);
      MembersOf(db, x);
      NestedFromShape(db.steps);
      GrowOne(db.steps, x, db.nextStep, db'.steps[x], db'.steps[db.nextStep]);
      ShapeGrown(db.steps, db'.steps, x, x, db.nextStep);
    }
  }

  lemma MembersOf(db: Db, x: nat)
    requires WellShaped(db) && x in db.steps && !db.steps[x].spawned
    ensures forall z <- db.steps :: db.steps[z].lineage != x
  {
    NoMembersYet(db.steps, x);
  }

  lemma DirectShape(db: Db, x: nat, inherit: bool, exitTask: bool)
    requires WellShaped(db) && MayMove(db, x)
    ensures WellShaped(Direct(db, x, inherit, exitTask))
  {
    if !FlowDone(db, db.steps[x].flow) {
      var db' := Direct(db, x, inherit, exitTask);
      NotMoved(db, x);
      OwnRows(db.steps);
      MembersOf(db, x);
      NestedFromShape(db.steps);
      GrowOne(db.steps, x, db.nextStep, db'.steps[x], db'.steps[db.nextStep]);
      ShapeGrown(db.steps, db'.steps, x, x, db.nextStep);
    }
  }

  lemma PushSpawns(db: Db, x: nat, inherit: bool, tasks: seq<bool>, direct: nat)
    requires x in db.steps && db.steps[x].flow in db.flows && db.nextStep > 0
    requires forall y <- db.steps :: y < db.nextStep
    requires !db.steps[x].spawned && db.steps[x].next == 0 && OwnOk(db.steps[x]) && db.steps[x].status.Completed?
    ensures Spawned(db.steps,
                    db.steps[x := PushedRow(db, x, |tasks|, direct)] + Branches(db, x, inherit, tasks, |tasks|),
                    x, db.nextStep, |tasks|)
  {
    var rows := Branches(db, x, inherit, tasks, |tasks|);
    var q := PushedRow(db, x, |tasks|, direct);
    assert OwnOk(q) && GrownRow(db.steps[x].(spawned := true), q);
    forall z | db.nextStep <= z < db.nextStep + |tasks|
      ensures z in rows && BranchHead(rows[z], db.steps[x], x, z, z - db.nextStep)
    {
    }
  }

  lemma PushShape(db: Db, x: nat, inherit: bool, tasks: seq<bool>, direct: nat, exitTask: bool)
    requires WellShaped(db) && MayMove(db, x) && |tasks| > 0
    ensures WellShaped(Push(db, x, inherit, tasks, direct, exitTask))
  {
    var f := db.steps[x].flow;
    if !FlowDone(db, f) {
      NotMoved(db, x);
      PushRows(db, f, x, inherit, tasks, direct, exitTask);
      PushSpawns(db, x, inherit, tasks, direct);
      ShapeSpawned(db.steps, Push(db, x, inherit, tasks, direct, exitTask).steps, x, db.nextStep, |tasks|);
      PushIds(db, x, inherit, tasks, direct);
    }
  }

  lemma PushIds(db: Db, x: nat, inherit: bool, tasks: seq<bool>, direct: nat)
    requires Ids(db) && x in db.steps
    ensures Ids(db.(steps := db.steps[x := PushedRow(db, x, |tasks|, direct)]
                             + Branches(db, x, inherit, tasks, |tasks|),
                    nextStep := db.nextStep + |tasks|))
  {
    var rows := Branches(db, x, inherit, tasks, |tasks|);
    assert forall y <- rows :: rows[y].flow == db.steps[x].flow;
  }

  /** The cohort of t has resolved, its branch can grow, and x is the step the fan-in follows. */
  ghost predicate MayConverge(db: Db, t: nat, x: nat) {
    && t in db.steps && x in db.steps && db.steps[x].flow in db.flows
    && db.steps[t].spawned && db.steps[t].next == 0 && db.steps[t].arrivals >= db.steps[t].size
    && (x == t || db.steps[x].lineage == t) && db.steps[x].settled
    && (db.steps[t].lineage in db.steps ==> db.steps[db.steps[t].lineage].next == 0)
  }

  /** The fan-in step itself. */
  lemma FanInRow(db: Db, t: nat, x: nat, inherit: bool, exitTask: bool) returns (r: Step)
    requires t in db.steps && x in db.steps && db.steps[x].flow in db.flows
    ensures InsertFanIn(db, t, x, inherit, exitTask).steps == LinkedRows(db, t)[db.nextStep := r]
    ensures SameBranch(r, db.steps[t]) && r.pred == x && r.ordinal == db.steps[t].ordinal
    ensures db.steps[x].depth < r.depth && r.next == 0 && r.succ == 0 && !r.spawned && OwnOk(r)
    ensures r.status.Pending? && !r.parked && r.leaseSeq == 0 && !r.settled && !r.cancelling == !InheritedMark(db, x, inherit)
  {
    r := InsertFanIn(db, t, x, inherit, exitTask).steps[db.nextStep];
  }

  lemma LinkedGrows(db: Db, t: nat)
    requires WellShaped(db) && t in db.steps && db.steps[t].next == 0
    requires db.steps[t].spawned && db.steps[t].arrivals >= db.steps[t].size
    ensures var m := LinkedRows(db, t);
            forall z <- db.steps :: OwnOk(m[z]) && GrownRow(db.steps[z], m[z]) && m[z].settled == db.steps[z].settled
                                    && (z != t ==> m[z].next == db.steps[z].next)
                                    && LinkRule(db.steps[z], m[z], t, db.nextStep)
  {
    FanInLinkRules(db, t);
  }

  lemma FanInGrows(db: Db, t: nat, x: nat, inherit: bool, exitTask: bool)
    requires WellShaped(db) && MayConverge(db, t, x)
    ensures Grown(db.steps, InsertFanIn(db, t, x, inherit, exitTask).steps, t, x, db.nextStep)
  {
    var r := FanInRow(db, t, x, inherit, exitTask);
    assert StepShape(db.steps, t);
    assert StepShape(db.steps, x);
    LinkedGrows(db, t);
    GrownBy(db.steps, LinkedRows(db, t), t, x, db.nextStep, r);
  }

  /** Growth, from the rewritten rows and the new one. */
  lemma GrownBy(steps: map<nat, Step>, m: map<nat, Step>, c: nat, p: nat, y: nat, r: Step)
    requires c in steps && p in steps && y !in steps && m.Keys == steps.Keys && (p == c || steps[p].lineage == c)
    requires forall z <- steps :: OwnOk(m[z]) && GrownRow(steps[z], m[z]) && LinkRule(steps[z], m[z], c, y)
    requires forall z <- steps | z != c :: m[z].next == steps[z].next
    requires m[c].next == y && m[c].settled && m[p].settled
    requires SameBranch(r, steps[c]) && r.pred == p && r.ordinal == steps[c].ordinal
    requires steps[c].depth < r.depth && r.next == 0 && r.succ == 0 && !r.spawned && OwnOk(r)
    requires steps[c].lineage != 0 && steps[c].lineage in steps ==> steps[steps[c].lineage].next == 0
    ensures Grown(steps, m[y := r], c, p, y)
  {
    var steps' := m[y := r];
    assert steps'.Keys == steps.Keys + {y};
    assert forall z <- steps :: steps'[z] == m[z];
  }

  /** A fan-in transaction grows the branch of the spawn t, after the member (or the spawn itself) x. */
  lemma FanInShape(db: Db, t: nat, x: nat, inherit: bool, exitTask: bool)
    requires WellShaped(db) && MayConverge(db, t, x)
    ensures WellShaped(InsertFanIn(db, t, x, inherit, exitTask))
  {
    FanInGrows(db, t, x, inherit, exitTask);
    ShapeGrown(db.steps, InsertFanIn(db, t, x, inherit, exitTask).steps, t, x, db.nextStep);
    FanInIds(db, t, x, inherit, exitTask);
  }

  lemma FanInIds(db: Db, t: nat, x: nat, inherit: bool, exitTask: bool)
    requires Ids(db) && t in db.steps && x in db.steps && db.steps[x].flow in db.flows
    ensures Ids(InsertFanIn(db, t, x, inherit, exitTask))
  {
    var linked := LinkedRows(db, t);
    assert forall z <- linked :: linked[z].flow == db.steps[z].flow;
  }

  lemma FanInLinkRules(db: Db, t: nat)
    requires WellShaped(db) && t in db.steps && db.steps[t].next == 0
    requires db.steps[t].spawned && db.steps[t].arrivals >= db.steps[t].size
    ensures forall z <- db.steps :: LinkRule(db.steps[z], LinkedRows(db, t)[z], t, db.nextStep)
                                    && OwnOk(LinkedRows(db, t)[z])
  {
    forall z | z in db.steps
      ensures LinkRule(db.steps[z], LinkedRows(db, t)[z], t, db.nextStep) && OwnOk(LinkedRows(db, t)[z])
    {
      assert StepShape(db.steps, z);
      assert StepShape(db.steps, t);
      if db.steps[z].succ != 0 { assert StepShape(db.steps, db.steps[z].succ); }
    }
  }

  lemma PushDirectShape(db: Db, x: nat, inherit: bool, direct: nat, exitTask: bool)
    requires WellShaped(db) && MayMove(db, x) && direct > 0
    ensures WellShaped(Push(db, x, inherit, [], direct, exitTask))
  {
    var f := db.steps[x].flow;
    if !FlowDone(db, f) {
      NotMoved(db, x);
      PushConverges(db, x, inherit, direct, exitTask);
      ResolvedSpawnShape(db, x, direct);
      FanInShape(db.(steps := db.steps[x := PushedRow(db, x, 0, direct)]), x, x, inherit, exitTask);
    }
  }

  /** A spawn all of whose edges led straight to the fan-in. */
  lemma ResolvedSpawnShape(db: Db, x: nat, direct: nat)
    requires WellShaped(db) && MayMove(db, x)
    ensures WellShaped(db.(steps := db.steps[x := PushedRow(db, x, 0, direct)]))
  {
    NotMoved(db, x);
    ShapeSpawned(db.steps, db.steps[x := PushedRow(db, x, 0, direct)], x, db.nextStep, 0);
  }

  // ----- Counting writes

  lemma CountedShape(db: Db, steps': map<nat, Step>, f: nat)
    requires WellShaped(db) && OnlyCounted(db.steps, steps', f)
    requires forall y <- db.steps :: steps'[y].arrivals >= db.steps[y].arrivals
    ensures WellShaped(db.(steps := steps'))
  {
    OwnRows(db.steps);
    forall y | y in steps' ensures OwnOk(steps'[y]) && SameBones(steps'[y], db.steps[y]) {
      assert CountersOnly(db.steps[y], steps'[y]);
      assert OwnOk(db.steps[y]);
      if !db.steps[y].spawned { assert steps'[y] == db.steps[y]; }
    }
    QuietShape(db, db.(steps := steps'));
  }

  lemma {:induction false} PropagateGrows(steps: map<nat, Step>, cur: nat, soft: bool)
    requires LineageDown(steps) && cur in steps
    ensures var steps' := Propagate(steps, cur, soft).0;
            steps'.Keys == steps.Keys && forall y <- steps :: steps'[y].arrivals >= steps[y].arrivals
    decreases cur
  {
    var b := Bump(steps[cur], soft);
    if b.arrivals >= b.size && b.lineage != 0 {
      PropagateGrows(steps[cur := b], b.lineage, b.cancellations == b.failures);
    }
  }

  lemma PropagateShape(db: Db, cur: nat, soft: bool)
    requires WellShaped(db) && cur in db.steps && db.steps[cur].spawned && LineageDown(db.steps)
    ensures WellShaped(db.(steps := Propagate(db.steps, cur, soft).0))
  {
    NestedFromShape(db.steps);
    PropagateCounts(db.steps, db.steps[cur].flow, cur, soft);
    PropagateGrows(db.steps, cur, soft);
    CountedShape(db, Propagate(db.steps, cur, soft).0, db.steps[cur].flow);
  }

  lemma LoseShape(db: Db, f: nat, c: bool)
    requires WellShaped(db)
    ensures WellShaped(LoseFlow(db, f, c))
  {
  }

  lemma SettleShape(db: Db, f: nat, cur: nat, soft: bool)
    requires WellShaped(db) && cur in db.steps && db.steps[cur].spawned && LineageDown(db.steps)
    ensures WellShaped(SettleLoss(db, f, Propagate(db.steps, cur, soft)))
  {
    var p := Propagate(db.steps, cur, soft);
    PropagateShape(db, cur, soft);
    if p.1.FlowLost? { LoseShape(db.(steps := p.0), f, p.1.cancelled); }
  }

  /** A write to one row that keeps its graph columns. */
  lemma RowShape(db: Db, x: nat, q: Step)
    requires WellShaped(db) && x in db.steps && SameBones(q, db.steps[x]) && OwnOk(q)
    ensures WellShaped(db.(steps := db.steps[x := q]))
  {
    OwnRows(db.steps);
    QuietShape(db, db.(steps := db.steps[x := q]));
  }

  lemma LossShape(db: Db, y: nat, soft: bool)
    requires WellShaped(db) && LineageDown(db.steps) && y in db.steps
    ensures WellShaped(Lose(db, y, soft))
  {
    assert StepShape(db.steps, y);
    if db.steps[y].lineage == 0 {
      LoseShape(db, db.steps[y].flow, soft);
    } else {
      SettleShape(db, db.steps[y].flow, db.steps[y].lineage, soft);
    }
  }

  lemma FailingShape(db: Db, x: nat, cancelled: bool)
    requires WellShaped(db) && x in db.steps && !db.steps[x].settled
    ensures WellShaped(Failing(db, x, cancelled))
  {
    assert StepShape(db.steps, x);
    RowShape(db, x, FailedRow(db.steps[x], cancelled));
  }

  lemma FailShape(db: Db, x: nat, g: nat, cancelled: bool)
    requires WellShaped(db) && LineageDown(db.steps) && (HoldMatches(db, x, g) ==> !db.steps[x].settled)
    ensures WellShaped(Fail(db, x, g, cancelled))
  {
    if HoldMatches(db, x, g) {
      FailingShape(db, x, cancelled);
      NestedFromShape(Failing(db, x, cancelled).steps);
      LossShape(Failing(db, x, cancelled), x, cancelled);
    }
  }

  lemma ArrivedShape(db: Db, x: nat)
    requires WellShaped(db) && Unmoved(db, x) && db.steps[x].lineage != 0
    ensures db.steps[x].lineage in db.steps && db.steps[x].lineage != x
    ensures WellShaped(db.(steps := Arrived(db.steps, x, db.steps[x].lineage)))
  {
    var t := db.steps[x].lineage;
    NotMoved(db, x);
    assert StepShape(db.steps, t);
    var q := ArrivedRow(db.steps[x]);
    RowShape(db, x, q);
    RowShape(db.(steps := db.steps[x := q]), t, CountedRow(db.steps[t]));
  }

  lemma ArrivedMayConverge(db: Db, x: nat)
    requires WellShaped(db) && MayMove(db, x) && db.steps[x].lineage in db.steps
    requires var c := CountedRow(db.steps[db.steps[x].lineage]); c.arrivals >= c.size && !FlowDone(db, db.steps[x].flow)
    requires var u := db.steps[db.steps[x].lineage].lineage; u in db.steps ==> db.steps[u].next == 0
    ensures MayConverge(db.(steps := Arrived(db.steps, x, db.steps[x].lineage)), db.steps[x].lineage, x)
  {
    var t := db.steps[x].lineage;
    NotMoved(db, x);
    assert StepShape(db.steps, t);
    var steps1 := Arrived(db.steps, x, t);
    assert steps1[t].lineage == db.steps[t].lineage;
  }

  lemma ArriveShape(db: Db, x: nat, inherit: bool, exitTask: bool)
    requires WellShaped(db) && LineageDown(db.steps) && Unmoved(db, x) && db.steps[x].lineage != 0
    requires !FlowDone(db, db.steps[x].flow) && db.steps[x].lineage in db.steps ==>
               && MayMove(db, x)
               && var u := db.steps[db.steps[x].lineage].lineage; u in db.steps ==> db.steps[u].next == 0
    ensures WellShaped(Arrive(db, x, inherit, exitTask))
  {
    var t := db.steps[x].lineage;
    ArrivedShape(db, x);
    NotMoved(db, x);
    var db1 := db.(steps := Arrived(db.steps, x, t));
    var c := db1.steps[t];
    NestedFromShape(db1.steps);
    if c.size > 0 && c.arrivals >= c.size && !FlowDone(db, db.steps[x].flow) {
      if c.failures == 0 {
        ArrivedMayConverge(db, x);
        FanInShape(db1, t, x, inherit, exitTask);
      } else {
        LossShape(db1, t, c.cancellations == c.failures);
      }
    }
  }

  /** A new row beside a step changes nothing about its shape. */
  lemma StepBeside(steps: map<nat, Step>, y: nat, q: Step, z: nat)
    requires Shaped(steps) && y !in steps && z in steps
    ensures StepShape(steps[y := q], z)
  {
    assert StepShape(steps, z);
    if steps[z].pred != 0 { assert StepShape(steps, steps[z].pred); }
  }

  lemma CreateShape(db: Db, depth: nat, exitTask: bool)
    requires WellShaped(db)
    ensures WellShaped(Create(db, depth, exitTask))
  {
    var db' := Create(db, depth, exitTask);
    var y := db.nextStep;
    forall z | z in db'.steps ensures StepShape(db'.steps, z) {
      if z != y { StepBeside(db.steps, y, db'.steps[y], z); }
    }
    forall a, b | a in db'.steps && b in db'.steps && a < b && SameBranch(db'.steps[a], db'.steps[b])
      ensures Follows(db'.steps[a], db'.steps[b], b)
    {
      assert a != y;
      assert b != y;
      assert SameBranch(db.steps[a], db.steps[b]);
    }
    forall a, b | Siblings(db'.steps, a, b) ensures db'.steps[a].ordinal != db'.steps[b].ordinal {
      assert Siblings(db.steps, a, b);
    }
  }
}
