/**
 The actions that move a token - transitions, failures, completions - and the creation of a flow: each keeps
 every part of the invariant and leaves the books of a flow it ends closed.
 */
module Commits {
  import opened Rows
  import opened Transactions
  import opened Shape
  import opened Ledger
  import opened Accounting
  import opened Shaping
  import opened Machine
  import opened Leases
  import opened Cancel
  import opened Carrying
  import opened Quiet

  /** A dispatch at its transition holds a step that is done and has not moved, in a cohort still waiting. */
  lemma Movable(w: World, x: nat, g: nat)
    requires Inv(w) && Transits(w, x, g)
    ensures LineageDown(w.db.steps) && Own(w.db, x, g) && Unmoved(w.db, x) && w.db.steps[x].flow in w.db.flows
    ensures !FlowDone(w.db, w.db.steps[x].flow) ==>
              && CanMove(w.db, w.db.steps[x].flow, x) && MayMove(w.db, x)
              && Inherit(w, x, g) == !w.db.steps[x].cancelling
  {
    assert JobOk(w, x, g);
    NestedFromShape(w.db.steps);
    if !FlowDone(w.db, w.db.steps[x].flow) { TakesPart(w.db, x); }
  }

  /** A done, unmoved step of a running flow takes part in its ledger. */
  lemma TakesPart(db: Db, x: nat)
    requires WellShaped(db) && FlowsSound(db) && Unmoved(db, x) && db.steps[x].status.Completed?
    requires !FlowDone(db, db.steps[x].flow)
    ensures CanMove(db, db.steps[x].flow, x) && MayMove(db, x)
  {
    var f, t := db.steps[x].flow, db.steps[x].lineage;
    RunningReady(db, f);
    NotMoved(db, x);
    if t != 0 {
      CohortOf(db.steps, f, x, t);
      assert StepShape(db.steps, t);
    }
  }

  lemma RunningReady(db: Db, f: nat)
    requires WellShaped(db) && FlowsSound(db) && !FlowDone(db, f)
    ensures FreshIds(db) && Ready(db.steps, f) && SpawnsDone(db.steps, f)
  {
    NestedFromShape(db.steps);
    assert Sound(db, f);
    OwnRows(db.steps);
    SpawnsAreDone(db.steps, f);
  }

  /** Above an unresolved cohort every cohort is unresolved, so none has converged. */
  lemma UnconvergedAbove(db: Db, x: nat)
    requires WellShaped(db) && FlowsSound(db) && Unmoved(db, x) && db.steps[x].status.Completed?
    requires !FlowDone(db, db.steps[x].flow) && db.steps[x].lineage != 0
    ensures db.steps[x].lineage in db.steps
    ensures var u := db.steps[db.steps[x].lineage].lineage; u in db.steps ==> db.steps[u].next == 0
  {
    var f, t := db.steps[x].flow, db.steps[x].lineage;
    TakesPart(db, x);
    CohortOf(db.steps, f, x, t);
    var u := db.steps[t].lineage;
    assert StepShape(db.steps, t);
    if u in db.steps {
      assert u != 0;
      assert StepShape(db.steps, u);
      assert Books(db.steps, f, u, 0, false);
      assert t in Tokens(db.steps, f, u) by { assert InCohort(db.steps[t], f, u); }
    }
  }

  // ----- Leaving with a transition or a loss

  /** Flows that stopped between db and db' by their own doing have closed books. */
  ghost predicate EndsAccounted(db: Db, db': Db) {
    forall f {:trigger f in db'.flows} :: f in db.flows && f in db'.flows && !db.flows[f].status.Terminal() ==> Accounted(db', f)
  }

  /** Stopped flows stay as they are, and gain no step; a removed flow's id is not used again. */
  ghost predicate Absorbs(db: Db, db': Db) {
    && DoneStays(db, db') && db'.nextStep >= db.nextStep && db'.nextFlow >= db.nextFlow
    && (forall f {:trigger f in db'.flows} :: f in db'.flows ==> f in db.flows || f >= db.nextFlow)
    && (forall y {:trigger y in db'.steps} :: y in db'.steps ==>
          if y in db.steps then db'.steps[y].flow == db.steps[y].flow
          else y >= db.nextStep && (db'.steps[y].flow in db.flows ==> !FlowDone(db, db'.steps[y].flow)))
  }

  lemma CarriedAbsorbs(db: Db, db': Db, x: nat, inherit: bool)
    requires Carries(db, db', x, inherit)
    ensures Absorbs(db, db')
  {
    forall y | y in db'.steps && y in db.steps ensures db'.steps[y].flow == db.steps[y].flow {
      assert if y == x then OwnRow(db.steps[y], db'.steps[y]) else CarriedRow(db.steps[y], db'.steps[y]);
    }
  }

  /** What a transaction on x has to show: its reach, the shape, and the books of x's own flow. */
  ghost predicate Booked(db: Db, db': Db, x: nat, inherit: bool) {
    && Carries(db, db', x, inherit) && WellShaped(db')
    && (!FlowDone(db, db.steps[x].flow) ==>
          Accounted(db', db.steps[x].flow)
          && (x in db'.steps ==> db'.steps[x].Passed()))
  }

  lemma BookedSound(db: Db, db': Db, x: nat, inherit: bool)
    requires FlowsSound(db) && Booked(db, db', x, inherit)
    ensures FlowsSound(db') && EndsAccounted(db, db')
  {
    forall f | f in db'.flows && !db.flows[f].status.Terminal()
      ensures Accounted(db', f) && (!db'.flows[f].status.Terminal() ==> Sound(db', f))
    {
      assert Sound(db, f);
      if f != db.steps[x].flow {
        CarriedBystander(db, db', x, inherit, f);
        assert db'.flows[f] == db.flows[f];
      } else {
        forall y | y in db'.steps && db'.steps[y].flow == f ensures db'.steps[y].Passed()
        {
          if y in db.steps && y != x { assert CarriedRow(db.steps[y], db'.steps[y]); }
        }
      }
    }
    forall f | f in db'.flows && !db'.flows[f].status.Terminal() ensures Sound(db', f) {
      assert !db.flows[f].status.Terminal();
    }
  }

  lemma CommitInv(w: World, x: nat, g: nat, db': Db, inherit: bool)
    requires Inv(w) && (x, g) in w.jobs && Own(w.db, x, g) && Booked(w.db, db', x, inherit)
    requires FlowDone(w.db, w.db.steps[x].flow) || inherit == !w.db.steps[x].cancelling
    ensures Inv(World(db', w.jobs - {(x, g)}, w.log + [(x, g)]))
    ensures EndsAccounted(w.db, db') && Absorbs(w.db, db')
  {
    BookedSound(w.db, db', x, inherit);
    CarriedMarks(w.db, db', x, inherit);
    CarriedLeases(w.db, db', x, g, inherit);
    CarriedAbsorbs(w.db, db', x, inherit);
    assert x in db'.steps && OwnRow(w.db.steps[x], db'.steps[x]);
    OwnerCommits(w, x, g, db');
  }

  /** A transition into a stopped flow does nothing: the dispatch leaves. */
  lemma NothingDone(w: World, x: nat, g: nat)
    requires Inv(w) && (x, g) in w.jobs
    ensures Inv(Leave(w, x, g, w.db)) && EndsAccounted(w.db, w.db) && Absorbs(w.db, w.db)
  {
    NoWrite(w, x, g);
    LeaveInv(w, x, g, w.db);
    InOrderAccounted(w.db, w.db);
  }

  /** A write that ends no flow on its own account. */
  lemma InOrderAccounted(db: Db, db': Db)
    requires FlowsSound(db')
    requires forall f :: f in db.flows && f in db'.flows && !db.flows[f].status.Terminal() && db'.flows[f].status.Terminal()
                         ==> db'.flows[f].status.Terminated?
    ensures EndsAccounted(db, db')
  {
    forall f | f in db.flows && f in db'.flows && !db.flows[f].status.Terminal() ensures Accounted(db', f) {
      if !db'.flows[f].status.Terminal() { assert Sound(db', f); }
    }
  }

  // ----- The transactions

  lemma NextBooked(db: Db, f: nat, x: nat, inherit: bool, exitTask: bool)
    requires WellShaped(db) && CanMove(db, f, x) && MayMove(db, x)
    ensures Booked(db, Next(db, x, inherit, exitTask), x, inherit)
  {
    NextCarries(db, x, inherit, exitTask);
    NextShape(db, x, inherit, exitTask);
    NextInOrder(db, f, x, inherit, exitTask);
  }

  lemma DirectBooked(db: Db, f: nat, x: nat, inherit: bool, exitTask: bool)
    requires WellShaped(db) && CanMove(db, f, x) && MayMove(db, x)
    ensures Booked(db, Direct(db, x, inherit, exitTask), x, inherit)
  {
    DirectCarries(db, x, inherit, exitTask);
    DirectShape(db, x, inherit, exitTask);
    DirectInOrder(db, f, x, inherit, exitTask);
  }

  lemma PushBooked(db: Db, f: nat, x: nat, inherit: bool, tasks: seq<bool>, direct: nat, exitTask: bool)
    requires WellShaped(db) && CanMove(db, f, x) && MayMove(db, x) && (|tasks| > 0 || direct > 0)
    ensures Booked(db, Push(db, x, inherit, tasks, direct, exitTask), x, inherit)
  {
    if |tasks| > 0 {
      PushCarries(db, f, x, inherit, tasks, direct, exitTask);
      PushShape(db, x, inherit, tasks, direct, exitTask);
      PushInOrder(db, f, x, inherit, tasks, direct, exitTask);
      PushRows(db, f, x, inherit, tasks, direct, exitTask);
    } else {
      assert tasks == [];
      PushOnlyDirect(db, f, x, inherit, direct, exitTask);
    }
  }

  lemma PushOnlyDirect(db: Db, f: nat, x: nat, inherit: bool, direct: nat, exitTask: bool)
    requires WellShaped(db) && CanMove(db, f, x) && MayMove(db, x) && direct > 0
    ensures Booked(db, Push(db, x, inherit, [], direct, exitTask), x, inherit)
  {
    NoMembers(db, x);
    assert db.steps[x].lineage < x;
    var row := PushedFanIn(db, f, x, inherit, direct, exitTask);
    PushDirectCarries(db, f, x, inherit, direct, exitTask);
    PushDirectShape(db, x, inherit, direct, exitTask);
    PushDirectInOrder(db, f, x, inherit, direct, exitTask);
  }

  lemma FinishBooked(db: Db, f: nat, x: nat, inherit: bool)
    requires WellShaped(db) && CanMove(db, f, x) && db.steps[x].lineage == 0
    ensures Booked(db, Finish(db, x), x, inherit)
  {
    assert StepShape(db.steps, x);
    FinishCarries(db, x, inherit);
    var db1 := db.(steps := db.steps[x := ArrivedRow(db.steps[x])]);
    RowShape(db, x, ArrivedRow(db.steps[x]));
    assert Finish(db, x) == db1.(flows := db.flows[f := db.flows[f].(status := Completed)]);
    FinishAccounts(db, f, x);
  }

  lemma ArriveBooked(db: Db, x: nat, inherit: bool, exitTask: bool)
    requires WellShaped(db) && FlowsSound(db) && LineageDown(db.steps) && Unmoved(db, x) && db.steps[x].lineage != 0
    requires !FlowDone(db, db.steps[x].flow) ==> CanMove(db, db.steps[x].flow, x) && MayMove(db, x)
    ensures Booked(db, Arrive(db, x, inherit, exitTask), x, inherit)
  {
    var f := db.steps[x].flow;
    ArriveCarries(db, x, inherit, exitTask);
    if !FlowDone(db, f) {
      UnconvergedAbove(db, x);
      ArriveAccounts(db, f, x, inherit, exitTask);
      ArriveKeepsStatus(db, x, inherit, exitTask);
    }
    ArriveShape(db, x, inherit, exitTask);
  }

  /** Handing over a loss writes counters only, in x's row too. */
  lemma LossKeepsRow(db: Db, y: nat, soft: bool, x: nat)
    requires Nested(db.steps) && LineageDown(db.steps) && x in db.steps && y in db.steps
    ensures x in Lose(db, y, soft).steps && CarriedRow(db.steps[x], Lose(db, y, soft).steps[x])
  {
    var r := db.steps[y];
    if r.lineage != 0 {
      assert r.lineage in db.steps;
      PropagateCounts(db.steps, r.flow, r.lineage, soft);
    }
  }

  lemma ResolveKeepsRow(db: Db, t: nat, x: nat, inherit: bool, exitTask: bool)
    requires Nested(db.steps) && LineageDown(db.steps) && t in db.steps && x in db.steps && db.nextStep !in db.steps
    ensures x in Resolve(db, t, x, inherit, exitTask).steps
    ensures CarriedRow(db.steps[x], Resolve(db, t, x, inherit, exitTask).steps[x])
  {
    var c := db.steps[t];
    if c.size > 0 && c.arrivals >= c.size && !FlowDone(db, db.steps[x].flow) {
      if c.failures == 0 {
        LinksCarried(db, t, x);
      } else {
        LossKeepsRow(db, t, c.cancellations == c.failures, x);
      }
    }
  }

  lemma ArriveKeepsStatus(db: Db, x: nat, inherit: bool, exitTask: bool)
    requires WellShaped(db) && LineageDown(db.steps) && Unmoved(db, x) && db.steps[x].lineage != 0
    ensures x in Arrive(db, x, inherit, exitTask).steps
            && Arrive(db, x, inherit, exitTask).steps[x].status == db.steps[x].status
            && Arrive(db, x, inherit, exitTask).steps[x].settled
  {
    assert StepShape(db.steps, x);
    ArrivedShape(db, x);
    var db1 := db.(steps := Arrived(db.steps, x, db.steps[x].lineage));
    NestedFromShape(db1.steps);
    ResolveKeepsRow(db1, db.steps[x].lineage, x, inherit, exitTask);
  }

  lemma FailBooked(db: Db, x: nat, g: nat, cancelled: bool, inherit: bool)
    requires WellShaped(db) && LineageDown(db.steps) && HoldMatches(db, x, g) && !db.steps[x].settled
    requires !FlowDone(db, db.steps[x].flow) ==> CanFail(db, db.steps[x].flow, x)
    ensures Booked(db, Fail(db, x, g, cancelled), x, inherit)
  {
    assert StepShape(db.steps, x);
    FailCarries(db, x, g, cancelled, inherit);
    FailShape(db, x, g, cancelled);
    FailUnsettled(db, x, g, cancelled);
    if !FlowDone(db, db.steps[x].flow) { FailAccounts(db, db.steps[x].flow, x, g, cancelled); }
  }

  lemma FailUnsettled(db: Db, x: nat, g: nat, cancelled: bool)
    requires WellShaped(db) && LineageDown(db.steps) && HoldMatches(db, x, g) && !db.steps[x].settled
    ensures x in Fail(db, x, g, cancelled).steps && !Fail(db, x, g, cancelled).steps[x].settled
            && Fail(db, x, g, cancelled).steps[x].Faulted()
  {
    FailingShape(db, x, cancelled);
    NestedFromShape(Failing(db, x, cancelled).steps);
    LossKeepsRow(Failing(db, x, cancelled), x, cancelled, x);
  }
}
