/** Every action but a fork hands everything on. */
module HeritageSteps {
  import opened Rows
  import opened Transactions
  import opened Shape
  import opened Ledger
  import opened Accounting
  import opened Verdict
  import opened Shaping
  import opened Reach
  import opened Recount
  import opened ForkExact
  import opened Machine
  import opened Leases
  import opened Carrying
  import opened Quiet
  import opened Commits
  import opened Runs
  import opened Heritage
  import opened HeritageQuiet
  import opened HeritageCommits
  import opened HeritageMoves
  import opened HeritageArrivals

  /** A flow that has just ended is closed; one that had been stopped from outside has not ended. */
  lemma ClosedAfter(w: World, w': World, f: nat)
    requires Good(w, w') && f in w.db.flows && !Ended(w.db, f)
    ensures ClosedNow(w'.db, f)
  {
    if Ended(w'.db, f) {
      assert f in w'.db.flows;
      assert Accounted(w'.db, f);
      BooksTell(w'.db, f);
    }
  }

  lemma MoreDirect(w: World, p: Past, f: nat)
    requires Handed(w, p)
    ensures Handed(w, p.(direct := p.direct + {f}))
  {
  }

  /** The dispatch (x, g) leaves with a transaction that is fair. */
  lemma FairHanded(w: World, w': World, x: nat, g: nat, c: nat, p: Past, p': Past)
    requires Inv(w) && LineageDown(w.db.steps) && Handed(w, p) && (x, g) in w.jobs && Own(w.db, x, g) && Good(w, w')
    requires w' == Commit(w, x, g, w'.db)
    requires Advance(w.db, w'.db, x, c) && Fair(w.db, w'.db, x, c, p, p')
    ensures Handed(w', p')
  {
    CurrentNotEnded(w, p, x, g);
    ClosedAfter(w, w', w.db.steps[x].flow);
    AdvanceHanded(w, w'.db, w'.log, x, g, c, p, p');
  }

  lemma LeaverHanded(w: World, w': World, x: nat, g: nat, p: Past)
    requires WellShaped(w.db) && Handed(w, p) && w' == Commit(w, x, g, w.db)
    ensures Handed(w', p)
  {
    NothingHanded(w, w', p);
  }

  lemma FailHanded(w: World, p: Past, x: nat, g: nat, cancelled: bool)
    requires Inv(w) && LineageDown(w.db.steps) && Handed(w, p) && (x, g) in w.jobs
    ensures Handed(Apply(w, AFail(x, g, cancelled)), p)
  {
    var w' := Apply(w, AFail(x, g, cancelled));
    FailGood(w, x, g, cancelled);
    if HoldMatches(w.db, x, g) {
      Failable(w, x, g);
      FailFair(w.db, w'.db, x, g, cancelled, p);
      FairHanded(w, w', x, g, x, p, p);
    } else {
      LeaverHanded(w, w', x, g, p);
    }
  }

  /** Whoever is at its transition moves a step of a running flow, or finds the flow stopped. */
  lemma MoverOf(w: World, x: nat, g: nat)
    requires Inv(w) && LineageDown(w.db.steps) && Transits(w, x, g) && !FlowDone(w.db, w.db.steps[x].flow)
    ensures Mover(w.db, x) && Own(w.db, x, g)
  {
    Movable(w, x, g);
  }

  lemma NextHanded(w: World, p: Past, x: nat, g: nat, e: bool)
    requires Inv(w) && LineageDown(w.db.steps) && Handed(w, p) && Enabled(w, ANext(x, g, e))
    ensures Handed(Apply(w, ANext(x, g, e)), p)
  {
    var w' := Apply(w, ANext(x, g, e));
    if FlowDone(w.db, w.db.steps[x].flow) {
      LeaverHanded(w, w', x, g, p);
    } else {
      NextGood(w, x, g, e);
      MoverOf(w, x, g);
      NextFair(w.db, x, Inherit(w, x, g), e, p);
      FairHanded(w, w', x, g, x, p, p);
    }
  }

  lemma DirectHanded(w: World, p: Past, x: nat, g: nat, e: bool)
    requires Inv(w) && LineageDown(w.db.steps) && Handed(w, p) && Enabled(w, ADirect(x, g, e))
    ensures Handed(Apply(w, ADirect(x, g, e)), p)
  {
    var w' := Apply(w, ADirect(x, g, e));
    if FlowDone(w.db, w.db.steps[x].flow) {
      LeaverHanded(w, w', x, g, p);
    } else {
      DirectGood(w, x, g, e);
      MoverOf(w, x, g);
      DirectFair(w.db, x, Inherit(w, x, g), e, p);
      FairHanded(w, w', x, g, x, p, p);
    }
  }

  lemma PushHanded(w: World, p: Past, x: nat, g: nat, tasks: seq<bool>, direct: nat, e: bool)
    requires Inv(w) && LineageDown(w.db.steps) && Handed(w, p) && Enabled(w, APush(x, g, tasks, direct, e))
    ensures Handed(Apply(w, APush(x, g, tasks, direct, e)), After(w, p, APush(x, g, tasks, direct, e)))
  {
    var a := APush(x, g, tasks, direct, e);
    var w', p' := Apply(w, a), After(w, p, a);
    if FlowDone(w.db, w.db.steps[x].flow) {
      LeaverHanded(w, w', x, g, p);
      MoreDirect(w', p, w.db.steps[x].flow);
    } else {
      PushGood(w, x, g, tasks, direct, e);
      MoverOf(w, x, g);
      if |tasks| > 0 {
        PushFair(w.db, x, Inherit(w, x, g), tasks, direct, e, p);
      } else {
        assert tasks == [];
        PushDirectFair(w.db, x, Inherit(w, x, g), direct, e, p);
      }
      FairHanded(w, w', x, g, x, p, p');
    }
  }

  lemma FinishHanded(w: World, p: Past, x: nat, g: nat)
    requires Inv(w) && LineageDown(w.db.steps) && Handed(w, p) && Enabled(w, AFinish(x, g))
    ensures Handed(Apply(w, AFinish(x, g)), p)
  {
    var w' := Apply(w, AFinish(x, g));
    if FlowDone(w.db, w.db.steps[x].flow) {
      LeaverHanded(w, w', x, g, p);
    } else {
      FinishGood(w, x, g);
      MoverOf(w, x, g);
      FinishFair(w.db, x, p);
      FairHanded(w, w', x, g, x, p, p);
    }
  }

  /** The cohort a mover arrives at waits, and has a size. */
  lemma CohortWaits(w: World, x: nat, g: nat)
    requires Inv(w) && LineageDown(w.db.steps) && Enabled(w, AArrive(x, g, true))
    ensures w.db.steps[x].lineage in w.db.steps && Unmoved(w.db, x) && Own(w.db, x, g)
    ensures !FlowDone(w.db, w.db.steps[x].flow) ==>
              w.db.steps[w.db.steps[x].lineage].size > 0 && w.db.steps[w.db.steps[x].lineage].next == 0
  {
    Movable(w, x, g);
    assert StepShape(w.db.steps, x);
    if !FlowDone(w.db, w.db.steps[x].flow) {
      CohortOf(w.db.steps, w.db.steps[x].flow, x, w.db.steps[x].lineage);
    }
  }

  lemma DoneAfter(w: World, w': World, f: nat)
    requires Good(w, w') && f in w.db.flows && FlowDone(w.db, f)
    ensures FlowDone(w'.db, f)
  {
  }

  lemma RunningBooks(w': World, f: nat)
    requires Inv(w') && !FlowDone(w'.db, f)
    ensures Nested(w'.db.steps) && Balanced(w'.db.steps, f)
  {
    NestedFromShape(w'.db.steps);
    assert Sound(w'.db, f);
  }

  lemma ArriveHanded(w: World, p: Past, x: nat, g: nat, e: bool)
    requires Inv(w) && LineageDown(w.db.steps) && Handed(w, p) && Enabled(w, AArrive(x, g, e))
    ensures Handed(Apply(w, AArrive(x, g, e)), p)
  {
    var w', f := Apply(w, AArrive(x, g, e)), w.db.steps[x].flow;
    ArriveGood(w, x, g, e);
    CohortWaits(w, x, g);
    assert JobTold(w, p.reaped, x, g);
    CurrentNotEnded(w, p, x, g);
    if Converging(w.db, x) {
      MoverOf(w, x, g);
      ConvergingFlows(w.db, x, Inherit(w, x, g), e);
      RunningBooks(w', f);
      ConvergingFair(w.db, x, Inherit(w, x, g), e, p);
      FairHanded(w, w', x, g, w.db.steps[x].lineage, p, p);
    } else {
      if FlowDone(w.db, f) { DoneAfter(w, w', f); }
      WaitFair(w.db, x, Inherit(w, x, g), e, p);
      FairHanded(w, w', x, g, x, p, p);
    }
  }

  lemma ConvergingFlows(db: Db, x: nat, inherit: bool, e: bool)
    requires LineageDown(db.steps) && x in db.steps && db.steps[x].lineage != 0 && db.steps[x].lineage != x && Converging(db, x)
    ensures Arrive(db, x, inherit, e).flows == db.flows
  {
  }

  // ----- A new flow

  lemma CreateHanded(w: World, p: Past, depth: nat, e: bool)
    requires Inv(w) && Handed(w, p)
    ensures Handed(w.(db := Create(w.db, depth, e)), p)
  {
    var db, db' := w.db, Create(w.db, depth, e);
    var w' := w.(db := db');
    forall s, z | Within(db'.steps, z, s) && s in db'.steps && db'.steps[s].next != 0 ensures !db'.steps[z].Loose() {
      CreateWithin(db, depth, e, z, s);
    }
    forall s | s in db'.steps && db'.steps[s].spawned && db'.steps[s].flow !in p.direct
      ensures |Heads(db'.steps, db'.steps.Keys, s)| == db'.steps[s].size
    {
      assert s in db.steps && s != 0;
      assert Heads(db'.steps, db'.steps.Keys, s) == Heads(db.steps, db.steps.Keys, s);
    }
    forall x, g | (x, g) in w'.jobs ensures JobTold(w', p.reaped, x, g) {
      assert JobTold(w, p.reaped, x, g) && JobOk(w, x, g);
    }
    CreateRest(db, depth, e, p);
  }

  lemma {:induction false} CreateWithin(db: Db, depth: nat, e: bool, z: nat, s: nat)
    requires WellShaped(db) && Within(Create(db, depth, e).steps, z, s)
    ensures Within(db.steps, z, s) && z in db.steps && s in db.steps && Create(db, depth, e).steps[z] == db.steps[z]
            && Create(db, depth, e).steps[s] == db.steps[s]
    decreases z
  {
    assert z in db.steps && StepShape(db.steps, z);
    var l := db.steps[z].lineage;
    if l != s { CreateWithin(db, depth, e, l, s); }
  }

  lemma CreateRest(db: Db, depth: nat, e: bool, p: Past)
    requires WellShaped(db) && Unharmed(db.steps, p.reaped) && CleanConverge(db, p.frozen) && InnerFirst(db.steps, p.frozen) && EndedClosed(db)
    ensures var db' := Create(db, depth, e);
            Unharmed(db'.steps, p.reaped) && CleanConverge(db', p.frozen) && InnerFirst(db'.steps, p.frozen) && EndedClosed(db')
  {
    var db' := Create(db, depth, e);
    forall y | y in db'.steps && Ended(db', db'.steps[y].flow)
      ensures !db'.steps[y].Live() && (db'.flows[db'.steps[y].flow].status.Completed? ==> !db'.steps[y].Loose())
    {
      assert y in db.steps;
      assert !db.steps[y].Live();
    }
    forall y | y in db'.steps && Clean(db'.steps[y]) && !FlowDone(db', db'.steps[y].flow) && db'.steps[y].flow !in p.frozen
      ensures db'.steps[y].next != 0
    {
      assert y in db.steps && Clean(db.steps[y]);
    }
    forall y | y in db.steps ensures StepShape(db.steps, y) {}
  }

  // ----- Together

  lemma CommitHanded(w: World, p: Past, a: Action)
    requires Inv(w) && LineageDown(w.db.steps) && Handed(w, p) && Enabled(w, a) && Commits?(a)
    ensures Handed(Apply(w, a), After(w, p, a))
  {
    match a
    case ANext(x, g, e) => NextHanded(w, p, x, g, e);
    case ADirect(x, g, e) => DirectHanded(w, p, x, g, e);
    case APush(x, g, tasks, direct, e) => PushHanded(w, p, x, g, tasks, direct, e);
    case AArrive(x, g, e) => ArriveHanded(w, p, x, g, e);
    case AFinish(x, g) => FinishHanded(w, p, x, g);
    case AFail(x, g, c) => FailHanded(w, p, x, g, c);
  }

  /** Every action but a fork. */
  lemma StepHanded(w: World, p: Past, a: Action)
    requires Inv(w) && LineageDown(w.db.steps) && Handed(w, p) && Enabled(w, a) && !a.AFork?
    ensures Handed(Apply(w, a), After(w, p, a))
  {
    if Commits?(a) {
      CommitHanded(w, p, a);
    } else if a.AMopUp? {
      ReapHanded(w, p, a.x, a.g);
    } else if a.ACreate? {
      CreateHanded(w, p, a.depth, a.exitTask);
    } else if OneRow?(a) {
      OneRowHanded(w, p, a);
    } else {
      ManyRowsHanded(w, p, a);
    }
  }
}
