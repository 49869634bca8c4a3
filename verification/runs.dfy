/**
 The safety of every run. Whatever the interleaving of workers, crashes, lease recoveries, sweeps and
 operations, every reachable pair of tables satisfies the invariant; what that says of tokens, verdicts, leases,
 cancellations and stopped flows is stated here for whole runs.
 */
module Runs {
  import opened Rows
  import opened Transactions
  import opened Shape
  import opened Ledger
  import opened Verdict
  import opened Accounting
  import opened Shaping
  import opened Recount
  import opened Renaming
  import opened Forking
  import opened Machine
  import opened Leases
  import opened Cancel
  import opened Carrying
  import opened Quiet
  import opened Commits
  import opened ForkSafety

  /** A dispatch that ends with a transaction of its own. */
  predicate Commits?(a: Action) {
    a.ANext? || a.ADirect? || a.APush? || a.AArrive? || a.AFinish? || a.AFail?
  }

  // ----- One step

  ghost predicate Good(w: World, w': World) {
    Inv(w') && Absorbs(w.db, w'.db) && EndsAccounted(w.db, w'.db)
  }

  lemma BookedGood(w: World, x: nat, g: nat, db': Db)
    requires Inv(w) && (x, g) in w.jobs && Own(w.db, x, g) && Booked(w.db, db', x, Inherit(w, x, g)) && db' != w.db
    requires FlowDone(w.db, w.db.steps[x].flow) || Inherit(w, x, g) == !w.db.steps[x].cancelling
    ensures Good(w, Commit(w, x, g, db'))
  {
    CommitInv(w, x, g, db', Inherit(w, x, g));
  }

  lemma NothingGood(w: World, x: nat, g: nat)
    requires Inv(w) && (x, g) in w.jobs
    ensures Good(w, Commit(w, x, g, w.db)) && Good(w, Leave(w, x, g, w.db))
  {
    NothingDone(w, x, g);
  }

  lemma NextGood(w: World, x: nat, g: nat, e: bool)
    requires Inv(w) && LineageDown(w.db.steps) && Enabled(w, ANext(x, g, e))
    ensures Good(w, Apply(w, ANext(x, g, e)))
  {
    Movable(w, x, g);
    var f, inherit := w.db.steps[x].flow, Inherit(w, x, g);
    if FlowDone(w.db, f) {
      NothingGood(w, x, g);
    } else {
      NextBooked(w.db, f, x, inherit, e);
      assert Next(w.db, x, inherit, e).nextStep != w.db.nextStep;
      BookedGood(w, x, g, Next(w.db, x, inherit, e));
    }
  }

  lemma DirectGood(w: World, x: nat, g: nat, e: bool)
    requires Inv(w) && LineageDown(w.db.steps) && Enabled(w, ADirect(x, g, e))
    ensures Good(w, Apply(w, ADirect(x, g, e)))
  {
    Movable(w, x, g);
    var f, inherit := w.db.steps[x].flow, Inherit(w, x, g);
    if FlowDone(w.db, f) {
      NothingGood(w, x, g);
    } else {
      DirectBooked(w.db, f, x, inherit, e);
      assert Direct(w.db, x, inherit, e).nextStep != w.db.nextStep;
      BookedGood(w, x, g, Direct(w.db, x, inherit, e));
    }
  }

  lemma PushMoves(db: Db, x: nat, inherit: bool, tasks: seq<bool>, direct: nat, e: bool)
    requires x in db.steps && x < db.nextStep && !FlowDone(db, db.steps[x].flow) && (|tasks| > 0 || direct > 0)
    requires db.steps[x].failures == 0
    ensures Push(db, x, inherit, tasks, direct, e).nextStep != db.nextStep
  {
  }

  lemma PushGood(w: World, x: nat, g: nat, tasks: seq<bool>, direct: nat, e: bool)
    requires Inv(w) && LineageDown(w.db.steps) && Enabled(w, APush(x, g, tasks, direct, e))
    ensures Good(w, Apply(w, APush(x, g, tasks, direct, e)))
  {
    Movable(w, x, g);
    var f, inherit := w.db.steps[x].flow, Inherit(w, x, g);
    if FlowDone(w.db, f) {
      NothingGood(w, x, g);
    } else {
      PushBooked(w.db, f, x, inherit, tasks, direct, e);
      PushMoves(w.db, x, inherit, tasks, direct, e);
      BookedGood(w, x, g, Push(w.db, x, inherit, tasks, direct, e));
    }
  }

  lemma ArriveGood(w: World, x: nat, g: nat, e: bool)
    requires Inv(w) && LineageDown(w.db.steps) && Enabled(w, AArrive(x, g, e))
    ensures Good(w, Apply(w, AArrive(x, g, e)))
  {
    Movable(w, x, g);
    var inherit := Inherit(w, x, g);
    ArriveBooked(w.db, x, inherit, e);
    ArriveKeepsStatus(w.db, x, inherit, e);
    assert Arrive(w.db, x, inherit, e).steps[x].settled && !w.db.steps[x].settled;
    BookedGood(w, x, g, Arrive(w.db, x, inherit, e));
  }

  lemma FinishGood(w: World, x: nat, g: nat)
    requires Inv(w) && LineageDown(w.db.steps) && Enabled(w, AFinish(x, g))
    ensures Good(w, Apply(w, AFinish(x, g)))
  {
    Movable(w, x, g);
    var f := w.db.steps[x].flow;
    if FlowDone(w.db, f) {
      NothingGood(w, x, g);
    } else {
      FinishBooked(w.db, f, x, Inherit(w, x, g));
      assert Finish(w.db, x).flows[f] != w.db.flows[f];
      BookedGood(w, x, g, Finish(w.db, x));
    }
  }

  /** A failing dispatch holds a live step that never fanned out. */
  lemma Failable(w: World, x: nat, g: nat)
    requires Inv(w) && (x, g) in w.jobs && HoldMatches(w.db, x, g)
    ensures LineageDown(w.db.steps) && Own(w.db, x, g) && !w.db.steps[x].settled
    ensures !FlowDone(w.db, w.db.steps[x].flow) ==> CanFail(w.db, w.db.steps[x].flow, x)
  {
    assert JobOk(w, x, g);
    NestedFromShape(w.db.steps);
    assert StepShape(w.db.steps, x);
    if !FlowDone(w.db, w.db.steps[x].flow) { RunningReady(w.db, w.db.steps[x].flow); }
  }

  lemma FailCommits(w: World, x: nat, g: nat, cancelled: bool)
    requires Inv(w) && LineageDown(w.db.steps) && (x, g) in w.jobs && HoldMatches(w.db, x, g)
    ensures Fail(w.db, x, g, cancelled) != w.db
    ensures Good(w, World(Fail(w.db, x, g, cancelled), w.jobs - {(x, g)}, w.log + [(x, g)]))
  {
    Failable(w, x, g);
    // A loss inserts nothing, so what it would inherit does not matter.
    FailBooked(w.db, x, g, cancelled, !w.db.steps[x].cancelling);
    FailUnsettled(w.db, x, g, cancelled);
    CommitInv(w, x, g, Fail(w.db, x, g, cancelled), !w.db.steps[x].cancelling);
  }

  lemma FailGood(w: World, x: nat, g: nat, cancelled: bool)
    requires Inv(w) && LineageDown(w.db.steps) && (x, g) in w.jobs
    ensures Good(w, Apply(w, AFail(x, g, cancelled)))
  {
    if HoldMatches(w.db, x, g) { FailCommits(w, x, g, cancelled); } else { NothingGood(w, x, g); }
  }

  lemma CreateMarks(db: Db, depth: nat, e: bool)
    requires WellShaped(db) && MarksOk(db)
    ensures MarksOk(Create(db, depth, e))
  {
    CreateShape(db, depth, e);
    var db' := Create(db, depth, e);
    assert InsertedRight(db, db', db.nextStep);
    MarksAfter(db, db');
  }

  lemma CreateSound(db: Db, depth: nat, e: bool)
    requires WellShaped(db) && FlowsSound(db)
    ensures FlowsSound(Create(db, depth, e))
  {
    var db' := Create(db, depth, e);
    var f', y := db.nextFlow, db.nextStep;
    forall f | f in db'.flows && !db'.flows[f].status.Terminal() ensures Sound(db', f) {
      if f == f' {
        forall z | z in db.steps ensures db.steps[z].flow != f' && db.steps[z].lineage != y {
          assert StepShape(db.steps, z);
        }
        assert Tokens(db'.steps, f', 0) == {y};
        assert Losses(db'.steps, f', 0) == {};
        assert Tokens(db'.steps, f', y) == {} && Losses(db'.steps, f', y) == {} && SoftLosses(db'.steps, f', y) == {};
        assert Books(db'.steps, f', y, 0, false);
      } else {
        assert Sound(db, f);
        Bystander(db.steps, db'.steps, f);
      }
    }
  }

  lemma CreateInv(w: World, depth: nat, e: bool)
    requires Inv(w)
    ensures Inv(w.(db := Create(w.db, depth, e)))
  {
    OwnRows(w.db.steps);
    CreateShape(w.db, depth, e);
    CreateMarks(w.db, depth, e);
    CreateSound(w.db, depth, e);
    OutsideWrite(w, Create(w.db, depth, e));
  }

  /** The actions that move no token keep the invariant. */
  lemma QuietInv(w: World, a: Action)
    requires Inv(w) && LineageDown(w.db.steps) && Enabled(w, a) && !Commits?(a)
    ensures Inv(Apply(w, a))
  {
    match a
    case AClaim(x) => ClaimInv(w, x);
    case AMopUp(x, g) => MopUpInv(w, x, g);
    case AComplete(x, g) => CompleteInv(w, x, g);
    case ARewind(x, g) => RewindInv(w, x, g);
    case ARetry(x, g) => RetryInv(w, x, g);
    case APark(x, g) => ParkInv(w, x, g);
    case ARevive(x) => ReviveInv(w, x);
    case ARecover(x) => RecoverInv(w, x);
    case AInterrupt(x, g, callers, fs) => InterruptInv(w, x, g, callers, fs);
    case AResume(root, x, callers, fs) => ResumeInv(w, root, x, callers, fs);
    case ATerminate(fs) => TerminateInv(w, fs);
    case AWatermark(fs) => WatermarkInv(w, fs);
    case AMark(fs) => MarkInv(w, fs);
    case AStamp(f) => StampInv(w, f);
    case AReap(fs) => ReapInv(w, fs);
    case ACreate(depth, e) => CreateInv(w, depth, e);
    case AFork(f, x, caller, ids, top) => ForkInv(w, f, x, caller, ids, top);
    case ACrash(x, g) => NothingGood(w, x, g);
  }

  /** Flow rows under the actions that move no token: only Terminate and Delete stop a flow. */
  ghost predicate OnlyTerminates(db: Db, db': Db) {
    forall f {:trigger f in db'.flows} :: f in db'.flows ==>
      (f in db.flows && !db.flows[f].status.Terminal() && db'.flows[f].status.Terminal()
       ==> db'.flows[f].status.Terminated?)
  }

  /** Actions that write one row. */
  predicate OneRow?(a: Action) {
    a.AClaim? || a.AMopUp? || a.AComplete? || a.ARewind? || a.ARetry? || a.APark? || a.ARevive? || a.ARecover? || a.ACrash?
  }

  lemma WriteAbsorbs(db: Db, x: nat, q: Step)
    requires x in db.steps && q.flow == db.steps[x].flow
    ensures Absorbs(db, Rewritten(db, x, q)) && OnlyTerminates(db, Rewritten(db, x, q))
  {
  }

  lemma OneRowWritten(w: World, a: Action)
    requires LineageDown(w.db.steps) && Enabled(w, a) && OneRow?(a)
    ensures var db' := Apply(w, a).db;
            db' == w.db || (a.x in w.db.steps && a.x in db'.steps && db' == Rewritten(w.db, a.x, db'.steps[a.x])
                            && db'.steps[a.x].flow == w.db.steps[a.x].flow)
  {
  }

  lemma RowAbsorbs(w: World, a: Action)
    requires LineageDown(w.db.steps) && Enabled(w, a) && OneRow?(a)
    ensures Absorbs(w.db, Apply(w, a).db) && OnlyTerminates(w.db, Apply(w, a).db)
  {
    OneRowWritten(w, a);
    var db' := Apply(w, a).db;
    if db' != w.db { WriteAbsorbs(w.db, a.x, db'.steps[a.x]); }
  }

  lemma QuietAbsorbs(w: World, a: Action)
    requires Inv(w) && LineageDown(w.db.steps) && Enabled(w, a) && !Commits?(a)
    requires !a.AResume? && !a.AInterrupt? && !a.AFork? && !OneRow?(a)
    ensures Absorbs(w.db, Apply(w, a).db) && OnlyTerminates(w.db, Apply(w, a).db)
  {
  }

  lemma AddedAbsorbs(db: Db, db': Db, added: map<nat, Step>, top: nat)
    requires Ids(db) && AddedBy(db, db', added, top)
    ensures Absorbs(db, db') && OnlyTerminates(db, db')
  {
  }

  lemma ForkAbsorbs(w: World, f: nat, x: nat, caller: bool, ids: map<nat, nat>, top: nat)
    requires Ids(w.db) && NewIds(w.db, f, x, caller, ids, top)
    ensures var db' := Fork(w.db, f, x, caller, ids, top); Absorbs(w.db, db') && OnlyTerminates(w.db, db')
  {
    ForkRows(w.db, f, x, caller, ids, top);
    AddedAbsorbs(w.db, Fork(w.db, f, x, caller, ids, top),
                 Renamed(Rewound(w.db.steps, f, x, caller), ids, w.db.nextFlow), top);
  }

  lemma ResumeAbsorbs(db: Db, root: nat, x: nat, callers: set<nat>, fs: set<nat>)
    ensures Absorbs(db, Resume(db, root, x, callers, fs)) && OnlyTerminates(db, Resume(db, root, x, callers, fs))
  {
    ResumeRows(db, root, x, callers, fs);
    ResumeFlows(db, root, x, callers, fs);
  }

  lemma InterruptAbsorbs(db: Db, x: nat, g: nat, callers: set<nat>, fs: set<nat>)
    requires x in db.steps
    ensures Absorbs(db, Interrupt(db, x, g, callers, fs)) && OnlyTerminates(db, Interrupt(db, x, g, callers, fs))
  {
    InterruptFlows(db, x, g, callers, fs);
  }

  lemma QuietGood(w: World, a: Action)
    requires Inv(w) && LineageDown(w.db.steps) && Enabled(w, a) && !Commits?(a)
    ensures Good(w, Apply(w, a))
  {
    QuietInv(w, a);
    if OneRow?(a) {
      RowAbsorbs(w, a);
    } else if a.AFork? {
      ForkAbsorbs(w, a.f, a.x, a.caller, a.ids, a.top);
    } else if a.AResume? || a.AInterrupt? {
      match a
      case AResume(root, x, callers, fs) => ResumeAbsorbs(w.db, root, x, callers, fs);
      case AInterrupt(x, g, callers, fs) => InterruptAbsorbs(w.db, x, g, callers, fs);
    } else {
      QuietAbsorbs(w, a);
    }
    InOrderAccounted(w.db, Apply(w, a).db);
  }

  lemma CommitsGood(w: World, a: Action)
    requires Inv(w) && LineageDown(w.db.steps) && Enabled(w, a) && Commits?(a)
    ensures Good(w, Apply(w, a))
  {
    match a
    case ANext(x, g, e) => NextGood(w, x, g, e);
    case ADirect(x, g, e) => DirectGood(w, x, g, e);
    case APush(x, g, tasks, direct, e) => PushGood(w, x, g, tasks, direct, e);
    case AArrive(x, g, e) => ArriveGood(w, x, g, e);
    case AFinish(x, g) => FinishGood(w, x, g);
    case AFail(x, g, c) => FailGood(w, x, g, c);
  }

  /** Every action keeps the invariant, leaves stopped flows alone, and ends a flow only with closed books. */
  lemma MoveGood(w: World, w': World)
    requires Inv(w) && Moves(w, w')
    ensures Good(w, w')
  {
    var a :| Enabled(w, a) && w' == Apply(w, a);
    if Commits?(a) { CommitsGood(w, a); } else { QuietGood(w, a); }
  }

  /** In a world that keeps the invariant, being enabled is all an action needs. */
  lemma EnabledMoves(w: World, a: Action)
    requires Inv(w) && Enabled(w, a)
    ensures LineageDown(w.db.steps) && Moves(w, Apply(w, a))
  {
    NestedFromShape(w.db.steps);
  }

  // ----- Whole runs

  lemma {:induction false} RunInv(run: seq<World>, i: nat)
    requires Run(run) && i < |run|
    ensures Inv(run[i])
  {
    if i > 0 {
      RunInv(run, i - 1);
      assert StepAt(run, i);
      MoveGood(run[i - 1], run[i]);
    }
  }

  /**
   Token conservation: in every reachable state of a flow that has not stopped, the trunk holds exactly one
   token and no loss, and for every spawned cohort the members still at work plus the inner cohorts still open
   make up exactly the branches that have not arrived.
   */
  lemma TokensConserved(run: seq<World>, i: nat, f: nat)
    requires Run(run) && i < |run| && !FlowDone(run[i].db, f)
    ensures var steps := run[i].db.steps;
            && |Tokens(steps, f, 0)| == 1 && Losses(steps, f, 0) == {}
            && forall s <- steps | steps[s].flow == f ::
                 && (steps[s].spawned ==> |Tokens(steps, f, s)| == steps[s].size - steps[s].arrivals)
                 && |Losses(steps, f, s)| == steps[s].failures
                 && |SoftLosses(steps, f, s)| == steps[s].cancellations
  {
    RunInv(run, i);
    var steps := run[i].db.steps;
    assert Sound(run[i].db, f);
    forall s <- steps | steps[s].flow == f ensures Books(steps, f, s, 0, false) {}
  }

  /**
   Verdict: when a flow ends by itself - a completion, a failure, the last arrival of a failed cohort - no other
   work of it is left open anywhere, and its status is the one its steps call for.
   */
  lemma EndsRight(run: seq<World>, i: nat, f: nat)
    requires Run(run) && 0 < i < |run| && !FlowDone(run[i - 1].db, f) && f in run[i].db.flows
    requires run[i].db.flows[f].status.Terminal() && !run[i].db.flows[f].status.Terminated?
    ensures NoOpenWork(run[i].db.steps, f)
    ensures run[i].db.flows[f].status.Completed? <==> !HasFaulted(run[i].db.steps, f)
    ensures run[i].db.flows[f].status.Failed? <==> HasFailed(run[i].db.steps, f)
  {
    RunInv(run, i - 1);
    assert StepAt(run, i);
    EndedBooks(run[i - 1], run[i], f);
    BooksTell(run[i].db, f);
  }

  lemma EndedBooks(w: World, w': World, f: nat)
    requires Inv(w) && Moves(w, w') && !FlowDone(w.db, f) && f in w'.db.flows
    requires w'.db.flows[f].status.Terminal() && !w'.db.flows[f].status.Terminated?
    ensures WellShaped(w'.db) && Accounted(w'.db, f)
  {
    MoveGood(w, w');
  }

  lemma BooksTell(db: Db, f: nat)
    requires WellShaped(db) && f in db.flows && Accounted(db, f)
    requires db.flows[f].status.Terminal() && !db.flows[f].status.Terminated?
    ensures NoOpenWork(db.steps, f)
    ensures db.flows[f].status.Completed? <==> !HasFaulted(db.steps, f)
    ensures db.flows[f].status.Failed? <==> HasFailed(db.steps, f)
  {
    NestedFromShape(db.steps);
    if db.flows[f].status.Completed? {
      SuccessVerdict(db.steps, f);
    } else {
      LossVerdict(db.steps, f, db.flows[f].status.Cancelled?, db.nextStep);
    }
  }

  /** Lease safety: over a whole run, at most one generation of a step commits its transition or counts its loss. */
  lemma OneCommit(run: seq<World>, i: nat, j: nat, k: nat)
    requires Run(run) && i < |run| && 0 <= j < k < |run[i].log|
    ensures run[i].log[j].0 != run[i].log[k].0
  {
    RunInv(run, i);
  }

  /**
   A dispatch whose generation was granted again changes no row with any of its post-execution writes - and
   cannot be about to run the one transaction that carries no fence.
   */
  lemma OvertakenIsHarmless(run: seq<World>, i: nat, x: nat, g: nat)
    requires Run(run) && i < |run| && (x, g) in run[i].jobs
    requires x in run[i].db.steps && g != run[i].db.steps[x].leaseSeq
    ensures g < run[i].db.steps[x].leaseSeq && !Holds(run[i], x, g, Marked) && LineageDown(run[i].db.steps)
    ensures var db := run[i].db;
            && Complete(db, x, g) == db && Rewind(db, x, g) == db && Retry(db, x, g) == db && Park(db, x, g) == db
            && (forall c :: Fail(db, x, g, c) == db)
            && (forall callers, fs :: Interrupt(db, x, g, callers, fs) == db)
  {
    RunInv(run, i);
    assert JobOk(run[i], x, g);
    NestedFromShape(run[i].db.steps);
  }

  /** The actions the dispatch (x, g) ends with, or goes on with. */
  predicate ByJob(a: Action, x: nat, g: nat) {
    && (a.AMopUp? || a.AComplete? || a.ANext? || a.ADirect? || a.APush? || a.AArrive? || a.AFinish? || a.AFail?
        || a.ARewind? || a.ARetry? || a.APark? || a.AInterrupt? || a.ACrash?)
    && a.x == x && a.g == g
  }

  /** No transition is enabled for a dispatch that is not at its transition. */
  lemma NoTransition(w: World, x: nat, g: nat, a: Action)
    requires ByJob(a, x, g) && Enabled(w, a) && !Holds(w, x, g, Marked)
    ensures !a.ANext? && !a.ADirect? && !a.APush? && !a.AArrive? && !a.AFinish?
  {
  }

  /**
   The one write an overtaken dispatch can still land: of all its actions only the reap of a step whose flow has
   stopped changes the tables, and it does exactly when the row does not carry the flow's status yet. Over a step
   that passed in its time it writes a loss exactly when the flow ended as one - and a fork of that flow will count it.
   */
  lemma OvertakenReap(run: seq<World>, i: nat, x: nat, g: nat, a: Action)
    requires Run(run) && i < |run| && (x, g) in run[i].jobs && x in run[i].db.steps && g != run[i].db.steps[x].leaseSeq
    requires ByJob(a, x, g) && Enabled(run[i], a)
    ensures LineageDown(run[i].db.steps)
    ensures var db, db' := run[i].db, Apply(run[i], a).db;
            var r := db.steps[x];
            && (db' != db <==> a.AMopUp? && (r.status != db.flows[r.flow].status || r.parked))
            && (a.AMopUp? ==> db' == db.(steps := db.steps[x := r.(status := db.flows[r.flow].status, parked := false)]))
            && (a.AMopUp? && r.settled && r.Passed() ==>
                  (!db'.steps[x].Passed() <==> db.flows[r.flow].status.Failed? || db.flows[r.flow].status.Cancelled?))
  {
    OvertakenIsHarmless(run, i, x, g);
    NoTransition(run[i], x, g, a);
    OvertakenActs(run[i], x, g, a);
  }

  lemma OvertakenActs(w: World, x: nat, g: nat, a: Action)
    requires LineageDown(w.db.steps) && (x, g) in w.jobs && x in w.db.steps && g != w.db.steps[x].leaseSeq
    requires ByJob(a, x, g) && Enabled(w, a) && !a.ANext? && !a.ADirect? && !a.APush? && !a.AArrive? && !a.AFinish?
    ensures var db, db' := w.db, Apply(w, a).db;
            var r := db.steps[x];
            && (a.AMopUp? ==> r.flow in db.flows && db' == db.(steps := db.steps[x := r.(status := db.flows[r.flow].status, parked := false)]))
            && (!a.AMopUp? ==> db' == db)
  {
  }

  /** A dispatch about to commit a transition still owns its row, has not committed before, and nobody else is. */
  lemma TransitionOwned(run: seq<World>, i: nat, x: nat, g: nat)
    requires Run(run) && i < |run| && Transits(run[i], x, g)
    ensures run[i].db.steps[x].leaseSeq == g && !run[i].db.steps[x].settled && !InLog(run[i].log, x)
    ensures forall h :: Holds(run[i], x, h, Marked) ==> h == g
  {
    RunInv(run, i);
    assert JobOk(run[i], x, g);
    forall h | Holds(run[i], x, h, Marked) ensures h == g { assert JobOk(run[i], x, h); }
  }

  /** One step later a stopped flow, or one whose row is gone, has gained nothing. */
  lemma StoppedNext(db: Db, db': Db, f: nat)
    requires Absorbs(db, db') && Ids(db') && FlowDone(db, f) && f < db.nextFlow
    ensures f in db'.flows ==> f in db.flows && db'.flows[f].status == db.flows[f].status
    ensures f < db'.nextFlow
    ensures forall y :: y in db'.steps && db'.steps[y].flow == f ==> y in db.steps && db.steps[y].flow == f
  {
    forall y | y in db'.steps && db'.steps[y].flow == f ensures y in db.steps && db.steps[y].flow == f {
      assert f in db'.flows;
    }
  }

  lemma RunIds(run: seq<World>, i: nat)
    requires Run(run) && i < |run|
    ensures Ids(run[i].db)
  {
    RunInv(run, i);
  }

  lemma RunStep(run: seq<World>, j: nat)
    requires Run(run) && 0 < j < |run|
    ensures Absorbs(run[j - 1].db, run[j].db)
  {
    RunInv(run, j - 1);
    assert StepAt(run, j);
    MoveGood(run[j - 1], run[j]);
  }

  /** Between db and db', flow f of db - stopped - has neither changed its status nor gained a step. */
  ghost predicate StaysStopped(db: Db, db': Db, f: nat) {
    && f in db.flows && db.flows[f].status.Terminal() && f < db'.nextFlow
    && (f in db'.flows ==> db'.flows[f].status == db.flows[f].status)
    && (forall y :: y in db'.steps && db'.steps[y].flow == f ==> y in db.steps && db.steps[y].flow == f)
  }

  lemma StopLasts(a: Db, b: Db, c: Db, f: nat)
    requires StaysStopped(a, b, f) && Absorbs(b, c) && Ids(c)
    ensures StaysStopped(a, c, f)
  {
    StoppedNext(b, c, f);
  }

  lemma StillStopped(run: seq<World>, i: nat, j: nat, f: nat)
    requires Run(run) && i < j < |run| && StaysStopped(run[i].db, run[j - 1].db, f)
    ensures StaysStopped(run[i].db, run[j].db, f)
  {
    RunStep(run, j);
    RunIds(run, j);
    StopLasts(run[i].db, run[j - 1].db, run[j].db, f);
  }

  /** A stopped flow is absorbing over whole runs: its status stays, and no step is ever added to it. */
  lemma {:induction false} StoppedForGood(run: seq<World>, i: nat, j: nat, f: nat)
    requires Run(run) && i <= j < |run| && f in run[i].db.flows && run[i].db.flows[f].status.Terminal()
    ensures StaysStopped(run[i].db, run[j].db, f)
    decreases j - i
  {
    if i < j {
      StoppedForGood(run, i, j - 1, f);
      StillStopped(run, i, j, f);
    } else {
      RunIds(run, i);
    }
  }

  /** Cancel, over whole runs: no line of succession ever carries two marks. */
  lemma LineMarkedOnce(run: seq<World>, i: nat, a: nat, m: nat, b: nat)
    requires Run(run) && i < |run| && OnLine(run[i].db.steps, a, b) && OnLine(run[i].db.steps, m, b)
    requires run[i].db.steps[a].cancelling && run[i].db.steps[m].cancelling
    ensures a == m
  {
    RunInv(run, i);
    OnlyOne(run[i].db, a, m, b);
  }

  /** Every step inserted after a Cancel's watermark has exactly one marked step on the line that led to it. */
  lemma LineReached(run: seq<World>, i: nat, b: nat) returns (m: nat)
    requires Run(run) && i < |run| && b in run[i].db.steps
    requires 0 < FlowWatermark(run[i].db, run[i].db.steps[b].flow) < b
    ensures OnLine(run[i].db.steps, m, b) && run[i].db.steps[m].cancelling
    ensures forall a :: OnLine(run[i].db.steps, a, b) && run[i].db.steps[a].cancelling ==> a == m
  {
    RunInv(run, i);
    m := ReachedOnce(run[i].db, b);
  }

  /**
   Once a Cancel's mark has been written over a flow with a watermark, the line of every step still open carries
   the mark, whatever the workers did between the two writes.
   */
  lemma MarkReachesAll(run: seq<World>, i: nat, fs: set<nat>, b: nat) returns (m: nat)
    requires Run(run) && i < |run| && b in run[i].db.steps && run[i].db.steps[b].flow in fs
    requires run[i].db.steps[b].status.Open() && 0 < FlowWatermark(run[i].db, run[i].db.steps[b].flow)
    ensures OnLine(Mark(run[i].db, fs).steps, m, b) && Mark(run[i].db, fs).steps[m].cancelling
    ensures forall a :: OnLine(Mark(run[i].db, fs).steps, a, b) && Mark(run[i].db, fs).steps[a].cancelling ==> a == m
  {
    RunInv(run, i);
    m := MarkReaches(run[i].db, fs, b);
  }

  /** The claimer of a covered step carries the coverage along: what it inserts starts unmarked. */
  lemma CoveredInsertsUnmarked(run: seq<World>, i: nat, b: nat)
    requires Run(run) && i < |run| && b in run[i].db.steps
    requires run[i].db.steps[b].pred in run[i].db.steps && run[i].db.steps[run[i].db.steps[b].pred].cancelling
    requires run[i].db.steps[b].pred != 0
    ensures !run[i].db.steps[b].cancelling
  {
    RunInv(run, i);
    var db := run[i].db;
    assert StepShape(db.steps, b) && MarkOk(db, b) && MarkOk(db, db.steps[b].pred);
  }
}
