/**
 Where every step stands, in every reachable state. A parked step is running, waits for its child, and no worker has
 it in hand; so a step that is not over can always be claimed, is at work, awaits its child, or is paused, and what
 each action does to that is known.
 */
module Parking {
  import opened Rows
  import opened Transactions
  import opened Shape
  import opened Ledger
  import opened Accounting
  import opened Shaping
  import opened Pruning
  import opened Recount
  import opened Renaming
  import opened Forking
  import opened Machine
  import opened Leases
  import opened Carrying
  import opened Quiet
  import opened Commits
  import opened ForkSafety
  import opened Runs
  import opened Standings
  import opened ForkStands

  ghost predicate ParkedOk(r: Step) { r.parked ==> r.status.Running? }

  /** The dispatch has its step in hand: it has not parked it, and nobody has paused or parked it since. */
  ghost predicate InHand(w: World, x: nat, g: nat)
    requires (x, g) in w.jobs
  {
    !w.jobs[(x, g)].phase.Owing? && x in w.db.steps && w.db.steps[x].leaseSeq == g
    ==> !w.db.steps[x].parked && !w.db.steps[x].status.Interrupted?
  }

  ghost predicate Parked(w: World) {
    && (forall y {:trigger w.db.steps[y].parked} :: y in w.db.steps ==> ParkedOk(w.db.steps[y]))
    && (forall x, g {:trigger InHand(w, x, g)} :: (x, g) in w.jobs ==> InHand(w, x, g))
  }

  /** What may happen to a row without disturbing the dispatch that has it in hand. */
  ghost predicate Undisturbed(r: Step, q: Step) {
    ParkedOk(q) && q.leaseSeq == r.leaseSeq && (!r.parked && !r.status.Interrupted? ==> !q.parked && !q.status.Interrupted?)
  }

  /** The dispatches of w', all of them dispatches of w in the phase they were in, keep their steps in hand. */
  lemma StillInHand(w: World, w': World, except: set<nat>)
    requires Parked(w)
    requires forall j <- w'.jobs | j.0 !in except :: j in w.jobs && w'.jobs[j].phase == w.jobs[j].phase && (j.0 in w'.db.steps ==> j.0 in w.db.steps)
    requires forall y <- w'.db.steps :: ParkedOk(w'.db.steps[y]) && (y in w.db.steps && y !in except ==> Undisturbed(w.db.steps[y], w'.db.steps[y]))
    requires forall j <- w'.jobs | j.0 in except :: InHand(w', j.0, j.1)
    ensures Parked(w')
  {
    forall x, g | (x, g) in w'.jobs ensures InHand(w', x, g) {
      if x !in except { assert InHand(w, x, g); }
    }
  }

  /** A dispatch is on no step that does not exist yet. */
  lemma NotAhead(w: World, j: (nat, nat))
    requires Inv(w) && j in w.jobs
    ensures j.0 < w.db.nextStep
  {
    assert JobOk(w, j.0, j.1);
  }

  // ----- One row

  lemma GiveUpParked(w: World, a: Action)
    requires Inv(w) && Parked(w) && LineageDown(w.db.steps) && Enabled(w, a) && (a.ARewind? || a.ARetry?)
    ensures Parked(Apply(w, a))
  {
    assert InHand(w, a.x, a.g);
    StillInHand(w, Apply(w, a), {});
  }

  lemma SweepParked(w: World, a: Action)
    requires Parked(w) && LineageDown(w.db.steps) && Enabled(w, a) && (a.ARevive? || a.ARecover? || a.ACrash?)
    ensures Parked(Apply(w, a))
  {
    StillInHand(w, Apply(w, a), {});
  }

  lemma MopUpParked(w: World, x: nat, g: nat)
    requires Parked(w) && LineageDown(w.db.steps) && Enabled(w, AMopUp(x, g))
    ensures Parked(Apply(w, AMopUp(x, g)))
  {
    StillInHand(w, Apply(w, AMopUp(x, g)), {});
  }

  lemma ClaimParked(w: World, x: nat)
    requires Inv(w) && Parked(w) && LineageDown(w.db.steps) && Enabled(w, AClaim(x))
    ensures Parked(Apply(w, AClaim(x)))
  {
    var w' := Apply(w, AClaim(x));
    forall j | j in w'.jobs && j.0 == x ensures InHand(w', j.0, j.1) {
      if j in w.jobs { assert JobOk(w, j.0, j.1); }
    }
    StillInHand(w, w', {x});
  }

  lemma CompleteParked(w: World, x: nat, g: nat)
    requires Inv(w) && Parked(w) && LineageDown(w.db.steps) && Enabled(w, AComplete(x, g))
    ensures Parked(Apply(w, AComplete(x, g)))
  {
    var w' := Apply(w, AComplete(x, g));
    assert InHand(w, x, g);
    forall j | j in w'.jobs && j.0 == x ensures InHand(w', j.0, j.1) {
      if j in w.jobs { assert InHand(w, j.0, j.1); }
    }
    StillInHand(w, w', {x});
  }

  lemma ParkParked(w: World, x: nat, g: nat)
    requires Inv(w) && Parked(w) && LineageDown(w.db.steps) && Enabled(w, APark(x, g))
    ensures Parked(Apply(w, APark(x, g)))
  {
    var w' := Apply(w, APark(x, g));
    forall j | j in w'.jobs && j.0 == x ensures InHand(w', j.0, j.1) {
      if j in w.jobs { assert InHand(w, j.0, j.1); }
    }
    StillInHand(w, w', {x});
  }

  // ----- Many rows

  lemma InterruptParked(w: World, x: nat, g: nat, callers: set<nat>, fs: set<nat>)
    requires Inv(w) && Parked(w) && LineageDown(w.db.steps) && Enabled(w, AInterrupt(x, g, callers, fs))
    ensures Parked(Apply(w, AInterrupt(x, g, callers, fs)))
  {
    var w' := Apply(w, AInterrupt(x, g, callers, fs));
    if w.db.steps[x].leaseSeq == g && Interruptible(w.db, x, {x}) {
      InterruptRows(w.db, x, g, callers, fs);
      assert forall y <- w.db.steps | y != x :: PausedRow(w.db.steps[y], w'.db.steps[y]);
    }
    forall j | j in w'.jobs && j.0 == x ensures InHand(w', j.0, j.1) { assert InHand(w, j.0, j.1); }
    StillInHand(w, w', {x});
  }

  lemma ResumedUndisturbed(r: Step, q: Step)
    requires ParkedOk(r) && ResumedRow(r, q)
    ensures ParkedOk(q) && Undisturbed(r, q)
  {
  }

  lemma ResumedParked(w: World, db': Db)
    requires Parked(w) && db'.steps.Keys == w.db.steps.Keys && forall y <- w.db.steps :: ResumedRow(w.db.steps[y], db'.steps[y])
    ensures Parked(w.(db := db'))
  {
    forall y | y in db'.steps ensures ParkedOk(db'.steps[y]) && Undisturbed(w.db.steps[y], db'.steps[y]) {
      assert ParkedOk(w.db.steps[y]);
      ResumedUndisturbed(w.db.steps[y], db'.steps[y]);
    }
    StillInHand(w, w.(db := db'), {});
  }

  lemma ResumeParked(w: World, root: nat, x: nat, callers: set<nat>, fs: set<nat>)
    requires Parked(w) && LineageDown(w.db.steps) && Enabled(w, AResume(root, x, callers, fs))
    ensures Parked(Apply(w, AResume(root, x, callers, fs)))
  {
    ResumeRows(w.db, root, x, callers, fs);
    ResumedParked(w, Resume(w.db, root, x, callers, fs));
  }

  lemma TerminateParked(w: World, fs: set<nat>)
    requires Parked(w)
    ensures Parked(w.(db := Terminate(w.db, fs)))
  {
    StillInHand(w, w.(db := Terminate(w.db, fs)), {});
  }

  /** Operations that write no row's status and no row's parking. */
  lemma MarkParked(w: World, a: Action)
    requires Parked(w) && LineageDown(w.db.steps) && Enabled(w, a) && (a.AWatermark? || a.AMark? || a.AStamp?)
    ensures Parked(Apply(w, a))
  {
    StillInHand(w, Apply(w, a), {});
  }

  lemma ReapParked(w: World, fs: set<nat>)
    requires Parked(w)
    ensures Parked(w.(db := Reap(w.db, fs)))
  {
    StillInHand(w, w.(db := Reap(w.db, fs)), {});
  }

  lemma CreateParked(w: World, depth: nat, e: bool)
    requires Inv(w) && Parked(w)
    ensures Parked(w.(db := Create(w.db, depth, e)))
  {
    forall j | j in w.jobs ensures j.0 < w.db.nextStep { NotAhead(w, j); }
    StillInHand(w, w.(db := Create(w.db, depth, e)), {});
  }

  lemma ForkParked(w: World, f: nat, x: nat, caller: bool, m: map<nat, nat>, top: nat)
    requires Inv(w) && Parked(w) && x in w.db.steps && w.db.steps[x].flow == f && NewIds(w.db, f, x, caller, m, top)
    ensures Parked(w.(db := Fork(w.db, f, x, caller, m, top)))
  {
    var db' := Fork(w.db, f, x, caller, m, top);
    forall j | j in w.jobs ensures j.0 < w.db.nextStep { NotAhead(w, j); }
    CloneRowsParked(w.db, f, x, caller, m, top);
    StillInHand(w, w.(db := db'), {});
  }

  lemma RewoundParked(steps: map<nat, Step>, f: nat, x: nat, caller: bool)
    ensures forall y <- Rewound(steps, f, x, caller) :: ParkedOk(Rewound(steps, f, x, caller)[y])
  {
    forall y | y in Rewound(steps, f, x, caller) ensures ParkedOk(Rewound(steps, f, x, caller)[y]) {
      RowStands(steps, Kept(steps, f, x), x, caller, y);
    }
  }

  lemma RenamedParked(t: map<nat, Step>, t': map<nat, Step>, m: map<nat, nat>, g: nat)
    requires Renames(t, t', m, g) && forall y <- t :: ParkedOk(t[y])
    ensures forall z <- t' :: ParkedOk(t'[z])
  {
    forall z | z in t' ensures ParkedOk(t'[z]) {
      var y := OldId(t, t', m, g, z);
      assert t'[m[y]] == RenamedRow(t[y], m, g);
    }
  }

  lemma AddedParked(db: Db, db': Db, added: map<nat, Step>, top: nat)
    requires AddedBy(db, db', added, top) && (forall y <- db.steps :: ParkedOk(db.steps[y]) && y < db.nextStep) && forall z <- added :: ParkedOk(added[z])
    ensures forall z <- db'.steps :: ParkedOk(db'.steps[z]) && (if z in db.steps then db'.steps[z] == db.steps[z] else z >= db.nextStep)
  {
  }

  lemma CloneRowsParked(db: Db, f: nat, x: nat, caller: bool, m: map<nat, nat>, top: nat)
    requires Ids(db) && NewIds(db, f, x, caller, m, top) && forall y <- db.steps :: ParkedOk(db.steps[y])
    ensures var db' := Fork(db, f, x, caller, m, top);
            forall z <- db'.steps :: ParkedOk(db'.steps[z]) && (if z in db.steps then db'.steps[z] == db.steps[z] else z >= db.nextStep)
  {
    var t := Rewound(db.steps, f, x, caller);
    var added := Renamed(t, m, db.nextFlow);
    RewoundParked(db.steps, f, x, caller);
    RenamedParked(t, added, m, db.nextFlow);
    ForkRows(db, f, x, caller, m, top);
    AddedParked(db, Fork(db, f, x, caller, m, top), added, top);
  }

  // ----- Transitions

  /** A transaction on x, and its dispatch gone. */
  lemma CarriedParked(w: World, x: nat, g: nat, db': Db, inherit: bool, log: seq<(nat, nat)>)
    requires Inv(w) && Parked(w) && (x, g) in w.jobs && Own(w.db, x, g) && Carries(w.db, db', x, inherit)
    ensures Parked(World(db', w.jobs - {(x, g)}, log))
  {
    var w' := World(db', w.jobs - {(x, g)}, log);
    forall y | y in db'.steps ensures ParkedOk(db'.steps[y]) && (y in w.db.steps ==> Undisturbed(w.db.steps[y], db'.steps[y])) {
      if y in w.db.steps {
        assert if y == x then OwnRow(w.db.steps[y], db'.steps[y]) else CarriedRow(w.db.steps[y], db'.steps[y]);
        assert ParkedOk(w.db.steps[y]);
      } else {
        assert AddedRow(w.db, x, inherit, db'.steps[y]);
      }
    }
    forall j | j in w'.jobs ensures j in w.jobs && j.0 < w.db.nextStep { NotAhead(w, j); }
    forall y | y in db'.steps && y !in w.db.steps ensures y >= w.db.nextStep { assert AddedRow(w.db, x, inherit, db'.steps[y]); }
    StillInHand(w, w', {});
  }

  /** A transaction that writes nothing, or what it carries. */
  ghost predicate CarriesAny(db: Db, db': Db, x: nat, inherit: bool) {
    db' == db || Carries(db, db', x, inherit)
  }

  lemma NextCarried(w: World, x: nat, g: nat, e: bool)
    requires Inv(w) && Transits(w, x, g)
    ensures CarriesAny(w.db, Next(w.db, x, Inherit(w, x, g), e), x, Inherit(w, x, g))
  {
    Movable(w, x, g);
    if !FlowDone(w.db, w.db.steps[x].flow) { NextBooked(w.db, w.db.steps[x].flow, x, Inherit(w, x, g), e); }
  }

  lemma DirectCarried(w: World, x: nat, g: nat, e: bool)
    requires Inv(w) && Transits(w, x, g)
    ensures CarriesAny(w.db, Direct(w.db, x, Inherit(w, x, g), e), x, Inherit(w, x, g))
  {
    Movable(w, x, g);
    if !FlowDone(w.db, w.db.steps[x].flow) { DirectBooked(w.db, w.db.steps[x].flow, x, Inherit(w, x, g), e); }
  }

  lemma PushCarried(w: World, x: nat, g: nat, tasks: seq<bool>, direct: nat, e: bool)
    requires Inv(w) && Transits(w, x, g) && (|tasks| > 0 || direct > 0)
    ensures CarriesAny(w.db, Push(w.db, x, Inherit(w, x, g), tasks, direct, e), x, Inherit(w, x, g))
  {
    Movable(w, x, g);
    if !FlowDone(w.db, w.db.steps[x].flow) { PushBooked(w.db, w.db.steps[x].flow, x, Inherit(w, x, g), tasks, direct, e); }
  }

  lemma ArriveCarried(w: World, x: nat, g: nat, e: bool)
    requires Inv(w) && Transits(w, x, g) && LineageDown(w.db.steps) && w.db.steps[x].lineage != 0
    ensures CarriesAny(w.db, Arrive(w.db, x, Inherit(w, x, g), e), x, Inherit(w, x, g))
  {
    Movable(w, x, g);
    ArriveCarries(w.db, x, Inherit(w, x, g), e);
  }

  lemma FinishCarried(w: World, x: nat, g: nat)
    requires Inv(w) && Transits(w, x, g) && w.db.steps[x].lineage == 0
    ensures CarriesAny(w.db, Finish(w.db, x), x, Inherit(w, x, g))
  {
    Movable(w, x, g);
    if !FlowDone(w.db, w.db.steps[x].flow) { FinishBooked(w.db, w.db.steps[x].flow, x, Inherit(w, x, g)); }
  }

  lemma FailCarried(w: World, x: nat, g: nat, c: bool)
    requires Inv(w) && (x, g) in w.jobs && LineageDown(w.db.steps)
    ensures CarriesAny(w.db, Fail(w.db, x, g, c), x, false)
  {
    if HoldMatches(w.db, x, g) {
      Failable(w, x, g);
      FailCarries(w.db, x, g, c, false);
    }
  }

  /** What a committing action writes: nothing, or what its transaction carries. */
  lemma CommitsCarry(w: World, a: Action)
    requires Inv(w) && LineageDown(w.db.steps) && Enabled(w, a) && Commits?(a)
    ensures CarriesAny(w.db, Apply(w, a).db, a.x, !a.AFail? && Inherit(w, a.x, a.g))
  {
    match a
    case ANext(x, g, e) => NextCarried(w, x, g, e);
    case ADirect(x, g, e) => DirectCarried(w, x, g, e);
    case APush(x, g, tasks, direct, e) => PushCarried(w, x, g, tasks, direct, e);
    case AArrive(x, g, e) => ArriveCarried(w, x, g, e);
    case AFinish(x, g) => FinishCarried(w, x, g);
    case AFail(x, g, c) => FailCarried(w, x, g, c);
  }

  /** Only the dispatch of the row's own generation commits anything. */
  lemma CommitsOwn(w: World, a: Action)
    requires Inv(w) && LineageDown(w.db.steps) && Enabled(w, a) && Commits?(a) && Apply(w, a).db != w.db
    ensures Own(w.db, a.x, a.g)
  {
    if !a.AFail? { Movable(w, a.x, a.g); }
  }

  lemma SameTablesParked(w: World, x: nat, g: nat)
    requires Parked(w)
    ensures Parked(World(w.db, w.jobs - {(x, g)}, w.log))
  {
    StillInHand(w, World(w.db, w.jobs - {(x, g)}, w.log), {});
  }

  lemma CommitsParked(w: World, a: Action)
    requires Inv(w) && Parked(w) && LineageDown(w.db.steps) && Enabled(w, a) && Commits?(a)
    ensures Parked(Apply(w, a))
  {
    CommitsCarry(w, a);
    if Apply(w, a).db == w.db {
      SameTablesParked(w, a.x, a.g);
    } else {
      CommitsOwn(w, a);
      CarriedParked(w, a.x, a.g, Apply(w, a).db, !a.AFail? && Inherit(w, a.x, a.g), w.log + [(a.x, a.g)]);
    }
  }

  lemma QuietParked(w: World, a: Action)
    requires Inv(w) && Parked(w) && LineageDown(w.db.steps) && Enabled(w, a) && !Commits?(a)
    ensures Parked(Apply(w, a))
  {
    match a
    case AClaim(x) => ClaimParked(w, x);
    case AMopUp(x, g) => MopUpParked(w, x, g);
    case AComplete(x, g) => CompleteParked(w, x, g);
    case ARewind(_, _) => GiveUpParked(w, a);
    case ARetry(_, _) => GiveUpParked(w, a);
    case APark(x, g) => ParkParked(w, x, g);
    case ARevive(_) => SweepParked(w, a);
    case ARecover(_) => SweepParked(w, a);
    case ACrash(_, _) => SweepParked(w, a);
    case AInterrupt(x, g, callers, fs) => InterruptParked(w, x, g, callers, fs);
    case AResume(root, x, callers, fs) => ResumeParked(w, root, x, callers, fs);
    case ATerminate(fs) => TerminateParked(w, fs);
    case AReap(fs) => ReapParked(w, fs);
    case ACreate(depth, e) => CreateParked(w, depth, e);
    case AFork(f, x, caller, m, top) => ForkParked(w, f, x, caller, m, top);
    case _ => MarkParked(w, a);
  }

  /** Every action keeps it. */
  lemma StepParked(w: World, a: Action)
    requires Inv(w) && Parked(w) && LineageDown(w.db.steps) && Enabled(w, a)
    ensures Parked(Apply(w, a))
  {
    if Commits?(a) { CommitsParked(w, a); } else { QuietParked(w, a); }
  }

  lemma MoveParked(w: World, w': World)
    requires Inv(w) && Parked(w) && Moves(w, w')
    ensures Parked(w')
  {
    var a :| Enabled(w, a) && w' == Apply(w, a);
    StepParked(w, a);
  }

  lemma {:induction false} RunParked(run: seq<World>, i: nat)
    requires Run(run) && i < |run|
    ensures Inv(run[i]) && Parked(run[i])
    decreases i
  {
    RunInv(run, i);
    if i > 0 {
      RunParked(run, i - 1);
      assert StepAt(run, i);
      MoveParked(run[i - 1], run[i]);
    }
  }

  /**
   In every reachable state a step that is not over can be claimed, is at work, awaits its child or is paused - one of
   the four, and no more: no step is parked without waiting, none is left where nothing would ever move it.
   */
  lemma OneStanding(run: seq<World>, i: nat, x: nat)
    requires Run(run) && i < |run| && x in run[i].db.steps && run[i].db.steps[x].status.Open()
    ensures var db := run[i].db;
            && (Claimable(db, x) || AtWork(db, x) || AwaitsChild(db, x) || Paused(db, x))
            && !(Claimable(db, x) && (AtWork(db, x) || AwaitsChild(db, x) || Paused(db, x)))
            && !(AtWork(db, x) && (AwaitsChild(db, x) || Paused(db, x))) && !(AwaitsChild(db, x) && Paused(db, x))
  {
    RunParked(run, i);
    assert ParkedOk(run[i].db.steps[x]);
    StandingIs(run[i].db, x);
  }

  /** A step that awaits its child is in no worker's hands: whoever holds its generation has parked it. */
  lemma AwaitingIsIdle(run: seq<World>, i: nat, x: nat)
    requires Run(run) && i < |run| && x in run[i].db.steps && (AwaitsChild(run[i].db, x) || Paused(run[i].db, x))
    ensures forall g | (x, g) in run[i].jobs && g == run[i].db.steps[x].leaseSeq :: run[i].jobs[(x, g)].phase.Owing?
  {
    RunParked(run, i);
    StandingIs(run[i].db, x);
    forall g | (x, g) in run[i].jobs && g == run[i].db.steps[x].leaseSeq ensures run[i].jobs[(x, g)].phase.Owing? {
      assert InHand(run[i], x, g);
    }
  }
}
