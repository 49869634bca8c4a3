/**
 Which action moves a step from one standing to another. Of everything workers, sweeps and operations do, exactly the
 actions named here take a step up, set it going again, park it, release it, pause it or resume it; a step that is
 inserted can be claimed at once; and a step a Terminate sealed stays sealed.
 */
module Movements {
  import opened Rows
  import opened Transactions
  import opened Shape
  import opened Accounting
  import opened Shaping
  import opened Pruning
  import opened Recount
  import opened Renaming
  import opened Forking
  import opened Machine
  import opened Leases
  import opened Carrying
  import opened Quiet
  import opened Commits
  import opened ForkSafety
  import opened Runs
  import opened Standings
  import opened ForkStands
  import opened Parking

  // ----- The rows after an action

  /** Status and parking of an existing step's row after an action. */
  ghost function StandingAfter(w: World, a: Action, x: nat): (Status, bool)
    requires LineageDown(w.db.steps) && Enabled(w, a) && x in w.db.steps
  {
    var db := w.db;
    var r := db.steps[x];
    var same := (r.status, r.parked);
    match a
    case AClaim(y) => if y == x then (Running, r.parked) else same
    case AMopUp(y, g) => if y == x then (db.flows[r.flow].status, false) else same
    case AComplete(y, g) => if y == x && CompletionMatches(db, x, g) then (Completed, r.parked) else same
    case AFail(y, g, c) => if y == x && HoldMatches(db, x, g) then (if c then Cancelled else Failed, false) else same
    case ARewind(y, g) => if y == x && HoldMatches(db, x, g) then (Pending, r.parked) else same
    case ARetry(y, g) => if y == x && RunningMatches(db, x, g) then (Pending, r.parked) else same
    case APark(y, g) => if y == x && RunningMatches(db, x, g) then (r.status, true) else same
    case ARevive(y) => if y == x && r.status.Running? && r.parked then (Pending, false) else same
    case ARecover(y) => if y == x && r.status.Running? && !r.parked then (Pending, false) else same
    case AInterrupt(y, g, callers, fs) =>
      if db.steps[y].leaseSeq == g && Interruptible(db, y, {y}) && Interruptible(db, x, callers + {y}) then (Interrupted, false) else same
    case AResume(root, y, callers, fs) =>
      if root !in db.flows || !db.flows[root].status.Interrupted? || !r.status.Interrupted? then same
      else if x == y then (Pending, r.parked) else if x in callers then (Running, true) else same
    case ATerminate(fs) => if r.flow in fs && (r.status.Open() || r.status.Created?) then (Terminated, false) else same
    case _ => same
  }

  ghost predicate StandsAfter(w: World, a: Action, x: nat)
    requires LineageDown(w.db.steps) && Enabled(w, a) && x in w.db.steps
  {
    var db' := Apply(w, a).db;
    x in db'.steps ==> (db'.steps[x].status, db'.steps[x].parked) == StandingAfter(w, a, x)
  }

  lemma CommitAfter(w: World, a: Action, x: nat)
    requires Inv(w) && LineageDown(w.db.steps) && Enabled(w, a) && Commits?(a) && x in w.db.steps
    ensures StandsAfter(w, a, x)
  {
    if a.AFail? { FailAfter(w, a.x, a.g, a.cancelled, x); } else { TransitAfter(w, a, x); }
  }

  lemma TransitAfter(w: World, a: Action, x: nat)
    requires Inv(w) && LineageDown(w.db.steps) && Enabled(w, a) && Commits?(a) && !a.AFail? && x in w.db.steps
    ensures StandsAfter(w, a, x)
  {
    TransitSame(w, a, x);
    assert StandingAfter(w, a, x) == (w.db.steps[x].status, w.db.steps[x].parked);
  }

  lemma TransitSame(w: World, a: Action, x: nat)
    requires Inv(w) && LineageDown(w.db.steps) && Enabled(w, a) && Commits?(a) && !a.AFail? && x in w.db.steps
    ensures var db' := Apply(w, a).db; x in db'.steps && db'.steps[x].status == w.db.steps[x].status && db'.steps[x].parked == w.db.steps[x].parked
  {
    if a.x == x { OwnStatus(w, a); } else { OthersSame(w, a, x); }
  }

  lemma OthersSame(w: World, a: Action, x: nat)
    requires Inv(w) && LineageDown(w.db.steps) && Enabled(w, a) && Commits?(a) && !a.AFail? && x in w.db.steps && a.x != x
    ensures var db' := Apply(w, a).db; x in db'.steps && db'.steps[x].status == w.db.steps[x].status && db'.steps[x].parked == w.db.steps[x].parked
  {
    CommitsCarry(w, a);
    var db' := Apply(w, a).db;
    if db' != w.db { OthersCarried(w.db, db', a.x, Inherit(w, a.x, a.g), x); }
  }

  lemma OthersCarried(db: Db, db': Db, y: nat, inherit: bool, x: nat)
    requires Carries(db, db', y, inherit) && x in db.steps && x != y
    ensures x in db'.steps && db'.steps[x].status == db.steps[x].status && db'.steps[x].parked == db.steps[x].parked
  {
  }

  lemma FailAfter(w: World, y: nat, g: nat, cancelled: bool, x: nat)
    requires Inv(w) && LineageDown(w.db.steps) && Enabled(w, AFail(y, g, cancelled)) && x in w.db.steps
    ensures StandsAfter(w, AFail(y, g, cancelled), x)
  {
    if HoldMatches(w.db, y, g) {
      Failable(w, y, g);
      FailEnds(w.db, y, g, cancelled);
      FailedStatus(w.db, y, g, cancelled);
    }
  }

  /** A transition leaves the status of its own step as it was. */
  lemma OwnStatus(w: World, a: Action)
    requires Inv(w) && LineageDown(w.db.steps) && Enabled(w, a) && Commits?(a) && !a.AFail?
    ensures var db' := Apply(w, a).db; a.x in db'.steps && db'.steps[a.x].status == w.db.steps[a.x].status && db'.steps[a.x].parked == w.db.steps[a.x].parked
  {
    var x, g := a.x, a.g;
    Movable(w, x, g);
    if a.AArrive? {
      ArriveOwn(w.db, x, Inherit(w, x, g), a.exitTask);
    } else if a.APush? && !FlowDone(w.db, w.db.steps[x].flow) {
      PushOwn(w.db, w.db.steps[x].flow, x, Inherit(w, x, g), a.exitTasks, a.direct, a.exitTask);
    }
  }

  lemma ArriveOwn(db: Db, x: nat, inherit: bool, exitTask: bool)
    requires WellShaped(db) && LineageDown(db.steps) && Shaping.Unmoved(db, x) && db.steps[x].lineage != 0
    ensures var db' := Arrive(db, x, inherit, exitTask); x in db'.steps && db'.steps[x].status == db.steps[x].status && db'.steps[x].parked == db.steps[x].parked
  {
    assert StepShape(db.steps, x);
    ArrivedShape(db, x);
    var db1 := db.(steps := Arrived(db.steps, x, db.steps[x].lineage));
    NestedFromShape(db1.steps);
    ResolveKeepsRow(db1, db.steps[x].lineage, x, inherit, exitTask);
  }

  lemma PushOwn(db: Db, f: nat, x: nat, inherit: bool, tasks: seq<bool>, direct: nat, exitTask: bool)
    requires WellShaped(db) && CanMove(db, f, x) && (|tasks| > 0 || direct > 0)
    ensures var db' := Push(db, x, inherit, tasks, direct, exitTask); x in db'.steps && db'.steps[x].status == db.steps[x].status && db'.steps[x].parked == db.steps[x].parked
  {
    if |tasks| > 0 {
      PushRows(db, f, x, inherit, tasks, direct, exitTask);
    } else {
      assert tasks == [];
      NoMembers(db, x);
      assert db.steps[x].lineage < x;
      var row := PushedFanIn(db, f, x, inherit, direct, exitTask);
    }
  }

  lemma ForkAfter(w: World, f: nat, x: nat, caller: bool, m: map<nat, nat>, top: nat, y: nat)
    requires Inv(w) && NewIds(w.db, f, x, caller, m, top) && y in w.db.steps
    ensures var db' := Fork(w.db, f, x, caller, m, top); y in db'.steps && db'.steps[y] == w.db.steps[y]
  {
    OriginKept(w.db, f, x, caller, m, top, y);
  }

  lemma ClaimAfter(w: World, a: Action, x: nat)
    requires Inv(w) && LineageDown(w.db.steps) && Enabled(w, a) && x in w.db.steps && (a.AClaim? || a.AMopUp? || a.AComplete?)
    ensures StandsAfter(w, a, x)
  {
  }

  lemma RewindAfter(w: World, y: nat, g: nat, x: nat)
    requires LineageDown(w.db.steps) && Enabled(w, ARewind(y, g)) && x in w.db.steps
    ensures StandsAfter(w, ARewind(y, g), x)
  {
  }

  lemma RetryAfter(w: World, y: nat, g: nat, x: nat)
    requires LineageDown(w.db.steps) && Enabled(w, ARetry(y, g)) && x in w.db.steps
    ensures StandsAfter(w, ARetry(y, g), x)
  {
  }

  lemma ParkAfter(w: World, y: nat, g: nat, x: nat)
    requires LineageDown(w.db.steps) && Enabled(w, APark(y, g)) && x in w.db.steps
    ensures StandsAfter(w, APark(y, g), x)
  {
  }

  lemma ReviveAfter(w: World, y: nat, x: nat)
    requires LineageDown(w.db.steps) && x in w.db.steps
    ensures StandsAfter(w, ARevive(y), x)
  {
  }

  lemma RecoverAfter(w: World, y: nat, x: nat)
    requires LineageDown(w.db.steps) && x in w.db.steps
    ensures StandsAfter(w, ARecover(y), x)
  {
  }

  lemma CrashAfter(w: World, y: nat, g: nat, x: nat)
    requires LineageDown(w.db.steps) && Enabled(w, ACrash(y, g)) && x in w.db.steps
    ensures StandsAfter(w, ACrash(y, g), x)
  {
  }

  lemma InterruptAfter(w: World, y: nat, g: nat, callers: set<nat>, fs: set<nat>, x: nat)
    requires LineageDown(w.db.steps) && Enabled(w, AInterrupt(y, g, callers, fs)) && x in w.db.steps
    ensures StandsAfter(w, AInterrupt(y, g, callers, fs), x)
  {
  }

  lemma ResumeAfter(w: World, root: nat, y: nat, callers: set<nat>, fs: set<nat>, x: nat)
    requires LineageDown(w.db.steps) && Enabled(w, AResume(root, y, callers, fs)) && x in w.db.steps
    ensures StandsAfter(w, AResume(root, y, callers, fs), x)
  {
    var db' := Apply(w, AResume(root, y, callers, fs)).db;
    ResumeRow(w.db, root, y, callers, fs, x);
    assert db' == Resume(w.db, root, y, callers, fs);
    assert (db'.steps[x].status, db'.steps[x].parked) == StandingAfter(w, AResume(root, y, callers, fs), x);
  }

  lemma ResumeRow(db: Db, root: nat, y: nat, callers: set<nat>, fs: set<nat>, x: nat)
    requires x in db.steps
    ensures var db' := Resume(db, root, y, callers, fs);
            x in db'.steps
            && (db'.steps[x].status, db'.steps[x].parked)
               == if root !in db.flows || !db.flows[root].status.Interrupted? || !db.steps[x].status.Interrupted? then (db.steps[x].status, db.steps[x].parked)
                  else if x == y then (Pending, db.steps[x].parked) else if x in callers then (Running, true) else (db.steps[x].status, db.steps[x].parked)
  {
  }

  lemma TerminateAfter(w: World, a: Action, x: nat)
    requires LineageDown(w.db.steps) && Enabled(w, a) && x in w.db.steps && a.ATerminate?
    ensures StandsAfter(w, a, x)
  {
  }

  lemma MarkAfter(w: World, a: Action, x: nat)
    requires LineageDown(w.db.steps) && Enabled(w, a) && x in w.db.steps && (a.AWatermark? || a.AMark? || a.AStamp?)
    ensures StandsAfter(w, a, x)
  {
  }

  lemma FlowsAfter(w: World, a: Action, x: nat)
    requires Inv(w) && LineageDown(w.db.steps) && Enabled(w, a) && x in w.db.steps && (a.AReap? || a.ACreate?)
    ensures StandsAfter(w, a, x)
  {
    assert x < w.db.nextStep;
  }

  lemma RowAfter(w: World, a: Action, x: nat)
    requires Inv(w) && LineageDown(w.db.steps) && Enabled(w, a) && x in w.db.steps
    ensures StandsAfter(w, a, x)
  {
    if Commits?(a) {
      CommitAfter(w, a, x);
    } else {
      match a
      case AClaim(_) => ClaimAfter(w, a, x);
      case AMopUp(_, _) => ClaimAfter(w, a, x);
      case AComplete(_, _) => ClaimAfter(w, a, x);
      case ARewind(y, g) => RewindAfter(w, y, g, x);
      case ARetry(y, g) => RetryAfter(w, y, g, x);
      case APark(y, g) => ParkAfter(w, y, g, x);
      case ARevive(y) => ReviveAfter(w, y, x);
      case ARecover(y) => RecoverAfter(w, y, x);
      case ACrash(y, g) => CrashAfter(w, y, g, x);
      case AInterrupt(y, g, callers, fs) => InterruptAfter(w, y, g, callers, fs, x);
      case AResume(root, y, callers, fs) => ResumeAfter(w, root, y, callers, fs, x);
      case ATerminate(_) => TerminateAfter(w, a, x);
      case AReap(_) => FlowsAfter(w, a, x);
      case ACreate(_, _) => FlowsAfter(w, a, x);
      case AFork(f, y, caller, m, top) => ForkAfter(w, f, y, caller, m, top, x);
      case _ => MarkAfter(w, a, x);
    }
  }

  /** The standings of x before and after, by the columns. */
  lemma Columns(w: World, a: Action, x: nat) returns (db': Db, q: (Status, bool))
    requires Inv(w) && Parked(w) && LineageDown(w.db.steps) && Enabled(w, a) && x in w.db.steps && x in Apply(w, a).db.steps
    ensures db' == Apply(w, a).db && q == StandingAfter(w, a, x) && ParkedOk(w.db.steps[x])
    ensures Claimable(db', x) <==> q == (Pending, false)
    ensures AwaitsChild(db', x) <==> q == (Running, true)
    ensures Paused(db', x) <==> q.0 == Interrupted
    ensures var r := w.db.steps[x];
            && (AtWork(w.db, x) <==> r.status.Running? && !r.parked) && (AwaitsChild(w.db, x) <==> r.status.Running? && r.parked)
            && (Paused(w.db, x) <==> r.status.Interrupted?)
  {
    db', q := Apply(w, a).db, StandingAfter(w, a, x);
    RowAfter(w, a, x);
    assert StandsAfter(w, a, x);
    StandingIs(w.db, x);
    StandingIs(db', x);
  }

  // ----- What may happen at any time

  /**
   Nothing stands in the way of bad luck and of operators: at any moment any lease may be found expired, any caller be
   released, any flows be terminated, marked or removed, and any dispatch crash or fail; a claimable step may be claimed,
   and a dispatch that runs a step may complete it, park it or give it up.
   */
  lemma Unhindered(w: World, x: nat, g: nat, fs: set<nat>, c: bool)
    ensures Enabled(w, ARecover(x)) && Enabled(w, ARevive(x)) && (Enabled(w, AClaim(x)) <==> Claimable(w.db, x))
    ensures Enabled(w, ATerminate(fs)) && Enabled(w, AWatermark(fs)) && Enabled(w, AMark(fs)) && Enabled(w, AReap(fs))
    ensures (x, g) in w.jobs ==> Enabled(w, ACrash(x, g)) && Enabled(w, AFail(x, g, c))
    ensures Holds(w, x, g, Exec) ==> Enabled(w, AComplete(x, g)) && Enabled(w, ARetry(x, g)) && Enabled(w, APark(x, g)) && Enabled(w, ARewind(x, g))
    ensures Holds(w, x, g, Marked) ==> Enabled(w, ARewind(x, g))
  {
  }

  /** A dispatch whose completion landed may go on to any transition its place in the graph allows. */
  lemma AnyTransition(w: World, x: nat, g: nat, tasks: seq<bool>, direct: nat, e: bool)
    requires Transits(w, x, g)
    ensures Enabled(w, ANext(x, g, e)) && Enabled(w, ADirect(x, g, e))
    ensures |tasks| > 0 || direct > 1 ==> Enabled(w, APush(x, g, tasks, direct, e))
    ensures if w.db.steps[x].lineage == 0 then Enabled(w, AFinish(x, g)) else Enabled(w, AArrive(x, g, e))
  {
  }

  // ----- What moves a step

  /** Takes the claimable step x up, or ends it. */
  ghost predicate Takes(w: World, a: Action, x: nat)
    requires x in w.db.steps
  {
    match a
    case AClaim(y) => y == x
    case AComplete(y, g) => y == x && g == w.db.steps[x].leaseSeq
    case AMopUp(y, g) => y == x
    case ATerminate(fs) => w.db.steps[x].flow in fs
    case _ => false
  }

  lemma LeavesClaimableRow(w: World, a: Action, x: nat)
    requires Parked(w) && LineageDown(w.db.steps) && Enabled(w, a) && x in w.db.steps && Claimable(w.db, x)
    ensures StandingAfter(w, a, x) != (Pending, false) <==> Takes(w, a, x)
  {
  }

  /**
   A step that can be claimed is taken up by a claim, by the completion of the dispatch that held it until its lease was
   found expired, and otherwise only ended: by a Terminate, or by the reap of its stopped flow.
   */
  lemma LeavesClaimable(w: World, a: Action, x: nat)
    requires Inv(w) && Parked(w) && LineageDown(w.db.steps) && Enabled(w, a) && Claimable(w.db, x) && x in Apply(w, a).db.steps
    ensures !Claimable(Apply(w, a).db, x) <==> Takes(w, a, x)
  {
    var db', q := Columns(w, a, x);
    LeavesClaimableRow(w, a, x);
  }

  /** Sets the step x going again. */
  ghost predicate Wakes(w: World, a: Action, x: nat)
    requires x in w.db.steps
  {
    match a
    case ARecover(y) => y == x && AtWork(w.db, x)
    case ARevive(y) => y == x && AwaitsChild(w.db, x)
    case ARewind(y, g) => y == x && HoldMatches(w.db, x, g)
    case ARetry(y, g) => y == x && RunningMatches(w.db, x, g)
    case AResume(root, y, _, _) => y == x && Paused(w.db, x) && root in w.db.flows && w.db.flows[root].status.Interrupted?
    case _ => false
  }

  lemma BecomesClaimableRow(w: World, a: Action, x: nat)
    requires Parked(w) && LineageDown(w.db.steps) && Enabled(w, a) && x in w.db.steps && !Claimable(w.db, x)
    ensures StandingAfter(w, a, x) == (Pending, false) <==> Wakes(w, a, x)
  {
    assert ParkedOk(w.db.steps[x]);
    StandingIs(w.db, x);
    if a.AComplete? || a.ARewind? || a.ARetry? || a.APark? || a.AInterrupt? { assert InHand(w, a.x, a.g); }
  }

  /**
   A step that could not be claimed can be again after exactly these: an expired lease, its child's end, its own worker
   giving it up, a resume that names it as the leaf.
   */
  lemma BecomesClaimable(w: World, a: Action, x: nat)
    requires Inv(w) && Parked(w) && LineageDown(w.db.steps) && Enabled(w, a)
    requires x in w.db.steps && !Claimable(w.db, x) && x in Apply(w, a).db.steps
    ensures Claimable(Apply(w, a).db, x) <==> Wakes(w, a, x)
  {
    var db', q := Columns(w, a, x);
    BecomesClaimableRow(w, a, x);
  }

  /** Makes the step x wait for its child. */
  ghost predicate Parks(w: World, a: Action, x: nat)
    requires x in w.db.steps
  {
    match a
    case APark(y, g) => y == x && RunningMatches(w.db, x, g)
    case AResume(root, y, callers, _) => y != x && x in callers && Paused(w.db, x) && root in w.db.flows && w.db.flows[root].status.Interrupted?
    case _ => false
  }

  lemma BecomesAwaitingRow(w: World, a: Action, x: nat)
    requires Parked(w) && LineageDown(w.db.steps) && Enabled(w, a) && x in w.db.steps && !AwaitsChild(w.db, x)
    ensures StandingAfter(w, a, x) == (Running, true) <==> Parks(w, a, x)
  {
    assert ParkedOk(w.db.steps[x]);
    StandingIs(w.db, x);
  }

  /** A step comes to await its child by its own worker's park, or as a caller on a chain that is resumed. */
  lemma BecomesAwaiting(w: World, a: Action, x: nat)
    requires Inv(w) && Parked(w) && LineageDown(w.db.steps) && Enabled(w, a)
    requires x in w.db.steps && !AwaitsChild(w.db, x) && x in Apply(w, a).db.steps
    ensures AwaitsChild(Apply(w, a).db, x) <==> Parks(w, a, x)
  {
    var db', q := Columns(w, a, x);
    BecomesAwaitingRow(w, a, x);
  }

  /** Ends the wait of x. */
  ghost predicate Releases(w: World, a: Action, x: nat)
    requires x in w.db.steps
  {
    match a
    case ARevive(y) => y == x
    case AInterrupt(y, g, callers, _) => x in callers && RunningMatches(w.db, y, g)
    case AFail(y, g, _) => y == x && g == w.db.steps[x].leaseSeq
    case AMopUp(y, g) => y == x
    case ATerminate(fs) => w.db.steps[x].flow in fs
    case _ => false
  }

  lemma LeavesAwaitingRow(w: World, a: Action, x: nat)
    requires Parked(w) && LineageDown(w.db.steps) && Enabled(w, a) && x in w.db.steps && AwaitsChild(w.db, x)
    ensures StandingAfter(w, a, x) != (Running, true) <==> Releases(w, a, x)
  {
    assert ParkedOk(w.db.steps[x]);
    StandingIs(w.db, x);
    if a.AComplete? || a.ARewind? || a.ARetry? || a.APark? || a.AInterrupt? { assert InHand(w, a.x, a.g); }
  }

  /**
   A step stops awaiting its child by the child's end, by an interrupt from below, by its worker's failure to start the
   child, by a Terminate or the reap - and by nothing else; least of all by an expired lease.
   */
  lemma LeavesAwaiting(w: World, a: Action, x: nat)
    requires Inv(w) && Parked(w) && LineageDown(w.db.steps) && Enabled(w, a) && x in w.db.steps && AwaitsChild(w.db, x)
    requires x in Apply(w, a).db.steps
    ensures !AwaitsChild(Apply(w, a).db, x) <==> Releases(w, a, x)
  {
    var db', q := Columns(w, a, x);
    LeavesAwaitingRow(w, a, x);
  }

  lemma BecomesPausedRow(w: World, a: Action, x: nat)
    requires Parked(w) && LineageDown(w.db.steps) && Enabled(w, a) && x in w.db.steps && !Paused(w.db, x)
    ensures StandingAfter(w, a, x).0 == Interrupted
            <==> a.AInterrupt? && RunningMatches(w.db, a.x, a.g) && (x == a.x || (x in a.callers && AwaitsChild(w.db, x)))
  {
    assert ParkedOk(w.db.steps[x]);
    StandingIs(w.db, x);
    if a.AComplete? || a.ARewind? || a.ARetry? || a.APark? || a.AInterrupt? { assert InHand(w, a.x, a.g); }
  }

  /** A step is paused by an interrupt of its own, or from below it, and by nothing else. */
  lemma BecomesPaused(w: World, a: Action, x: nat)
    requires Inv(w) && Parked(w) && LineageDown(w.db.steps) && Enabled(w, a)
    requires x in w.db.steps && !Paused(w.db, x) && x in Apply(w, a).db.steps
    ensures Paused(Apply(w, a).db, x)
            <==> a.AInterrupt? && RunningMatches(w.db, a.x, a.g) && (x == a.x || (x in a.callers && AwaitsChild(w.db, x)))
  {
    var db', q := Columns(w, a, x);
    BecomesPausedRow(w, a, x);
  }

  lemma LeavesPausedRow(w: World, a: Action, x: nat)
    requires Parked(w) && LineageDown(w.db.steps) && Enabled(w, a) && x in w.db.steps && Paused(w.db, x)
    ensures StandingAfter(w, a, x).0 != Interrupted
            <==> || (a.AResume? && a.root in w.db.flows && w.db.flows[a.root].status.Interrupted? && (x == a.x || x in a.callers))
                 || (a.ATerminate? && w.db.steps[x].flow in a.fs) || (a.AMopUp? && a.x == x)
  {
    assert ParkedOk(w.db.steps[x]);
    StandingIs(w.db, x);
    if a.AComplete? || a.ARewind? || a.ARetry? || a.APark? || a.AInterrupt? { assert InHand(w, a.x, a.g); }
  }

  /** A pause is ended by a resume that names the step, by a Terminate, or by the reap. */
  lemma LeavesPaused(w: World, a: Action, x: nat)
    requires Inv(w) && Parked(w) && LineageDown(w.db.steps) && Enabled(w, a) && x in w.db.steps && Paused(w.db, x)
    requires x in Apply(w, a).db.steps
    ensures !Paused(Apply(w, a).db, x)
            <==> || (a.AResume? && a.root in w.db.flows && w.db.flows[a.root].status.Interrupted? && (x == a.x || x in a.callers))
                 || (a.ATerminate? && w.db.steps[x].flow in a.fs) || (a.AMopUp? && a.x == x)
  {
    var db', q := Columns(w, a, x);
    LeavesPausedRow(w, a, x);
  }

  /**
   A dispatch learns of a Cancel that marked its step before the claim by the claim, and of one that marked it while it ran
   by the completion: from then on it is covered exactly if its step is marked, and so is not asked to cancel again.
   */
  lemma LearnsOfCancel(w: World, x: nat, g: nat)
    requires Inv(w) && LineageDown(w.db.steps)
    ensures Claimable(w.db, x) ==>
              var w' := Apply(w, AClaim(x));
              Holds(w', x, w'.db.steps[x].leaseSeq, Exec) && (w'.jobs[(x, w'.db.steps[x].leaseSeq)].covered <==> w.db.steps[x].cancelling)
    ensures Holds(w, x, g, Exec) && CompletionMatches(w.db, x, g) ==>
              var w' := Apply(w, AComplete(x, g));
              Holds(w', x, g, Marked) && (w'.jobs[(x, g)].covered <==> w.db.steps[x].cancelling)
  {
    if Holds(w, x, g, Exec) && CompletionMatches(w.db, x, g) { assert JobOk(w, x, g); }
  }

  // ----- Steps that are new

  lemma AddedReady(w: World, db': Db, x: nat, inherit: bool)
    requires Carries(w.db, db', x, inherit)
    ensures forall y <- db'.steps | y !in w.db.steps :: Claimable(db', y) && db'.steps[y].leaseSeq == 0
  {
    forall y | y in db'.steps && y !in w.db.steps ensures Claimable(db', y) && db'.steps[y].leaseSeq == 0 {
      assert AddedRow(w.db, x, inherit, db'.steps[y]);
    }
  }

  /** Only transitions, the creation of a flow and a fork insert steps. */
  lemma InsertsNothing(w: World, a: Action)
    requires LineageDown(w.db.steps) && Enabled(w, a) && !Commits?(a) && !a.ACreate? && !a.AFork? && !a.AResume? && !a.AInterrupt?
    ensures Apply(w, a).db.steps.Keys <= w.db.steps.Keys
  {
  }

  lemma ResumeInsertsNothing(w: World, a: Action)
    requires LineageDown(w.db.steps) && Enabled(w, a) && (a.AResume? || a.AInterrupt?)
    ensures Apply(w, a).db.steps.Keys <= w.db.steps.Keys
  {
    if a.AResume? { ResumeRows(w.db, a.root, a.x, a.callers, a.fs); }
  }

  /** Whatever an action but a fork inserts can be claimed from the start, and has not been before. */
  lemma InsertedReady(w: World, a: Action)
    requires Inv(w) && LineageDown(w.db.steps) && Enabled(w, a) && !a.AFork?
    ensures var db' := Apply(w, a).db;
            forall y <- db'.steps | y !in w.db.steps :: Claimable(db', y) && db'.steps[y].leaseSeq == 0
  {
    if Commits?(a) {
      CommitInserts(w, a);
    } else if a.AResume? || a.AInterrupt? {
      ResumeInsertsNothing(w, a);
    } else if !a.ACreate? {
      InsertsNothing(w, a);
    }
  }

  lemma CommitInserts(w: World, a: Action)
    requires Inv(w) && LineageDown(w.db.steps) && Enabled(w, a) && Commits?(a)
    ensures var db' := Apply(w, a).db;
            forall y <- db'.steps | y !in w.db.steps :: Claimable(db', y) && db'.steps[y].leaseSeq == 0
  {
    CommitsCarry(w, a);
    var db' := Apply(w, a).db;
    if db' != w.db {
      AddedReady(w, db', a.x, !a.AFail? && Inherit(w, a.x, a.g));
    }
  }

  /** A new flow runs, uncancelled, with its entry step alone, which can be claimed; no other flow and no other step changes. */
  lemma CreateStarts(db: Db, depth: nat, exitTask: bool)
    requires Ids(db)
    ensures var db', f, y := Create(db, depth, exitTask), db.nextFlow, db.nextStep;
            && f !in db.flows && y !in db.steps && db'.flows == db.flows[f := Flow(Running, 0)]
            && db'.steps.Keys == db.steps.Keys + {y} && (forall z <- db.steps :: db'.steps[z] == db.steps[z])
            && Claimable(db', y) && db'.steps[y].flow == f && db'.steps[y].lineage == 0 && db'.steps[y].pred == 0
            && db'.steps[y].depth == depth && db'.steps[y].exitTask == exitTask && !db'.steps[y].cancelling
  {
  }

  /** A row that transaction on x inserted as y, for a task with an ordinary edge to the fan-in or without. */
  ghost predicate InsertedAs(db: Db, db': Db, x: nat, y: nat, exitTask: bool)
    requires x in db.steps
  {
    && y !in db.steps && y in db'.steps && Claimable(db', y) && db'.steps[y].pred == x && db'.steps[y].flow == db.steps[x].flow
    && db'.steps[y].depth > db.steps[x].depth && db'.steps[y].exitTask == exitTask && db'.steps[y].succ == 0
  }

  /** A transition to one successor inserts that step alone, where x left off, and links x to it. */
  lemma NextInserts(db: Db, x: nat, inherit: bool, exitTask: bool)
    requires Ids(db) && x in db.steps && !FlowDone(db, db.steps[x].flow)
    ensures var db', y := Next(db, x, inherit, exitTask), db.nextStep;
            && db'.steps.Keys == db.steps.Keys + {y} && InsertedAs(db, db', x, y, exitTask) && SameBranch(db'.steps[y], db.steps[x])
            && db'.steps[x].succ == y && (forall z <- db.steps | z != x :: db'.steps[z] == db.steps[z]) && db'.flows == db.flows
    ensures var db', y := Direct(db, x, inherit, exitTask), db.nextStep;
            && db'.steps.Keys == db.steps.Keys + {y} && InsertedAs(db, db', x, y, exitTask) && SameBranch(db'.steps[y], db.steps[x])
            && db'.steps[x].succ == y && (forall z <- db.steps | z != x :: db'.steps[z] == db.steps[z]) && db'.flows == db.flows
  {
  }

  lemma BranchInserted(db: Db, db': Db, x: nat, inherit: bool, tasks: seq<bool>, i: nat)
    requires Ids(db) && x in db.steps && db.steps[x].flow in db.flows && i < |tasks|
    requires db.nextStep + i in db'.steps && db'.steps[db.nextStep + i] == Branch(db, x, inherit, tasks, i)
    ensures InsertedAs(db, db', x, db.nextStep + i, tasks[i])
    ensures db'.steps[db.nextStep + i].lineage == x && db'.steps[db.nextStep + i].ordinal == i
  {
  }

  /** The branch i of x is there, with its own task's flag. */
  ghost predicate HasBranch(db: Db, db': Db, x: nat, tasks: seq<bool>, i: nat)
    requires i < |tasks| && x in db.steps
  {
    var y := db.nextStep + i;
    InsertedAs(db, db', x, y, tasks[i]) && db'.steps[y].lineage == x && db'.steps[y].ordinal == i
  }

  /** A fan-out inserts one step a branch: the i-th has ordinal i and its own task's flag, and all belong to the cohort of x. */
  lemma PushInserts(db: Db, x: nat, inherit: bool, tasks: seq<bool>, direct: nat, e: bool)
    requires Ids(db) && x in db.steps && !FlowDone(db, db.steps[x].flow) && Moving(db.steps, db.steps[x].flow, x) && |tasks| > 0
    ensures var db' := Push(db, x, inherit, tasks, direct, e);
            && (forall y :: y in db'.steps <==> y in db.steps || db.nextStep <= y < db.nextStep + |tasks|)
            && (forall i :: 0 <= i < |tasks| ==> HasBranch(db, db', x, tasks, i))
            && db'.steps[x].succ == db.nextStep && (forall z <- db.steps | z != x :: db'.steps[z] == db.steps[z]) && db'.flows == db.flows
  {
    PushRows(db, db.steps[x].flow, x, inherit, tasks, direct, e);
    var q := PushedRow(db, x, |tasks|, direct);
    var db' := db.(steps := db.steps[x := q] + Branches(db, x, inherit, tasks, |tasks|), nextStep := db.nextStep + |tasks|);
    assert db' == Push(db, x, inherit, tasks, direct, e);
    RowsInserted(db, x, inherit, tasks, q);
  }

  lemma RowsInserted(db: Db, x: nat, inherit: bool, tasks: seq<bool>, q: Step)
    requires Ids(db) && x in db.steps && db.steps[x].flow in db.flows && q.flow == db.steps[x].flow && q.depth == db.steps[x].depth
    ensures var db' := db.(steps := db.steps[x := q] + Branches(db, x, inherit, tasks, |tasks|), nextStep := db.nextStep + |tasks|);
            && (forall y :: y in db'.steps <==> y in db.steps || db.nextStep <= y < db.nextStep + |tasks|)
            && (forall i :: 0 <= i < |tasks| ==> HasBranch(db, db', x, tasks, i))
            && db'.steps[x] == q && (forall z <- db.steps | z != x :: db'.steps[z] == db.steps[z])
  {
    var rows := Branches(db, x, inherit, tasks, |tasks|);
    var db' := db.(steps := db.steps[x := q] + rows, nextStep := db.nextStep + |tasks|);
    forall i: nat | i < |tasks| ensures HasBranch(db, db', x, tasks, i) {
      assert db.nextStep + i in rows;
      BranchInserted(db, db', x, inherit, tasks, i);
    }
  }

  /**
   A convergence inserts the fan-in alone, for its own task, after the step that arrived last, and links to it exactly the
   members that have no successor and ran a task with an ordinary edge to it - so not those that left by a goto.
   */
  lemma FanInInserts(db: Db, t: nat, x: nat, inherit: bool, exitTask: bool)
    requires Ids(db) && t in db.steps && x in db.steps && db.steps[x].flow == db.steps[t].flow && db.steps[x].flow in db.flows
    ensures var db', y := InsertFanIn(db, t, x, inherit, exitTask), db.nextStep;
            && db'.steps.Keys == db.steps.Keys + {y} && InsertedAs(db, db', x, y, exitTask) && SameBranch(db'.steps[y], db.steps[t])
            && db'.flows == db.flows
    ensures var db', y := InsertFanIn(db, t, x, inherit, exitTask), db.nextStep;
            forall z <- db.steps | z != t :: z in db'.steps && db'.steps[z] == db.steps[z].(succ := db'.steps[z].succ)
              && (db'.steps[z].succ != db.steps[z].succ ==> db'.steps[z].succ == y)
              && (db.steps[z].succ == 0 ==> (db'.steps[z].succ == y <==> InCohort(db.steps[z], db.steps[t].flow, t) && db.steps[z].exitTask))
              && (db.steps[z].succ != 0 ==> db'.steps[z].succ == db.steps[z].succ)
  {
  }

  // ----- Terminate, over whole runs

  lemma SealedStays(w: World, a: Action, x: nat)
    requires Inv(w) && Parked(w) && LineageDown(w.db.steps) && Enabled(w, a) && x in w.db.steps && x in Apply(w, a).db.steps
    requires w.db.steps[x].status.Terminated? && (w.db.steps[x].flow in w.db.flows ==> w.db.flows[w.db.steps[x].flow].status.Terminated?)
    ensures Apply(w, a).db.steps[x].status.Terminated? && Apply(w, a).db.steps[x].flow == w.db.steps[x].flow
  {
    var db', q := Columns(w, a, x);
    SealedRow(w, a, x);
    EnabledMoves(w, a);
    MoveGood(w, Apply(w, a));
    RowAfter(w, a, x);
    assert StandsAfter(w, a, x);
  }

  lemma SealedRow(w: World, a: Action, x: nat)
    requires Parked(w) && LineageDown(w.db.steps) && Enabled(w, a) && x in w.db.steps
    requires w.db.steps[x].status.Terminated? && (w.db.steps[x].flow in w.db.flows ==> w.db.flows[w.db.steps[x].flow].status.Terminated?)
    ensures StandingAfter(w, a, x).0.Terminated?
  {
    if a.AMopUp? && a.x == x { assert w.db.steps[x].flow in w.db.flows; }
  }

  /** Step x of flow f was terminated with it, or its row is gone. */
  ghost predicate CutShort(w: World, x: nat, f: nat) {
    x < w.db.nextStep
    && (x in w.db.steps ==> w.db.steps[x].status.Terminated? && w.db.steps[x].flow == f && f in w.db.flows && w.db.flows[f].status.Terminated?)
  }

  lemma CutShortStays(w: World, w': World, x: nat, f: nat)
    requires Inv(w) && Parked(w) && Moves(w, w') && CutShort(w, x, f)
    ensures CutShort(w', x, f)
  {
    var a :| Enabled(w, a) && w' == Apply(w, a);
    MoveGood(w, w');
    if x in w'.db.steps {
      assert x in w.db.steps;
      SealedStays(w, a, x);
    }
  }

  lemma NextCutShort(run: seq<World>, j: nat, x: nat, f: nat)
    requires Run(run) && 0 < j < |run| && CutShort(run[j - 1], x, f)
    ensures CutShort(run[j], x, f)
  {
    RunParked(run, j - 1);
    assert StepAt(run, j);
    CutShortStays(run[j - 1], run[j], x, f);
  }

  lemma {:induction false} StaysCutShort(run: seq<World>, i: nat, j: nat, x: nat, f: nat)
    requires Run(run) && i <= j < |run| && CutShort(run[i], x, f)
    ensures CutShort(run[j], x, f)
    decreases j - i
  {
    if i < j {
      StaysCutShort(run, i, j - 1, x, f);
      NextCutShort(run, j, x, f);
    }
  }

  /**
   From a Terminate on, over any run, every step it found open in a flow that had not stopped is sealed for as long as
   its row is there: no worker that was on it writes it, no child and no sweep wakes it, no resume or reap changes it.
   */
  lemma TerminatedForGood(run: seq<World>, i: nat, j: nat, fs: set<nat>, x: nat)
    requires Run(run) && 0 < i <= j < |run| && run[i].db == Terminate(run[i - 1].db, fs)
    requires x in run[i - 1].db.steps && run[i - 1].db.steps[x].status.Open() && run[i - 1].db.steps[x].flow in fs
    requires !FlowDone(run[i - 1].db, run[i - 1].db.steps[x].flow)
    ensures x in run[j].db.steps ==> Sealed(run[j].db, x)
  {
    RunInv(run, i - 1);
    TerminateSeals(run[i - 1].db, fs);
    StaysCutShort(run, i, j, x, run[i - 1].db.steps[x].flow);
    if x in run[j].db.steps { StandingIs(run[j].db, x); }
  }
}
