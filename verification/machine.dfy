/**
 The engine as a state machine: the tables, the dispatches in flight, and one action per atomic write. A
 dispatch is known by the step it claimed and the lease generation it claimed it with; what it holds besides
 is where it stands and whether the step it runs is covered by a Cancel.
 */
module Machine {
  import opened Rows
  import opened Transactions
  import opened Recount
  import opened Forking

  /**
   - Exec: claimed, its outcome not written yet;
   - Marked: the completion write landed, the transition has not committed;
   - Owing: the step is parked, the child flow not inserted yet.
   */
  datatype Phase = Exec | Marked | Owing

  datatype Job = Job(phase: Phase, covered: bool)

  /** `log` is a history variable: the generations that committed a step's transition or counted its loss. */
  datatype World = World(db: Db, jobs: map<(nat, nat), Job>, log: seq<(nat, nat)>)

  datatype Action =
    | AClaim(x: nat)
    | AMopUp(x: nat, g: nat)
    | AComplete(x: nat, g: nat)
    | ANext(x: nat, g: nat, exitTask: bool)
    | ADirect(x: nat, g: nat, exitTask: bool)
    | APush(x: nat, g: nat, exitTasks: seq<bool>, direct: nat, exitTask: bool)
    | AArrive(x: nat, g: nat, exitTask: bool)
    | AFinish(x: nat, g: nat)
    | AFail(x: nat, g: nat, cancelled: bool)
    | ARewind(x: nat, g: nat)
    | ARetry(x: nat, g: nat)
    | APark(x: nat, g: nat)
    | ARevive(x: nat)
    | ARecover(x: nat)
    | AInterrupt(x: nat, g: nat, callers: set<nat>, fs: set<nat>)
    | AResume(root: nat, x: nat, callers: set<nat>, fs: set<nat>)
    | ATerminate(fs: set<nat>)
    | AWatermark(fs: set<nat>)
    | AMark(fs: set<nat>)
    | AStamp(f: nat)
    | AReap(fs: set<nat>)
    | ACreate(depth: nat, exitTask: bool)
    | AFork(f: nat, x: nat, caller: bool, ids: map<nat, nat>, top: nat)
    | ACrash(x: nat, g: nat)

  predicate Holds(w: World, x: nat, g: nat, phase: Phase) {
    (x, g) in w.jobs && w.jobs[(x, g)].phase == phase
  }

  /** A transition runs for a dispatch whose completion write landed, while its step's row is still there. */
  predicate Transits(w: World, x: nat, g: nat) {
    Holds(w, x, g, Marked) && x in w.db.steps && x < w.db.nextStep
  }

  ghost predicate Enabled(w: World, a: Action) {
    var db := w.db;
    match a
    case AClaim(x) => Claimable(db, x)
    case AMopUp(x, g) =>
      Holds(w, x, g, Exec) && x in db.steps && db.steps[x].flow in db.flows
      && db.flows[db.steps[x].flow].status.Terminal()
    case AComplete(x, g) => Holds(w, x, g, Exec)
    case ANext(x, g, _) => Transits(w, x, g)
    case ADirect(x, g, _) => Transits(w, x, g)
    case APush(x, g, tasks, direct, _) => Transits(w, x, g) && (|tasks| > 0 || direct > 1)
    case AArrive(x, g, _) => Transits(w, x, g) && db.steps[x].lineage != 0
    case AFinish(x, g) => Transits(w, x, g) && db.steps[x].lineage == 0
    case AFail(x, g, _) => (x, g) in w.jobs
    case ARewind(x, g) => (x, g) in w.jobs && !w.jobs[(x, g)].phase.Owing?
    case ARetry(x, g) => Holds(w, x, g, Exec)
    case APark(x, g) => Holds(w, x, g, Exec)
    case ARevive(x) => true
    case ARecover(x) => true
    case AInterrupt(x, g, callers, _) =>
      Holds(w, x, g, Exec) && x in db.steps && x !in callers
      && forall y <- callers | y in db.steps && db.steps[y].status.Running? :: db.steps[y].parked
    case AResume(_, x, callers, _) => x !in callers
    case ACrash(x, g) => (x, g) in w.jobs
    case AFork(f, x, caller, ids, top) =>
      x in db.steps && db.steps[x].flow == f && Fits(db.steps, f, x) && NewIds(db, f, x, caller, ids, top)
    case _ => true
  }

  /** A dispatch leaves: the write it ends with has been made. */
  function Leave(w: World, x: nat, g: nat, db: Db): World {
    w.(db := db, jobs := w.jobs - {(x, g)})
  }

  /** A dispatch leaves with a transition or a loss, entered in the log when it had an effect. */
  function Commit(w: World, x: nat, g: nat, db: Db): World {
    World(db, w.jobs - {(x, g)}, if db == w.db then w.log else w.log + [(x, g)])
  }

  function Inherit(w: World, x: nat, g: nat): bool
    requires (x, g) in w.jobs
  {
    !w.jobs[(x, g)].covered
  }

  ghost function Apply(w: World, a: Action): World
    requires LineageDown(w.db.steps) && Enabled(w, a)
  {
    var db := w.db;
    match a
    case AClaim(x) =>
      var db' := Claim(db, x);
      w.(db := db', jobs := w.jobs[(x, db'.steps[x].leaseSeq) := Job(Exec, db.steps[x].cancelling)])
    case AMopUp(x, g) => Leave(w, x, g, MopUp(db, x))
    case AComplete(x, g) =>
      if CompletionMatches(db, x, g) then
        w.(db := Complete(db, x, g),
           jobs := w.jobs[(x, g) := Job(Marked, w.jobs[(x, g)].covered || db.steps[x].cancelling)])
      else Leave(w, x, g, db)
    case ANext(x, g, e) => Commit(w, x, g, Next(db, x, Inherit(w, x, g), e))
    case ADirect(x, g, e) => Commit(w, x, g, Direct(db, x, Inherit(w, x, g), e))
    case APush(x, g, tasks, direct, e) => Commit(w, x, g, Push(db, x, Inherit(w, x, g), tasks, direct, e))
    case AArrive(x, g, e) => Commit(w, x, g, Arrive(db, x, Inherit(w, x, g), e))
    case AFinish(x, g) => Commit(w, x, g, Finish(db, x))
    case AFail(x, g, c) => Commit(w, x, g, Fail(db, x, g, c))
    case ARewind(x, g) => Leave(w, x, g, Rewind(db, x, g))
    case ARetry(x, g) => Leave(w, x, g, Retry(db, x, g))
    case APark(x, g) =>
      if RunningMatches(db, x, g) then w.(db := Park(db, x, g), jobs := w.jobs[(x, g) := w.jobs[(x, g)].(phase := Owing)])
      else Leave(w, x, g, db)
    case ARevive(x) => w.(db := Revive(db, x))
    case ARecover(x) => w.(db := Recover(db, x))
    case AInterrupt(x, g, callers, fs) => Leave(w, x, g, Interrupt(db, x, g, callers, fs))
    case AResume(root, x, callers, fs) => w.(db := Resume(db, root, x, callers, fs))
    case ATerminate(fs) => w.(db := Terminate(db, fs))
    case AWatermark(fs) => w.(db := Watermark(db, fs))
    case AMark(fs) => w.(db := Mark(db, fs))
    case AStamp(f) => w.(db := Stamp(db, f))
    case AReap(fs) => w.(db := Reap(db, fs))
    case ACreate(depth, e) => w.(db := Create(db, depth, e))
    case AFork(f, x, caller, ids, top) => w.(db := Fork(db, f, x, caller, ids, top))
    case ACrash(x, g) => Leave(w, x, g, db)
  }

  ghost predicate Init(w: World) {
    w == World(Db(map[], map[], 1, 1), map[], [])
  }

  /** One atomic write by any worker, operation or sweep. (Every reachable table has downward lineages.) */
  ghost predicate Moves(w: World, w': World) {
    LineageDown(w.db.steps) && exists a :: Enabled(w, a) && w' == Apply(w, a)
  }

  ghost predicate StepAt(run: seq<World>, i: int) {
    0 < i < |run| ==> Moves(run[i - 1], run[i])
  }

  /** A run: worlds reached one after the other from empty tables. */
  ghost predicate Run(run: seq<World>) {
    |run| > 0 && Init(run[0]) && forall i {:trigger StepAt(run, i)} :: StepAt(run, i)
  }
}
