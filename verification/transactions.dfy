/**
 What each transaction and each standalone guarded UPDATE of the engine does to the two tables, as a
 function from the tables before to the tables after. A statement whose WHERE matches no row changes
 nothing.
 */
module Transactions {
  import opened Rows

  function Min(a: nat, b: nat): nat { if a < b then a else b }

  function Max(a: nat, b: nat): nat { if a < b then b else a }

  // ----- Step lifecycle

  predicate Claimable(db: Db, x: nat) {
    x in db.steps && db.steps[x].status.Pending? && !db.steps[x].parked
  }

  /** The claim CAS: pending to running, and a new lease generation. */
  function Claim(db: Db, x: nat): Db
    requires Claimable(db, x)
  {
    var r := db.steps[x];
    db.(steps := db.steps[x := r.(status := Running, leaseSeq := r.leaseSeq + 1)])
  }

  /** The claim-time reap of a step whose flow has already stopped. Its WHERE names the step id alone. */
  function MopUp(db: Db, x: nat): Db
    requires x in db.steps && db.steps[x].flow in db.flows
  {
    var r := db.steps[x];
    db.(steps := db.steps[x := r.(status := db.flows[r.flow].status, parked := false)])
  }

  predicate CompletionMatches(db: Db, x: nat, g: nat) {
    x in db.steps && db.steps[x].leaseSeq == g
    && !db.steps[x].status.Terminated? && !db.steps[x].status.Cancelled?
  }

  /** The completion write of generation g. */
  function Complete(db: Db, x: nat, g: nat): Db {
    if CompletionMatches(db, x, g) then
      db.(steps := db.steps[x := db.steps[x].(status := Completed)])
    else db
  }

  predicate HoldMatches(db: Db, x: nat, g: nat) {
    x in db.steps && db.steps[x].leaseSeq == g
    && (db.steps[x].status.Running? || db.steps[x].status.Completed?)
  }

  /** The reset of the recovery defer, and the lease release of a draining worker. */
  function Rewind(db: Db, x: nat, g: nat): Db {
    if HoldMatches(db, x, g) then
      db.(steps := db.steps[x := db.steps[x].(status := Pending)])
    else db
  }

  /** Lease recovery of one step whose lease has expired: no fence, and no new generation. */
  function Recover(db: Db, x: nat): Db {
    if x in db.steps && db.steps[x].status.Running? && !db.steps[x].parked then
      db.(steps := db.steps[x := db.steps[x].(status := Pending)])
    else db
  }

  predicate RunningMatches(db: Db, x: nat, g: nat) {
    x in db.steps && db.steps[x].leaseSeq == g && db.steps[x].status.Running?
  }

  /** Parking a subgraph caller. */
  function Park(db: Db, x: nat, g: nat): Db {
    if RunningMatches(db, x, g) then
      db.(steps := db.steps[x := db.steps[x].(parked := true)])
    else db
  }

  /** Releasing a parked caller, with its child's result or with its child's error. */
  function Revive(db: Db, x: nat): Db {
    if x in db.steps && db.steps[x].status.Running? && db.steps[x].parked then
      db.(steps := db.steps[x := db.steps[x].(status := Pending, parked := false)])
    else db
  }

  /** flow.Retry: the rewind of a step in place. */
  function Retry(db: Db, x: nat, g: nat): Db {
    if RunningMatches(db, x, g) then
      db.(steps := db.steps[x := db.steps[x].(status := Pending)])
    else db
  }

  // ----- Fan-out accounting

  function Bump(r: Step, cancelled: bool): Step {
    r.(arrivals := r.arrivals + 1, failures := r.failures + 1,
       cancellations := r.cancellations + if cancelled then 1 else 0)
  }

  /** Every step's lineage names an older step, so walking lineages upward ends at the trunk. */
  ghost predicate LineageDown(steps: map<nat, Step>) {
    forall y {:trigger steps[y].lineage} ::
      y in steps ==> steps[y].lineage < y && (steps[y].lineage != 0 ==> steps[y].lineage in steps)
  }

  /** Where a loss ends up: absorbed by a cohort that is still waiting, or lost by the flow. */
  datatype Outcome = Contained | FlowLost(cancelled: bool)

  /** propagateCohortFailure: the loss of one branch of cur's cohort, carried up while cohorts resolve. */
  ghost function Propagate(steps: map<nat, Step>, cur: nat, cancelled: bool): (r: (map<nat, Step>, Outcome))
    requires LineageDown(steps) && cur in steps
    decreases cur
  {
    var b := Bump(steps[cur], cancelled);
    var steps1 := steps[cur := b];
    if b.arrivals < b.size then (steps1, Contained)
    else if b.lineage == 0 then (steps1, FlowLost(b.cancellations == b.failures))
    else Propagate(steps1, b.lineage, b.cancellations == b.failures)
  }

  /** The flow row of a flow resolving as a loss; a stopped flow is left alone. */
  function LoseFlow(db: Db, f: nat, cancelled: bool): Db {
    if FlowDone(db, f) then db
    else db.(flows := db.flows[f := db.flows[f].(status := if cancelled then Cancelled else Failed)])
  }

  ghost function SettleLoss(db: Db, f: nat, p: (map<nat, Step>, Outcome)): Db {
    match p.1
    case Contained => db.(steps := p.0)
    case FlowLost(c) => LoseFlow(db.(steps := p.0), f, c)
  }

  /** Step y was lost: the loss goes to the cohort it belongs to, or to the flow when y is on the trunk. */
  ghost function Lose(db: Db, y: nat, cancelled: bool): Db
    requires LineageDown(db.steps) && y in db.steps
  {
    var r := db.steps[y];
    if r.lineage == 0 then LoseFlow(db, r.flow, cancelled)
    else SettleLoss(db, r.flow, Propagate(db.steps, r.lineage, cancelled))
  }

  function FailedRow(r: Step, cancelled: bool): Step {
    r.(status := if cancelled then Cancelled else Failed, parked := false)
  }

  /** The tables with the row of the failing step x written. */
  function Failing(db: Db, x: nat, cancelled: bool): Db
    requires x in db.steps
  {
    db.(steps := db.steps[x := FailedRow(db.steps[x], cancelled)])
  }

  /** failStep's transaction: x fails in generation g, as a cancellation or not. */
  ghost function Fail(db: Db, x: nat, g: nat, cancelled: bool): Db
    requires LineageDown(db.steps)
  {
    if !HoldMatches(db, x, g) then db
    else
      var db1 := Failing(db, x, cancelled);
      assert forall y <- db1.steps :: db1.steps[y].lineage == db.steps[y].lineage;
      Lose(db1, x, cancelled)
  }

  /** The mark an inserted successor starts with: inherited from a source that the Cancel's watermark covers. */
  function InheritedMark(db: Db, x: nat, inherit: bool): bool
    requires x in db.steps && db.steps[x].flow in db.flows
  {
    inherit && x <= db.flows[db.steps[x].flow].watermark
  }

  /** The transition of x to one ordinary successor. */
  function Next(db: Db, x: nat, inherit: bool, exitTask: bool): Db
    requires x in db.steps
  {
    var r := db.steps[x];
    if FlowDone(db, r.flow) then db
    else
      var y := db.nextStep;
      db.(steps := db.steps[x := r.(settled := true, succ := y, next := y)]
                           [y := NewStep(r.flow, r.lineage, r.head, x, r.ordinal, r.depth + 1,
                                         InheritedMark(db, x, inherit), exitTask)],
          nextStep := y + 1)
  }

  /** fireFanInDirect: a fan-out source converging on its own fan-in with no branches. */
  function Direct(db: Db, x: nat, inherit: bool, exitTask: bool): Db
    requires x in db.steps
  {
    var r := db.steps[x];
    if FlowDone(db, r.flow) then db
    else
      var y := db.nextStep;
      db.(steps := db.steps[x := r.(settled := true, succ := y, next := y, size := 0)]
                           [y := NewStep(r.flow, r.lineage, r.head, x, r.ordinal, r.depth + 1,
                                         InheritedMark(db, x, inherit), exitTask)],
          nextStep := y + 1)
  }

  /** The i-th branch of a fan-out of x: the flags say which branches run a task with an edge to the fan-in. */
  function Branch(db: Db, x: nat, inherit: bool, exitTasks: seq<bool>, i: nat): Step
    requires x in db.steps && db.steps[x].flow in db.flows && i < |exitTasks|
  {
    NewStep(db.steps[x].flow, x, db.nextStep + i, x, i, db.steps[x].depth + 1,
            InheritedMark(db, x, inherit), exitTasks[i])
  }

  /** The first n branches, one inserted after the other. */
  function Branches(db: Db, x: nat, inherit: bool, exitTasks: seq<bool>, n: nat): (m: map<nat, Step>)
    requires x in db.steps && db.steps[x].flow in db.flows && n <= |exitTasks|
    ensures forall y :: y in m <==> db.nextStep <= y < db.nextStep + n
    ensures forall y <- m :: m[y] == Branch(db, x, inherit, exitTasks, y - db.nextStep)
  {
    if n == 0 then map[]
    else Branches(db, x, inherit, exitTasks, n - 1)
           [db.nextStep + n - 1 := Branch(db, x, inherit, exitTasks, n - 1)]
  }

  /** The row of the spawn x once its n branches are inserted and its direct edges have arrived. */
  function PushedRow(db: Db, x: nat, n: nat, direct: nat): Step
    requires x in db.steps
  {
    var r := db.steps[x];
    r.(settled := true, spawned := true, size := n + direct, arrivals := r.arrivals + direct,
       succ := if n > 0 then db.nextStep else r.succ)
  }

  /** The tables with the branches of x inserted. */
  function FannedOut(db: Db, x: nat, inherit: bool, exitTasks: seq<bool>, direct: nat): Db
    requires x in db.steps && db.steps[x].flow in db.flows
  {
    var n := |exitTasks|;
    db.(steps := db.steps[x := PushedRow(db, x, n, direct)] + Branches(db, x, inherit, exitTasks, n), nextStep := db.nextStep + n)
  }

  /**
   The fan-out transition of x: one branch per flag, and `direct` edges that lead straight to the fan-in and
   so arrive with the spawn itself. With no branch at all the cohort resolves on the spot.
   */
  ghost function Push(db: Db, x: nat, inherit: bool, exitTasks: seq<bool>, direct: nat, exitTask: bool): Db
    requires x in db.steps && x < db.nextStep
  {
    if FlowDone(db, db.steps[x].flow) then db
    else
      var r1 := PushedRow(db, x, |exitTasks|, direct);
      if direct > 0 && r1.size > 0 && r1.arrivals >= r1.size && r1.failures == 0
      then InsertFanIn(FannedOut(db, x, inherit, exitTasks, direct), x, x, inherit, exitTask)
      else FannedOut(db, x, inherit, exitTasks, direct)
  }

  /** The depth below every member of t's cohort, at least `floor`. */
  ghost function CohortFloor(steps: map<nat, Step>, f: nat, t: nat, floor: nat): (d: nat)
    ensures d >= floor
    ensures forall y <- steps | InCohort(steps[y], f, t) :: steps[y].depth < d
    ensures d == floor || exists y <- steps :: InCohort(steps[y], f, t) && steps[y].depth + 1 == d
    decreases steps
  {
    if steps == map[] then floor
    else
      var y :| y in steps;
      assert forall z <- steps :: z == y || z in steps - {y};
      var rest := CohortFloor(steps - {y}, f, t, floor);
      if InCohort(steps[y], f, t) && steps[y].depth >= rest then steps[y].depth + 1 else rest
  }

  /** The successor links of t's cohort once it converges on the step about to be inserted. */
  ghost function LinkedRows(db: Db, t: nat): map<nat, Step>
    requires t in db.steps
  {
    map y | y in db.steps ::
      if y == t then db.steps[t].(next := db.nextStep)
      else if InCohort(db.steps[y], db.steps[t].flow, t) && db.steps[y].exitTask && db.steps[y].succ == 0
      then db.steps[y].(succ := db.nextStep)
      else db.steps[y]
  }

  /**
   insertFanInStep: the step a cohort converges on. It continues the branch the spawn t belongs to, below the
   deepest member of the cohort, and is recorded as the successor of every member that left through a task
   with an edge to the fan-in and has no successor yet.
   */
  ghost function InsertFanIn(db: Db, t: nat, x: nat, inherit: bool, exitTask: bool): Db
    requires t in db.steps && x in db.steps && db.steps[x].flow in db.flows
  {
    var j := db.nextStep;
    var r := db.steps[t];
    var depth := CohortFloor(db.steps, r.flow, t, db.steps[x].depth + 1);
    db.(steps := LinkedRows(db, t)[j := NewStep(r.flow, r.lineage, r.head, x, r.ordinal, depth,
                                     InheritedMark(db, x, inherit), exitTask)],
        nextStep := j + 1)
  }

  function ArrivedRow(r: Step): Step { r.(settled := true) }

  function CountedRow(r: Step): Step { r.(arrivals := r.arrivals + 1) }

  /** The steps once x has settled and its arrival is counted on the spawn t. */
  function Arrived(steps: map<nat, Step>, x: nat, t: nat): map<nat, Step>
    requires x in steps && t in steps
  {
    var steps1 := steps[x := ArrivedRow(steps[x])];
    steps1[t := CountedRow(steps1[t])]
  }

  /**
   What an arrival of x leads to: nothing while the cohort of t waits; the fan-in when every branch came
   through; otherwise the loss of the cohort. A stopped flow is left alone.
   */
  ghost function Resolve(db: Db, t: nat, x: nat, inherit: bool, exitTask: bool): Db
    requires LineageDown(db.steps) && t in db.steps && x in db.steps
  {
    var c := db.steps[t];
    if !(c.size > 0 && c.arrivals >= c.size) then db
    else if FlowDone(db, db.steps[x].flow) then db
    else if c.failures == 0 then InsertFanIn(db, t, x, inherit, exitTask)
    else Lose(db, t, c.cancellations == c.failures)
  }

  /**
   The transition of x into the fan-in of its cohort. An arrival that does not resolve the cohort takes no
   lock on the flow row, so it is counted even in a stopped flow; the one that does resolve it is guarded.
   */
  ghost function Arrive(db: Db, x: nat, inherit: bool, exitTask: bool): Db
    requires LineageDown(db.steps) && x in db.steps && db.steps[x].lineage != 0
  {
    var t := db.steps[x].lineage;
    var db1 := db.(steps := Arrived(db.steps, x, t));
    assert forall y <- db1.steps :: db1.steps[y].lineage == db.steps[y].lineage;
    Resolve(db1, t, x, inherit, exitTask)
  }

  /** completeFlow: the flow of a trunk step with nothing left to do. */
  function Finish(db: Db, x: nat): Db
    requires x in db.steps
  {
    var r := db.steps[x];
    if FlowDone(db, r.flow) then db
    else db.(steps := db.steps[x := r.(settled := true)],
             flows := db.flows[r.flow := db.flows[r.flow].(status := Completed)])
  }

  // ----- Interrupt and Resume

  /** The rows of `xs` an Interrupt's chain UPDATE moves. */
  predicate Interruptible(db: Db, y: nat, xs: set<nat>) {
    y in xs && y in db.steps && (db.steps[y].status.Running? || db.steps[y].status.Interrupted?)
  }

  function InterruptSteps(db: Db, xs: set<nat>): map<nat, Step> {
    map y | y in db.steps ::
      if Interruptible(db, y, xs) then db.steps[y].(status := Interrupted, parked := false) else db.steps[y]
  }

  /**
   handleInterrupt: leaf x of generation g pauses together with its chain of callers, unless the leaf is no
   longer this generation's to pause - then the whole transaction rolls back.
   */
  function Interrupt(db: Db, x: nat, g: nat, callers: set<nat>, fs: set<nat>): Db
    requires x in db.steps
  {
    if db.steps[x].leaseSeq != g || !Interruptible(db, x, {x}) then db
    else db.(steps := InterruptSteps(db, callers + {x}),
             flows := map f | f in db.flows ::
               if f in fs && (db.flows[f].status.Running? || db.flows[f].status.Interrupted?)
               then db.flows[f].(status := Interrupted) else db.flows[f])
  }

  function ResumeSteps(db: Db, x: nat, callers: set<nat>): map<nat, Step> {
    map y | y in db.steps ::
      if !db.steps[y].status.Interrupted? then db.steps[y]
      else if y == x then db.steps[y].(status := Pending)
      else if y in callers then db.steps[y].(status := Running, parked := true)
      else db.steps[y]
  }

  /** resume: gated on the root still being interrupted; a flow that holds another interrupt stays paused. */
  ghost function Resume(db: Db, root: nat, x: nat, callers: set<nat>, fs: set<nat>): Db {
    if root !in db.flows || !db.flows[root].status.Interrupted? then db
    else
      var steps := ResumeSteps(db, x, callers);
      db.(steps := steps,
          flows := map f | f in db.flows ::
            if f in fs && db.flows[f].status.Interrupted?
               && !exists y :: y in steps && steps[y].flow == f && steps[y].status.Interrupted?
            then db.flows[f].(status := Running) else db.flows[f])
  }

  // ----- Terminate, Cancel, Delete, reaping, creation

  /** terminateSubtree on the flows of the scanned tree. */
  function Terminate(db: Db, fs: set<nat>): Db {
    db.(steps := map y | y in db.steps ::
          if db.steps[y].flow in fs && (db.steps[y].status.Open() || db.steps[y].status.Created?)
          then db.steps[y].(status := Terminated, parked := false) else db.steps[y],
        flows := map f | f in db.flows ::
          if f in fs && !db.flows[f].status.Terminal() then db.flows[f].(status := Terminated) else db.flows[f])
  }

  /** The highest id among the steps of flow f, 0 when it has none. */
  ghost function LastStep(steps: map<nat, Step>, f: nat): (w: nat)
    ensures forall y <- steps | steps[y].flow == f :: y <= w
    ensures w == 0 || (w in steps && steps[w].flow == f)
    decreases steps
  {
    if steps == map[] then 0
    else
      var y :| y in steps;
      assert forall z <- steps :: z == y || z in steps - {y};
      var rest := LastStep(steps - {y}, f);
      if steps[y].flow == f then Max(y, rest) else rest
  }

  /** Cancel's first write: the watermark, raised once per flow. */
  ghost function Watermark(db: Db, fs: set<nat>): Db {
    db.(flows := map f | f in db.flows ::
          if f in fs && !db.flows[f].status.Terminal() && db.flows[f].watermark == 0
          then db.flows[f].(watermark := LastStep(db.steps, f)) else db.flows[f])
  }

  /** Cancel's second write: the mark, on the open steps at or below their flow's watermark. */
  function Mark(db: Db, fs: set<nat>): Db {
    db.(steps := map y | y in db.steps ::
          if db.steps[y].flow in fs && db.steps[y].status.Open()
             && db.steps[y].flow in db.flows && y <= db.flows[db.steps[y].flow].watermark
          then db.steps[y].(cancelling := true) else db.steps[y])
  }

  /** Delete and Purge: the stamp also stops an interrupted flow. (The stamp itself is not a protocol column.) */
  function Stamp(db: Db, f: nat): Db {
    if f in db.flows && db.flows[f].status.Interrupted? then
      db.(flows := db.flows[f := db.flows[f].(status := Terminated)])
    else db
  }

  /** Row removal by the reaper and by a retry's reap: whole flows, with all their steps. */
  function Reap(db: Db, fs: set<nat>): Db {
    db.(steps := map y | y in db.steps && db.steps[y].flow !in fs :: db.steps[y],
        flows := db.flows - fs)
  }

  /** insertFlowTx: a running flow and its pending entry step. */
  function Create(db: Db, depth: nat, exitTask: bool): Db {
    var f, y := db.nextFlow, db.nextStep;
    db.(flows := db.flows[f := Flow(Running, 0)], nextFlow := f + 1,
        steps := db.steps[y := NewStep(f, 0, 0, 0, 0, depth, false, exitTask)], nextStep := y + 1)
  }
}
