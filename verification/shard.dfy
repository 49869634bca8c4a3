/**
 The transactions as the engine runs them: one write after the other on a shard's two tables, under guards and
 inside loops. Each is proved to leave the tables exactly as the function that specifies it says, so that what
 is proved of those functions - and of every run of them - holds of this code.
 */
module Shards {
  import opened Rows
  import opened Transactions
  import opened Machine

  class Shard {
    var steps: map<nat, Step>
    var flows: map<nat, Flow>
    var nextStep: nat
    var nextFlow: nat

    function Tables(): Db
      reads this
    {
      Db(steps, flows, nextStep, nextFlow)
    }

    constructor ()
      ensures Tables() == Db(map[], map[], 1, 1)
    {
      steps, flows, nextStep, nextFlow := map[], map[], 1, 1;
    }

    // ----- Step lifecycle

    /** The claim CAS, and the generation it grants. */
    method ClaimStep(x: nat) returns (claimed: bool, g: nat)
      modifies this
      ensures claimed == Claimable(old(Tables()), x)
      ensures claimed ==> Tables() == Claim(old(Tables()), x) && x in steps && g == steps[x].leaseSeq
      ensures !claimed ==> Tables() == old(Tables())
    {
      g := 0;
      if x !in steps || !steps[x].status.Pending? || steps[x].parked { return false, 0; }
      g := steps[x].leaseSeq + 1;
      steps := steps[x := steps[x].(status := Running)];
      steps := steps[x := steps[x].(leaseSeq := g)];
      claimed := true;
    }

    /** The completion write; a row a peer owns by now, or one a Terminate stopped, is not touched. */
    method MarkCompleted(x: nat, g: nat) returns (written: bool)
      modifies this
      ensures Tables() == Complete(old(Tables()), x, g)
      ensures written == CompletionMatches(old(Tables()), x, g)
    {
      written := false;
      if x in steps && steps[x].leaseSeq == g {
        if steps[x].status != Terminated && steps[x].status != Cancelled {
          steps := steps[x := steps[x].(status := Completed)];
          written := true;
        }
      }
    }

    /** The reset of a step whose worker gives it up. */
    method ReleaseStep(x: nat, g: nat)
      modifies this
      ensures Tables() == Rewind(old(Tables()), x, g)
    {
      if x in steps && steps[x].leaseSeq == g {
        match steps[x].status
        case Running => steps := steps[x := steps[x].(status := Pending)];
        case Completed => steps := steps[x := steps[x].(status := Pending)];
        case _ =>
      }
    }

    /** The sweep over expired leases: the candidates read first, each reset by its own guarded write. */
    method RecoverExpiredLeases(expired: seq<nat>)
      modifies this
      ensures Tables() == RecoverAll(old(Tables()), expired)
    {
      for i := 0 to |expired|
        invariant RecoverAll(Tables(), expired[i..]) == RecoverAll(old(Tables()), expired)
      {
        var x := expired[i];
        assert expired[i..][1..] == expired[i + 1..];
        if x in steps && steps[x].status.Running? && !steps[x].parked {
          steps := steps[x := steps[x].(status := Pending)];
        }
      }
    }

    // ----- Losses

    /** propagateCohortFailure: the loop that carries a loss upward while cohorts resolve. */
    method PropagateCohortFailure(spawn: nat, cancelled: bool) returns (failFlow: bool, flowCancelled: bool)
      requires LineageDown(steps) && spawn in steps
      modifies this`steps
      ensures (steps, if failFlow then FlowLost(flowCancelled) else Contained) == Propagate(old(steps), spawn, cancelled)
    {
      var current, soft := spawn, cancelled;
      while true
        invariant LineageDown(steps) && current in steps
        invariant Propagate(steps, current, soft) == Propagate(old(steps), spawn, cancelled)
        decreases current
      {
        var cancelledInc := if soft then 1 else 0;
        var row := steps[current];
        var bumped := row.(arrivals := row.arrivals + 1, failures := row.failures + 1,
                           cancellations := row.cancellations + cancelledInc);
        assert steps[current := bumped][current] == bumped == Bump(row, soft);
        assert forall y :: y in steps[current := bumped] ==> steps[current := bumped][y].lineage == steps[y].lineage;
        steps := steps[current := bumped];
        if bumped.arrivals < bumped.size { return false, false; }
        soft := bumped.cancellations == bumped.failures;
        if bumped.lineage == 0 { return true, soft; }
        current := bumped.lineage;
      }
    }

    /** The flow row's last write when a flow resolves as a loss. */
    method TerminalizeLost(f: nat, cancelled: bool)
      modifies this`flows
      ensures Tables() == LoseFlow(old(Tables()), f, cancelled)
    {
      if f in flows && !flows[f].status.Terminal() {
        flows := flows[f := flows[f].(status := if cancelled then Cancelled else Failed)];
      }
    }

    /** failStep's transaction. */
    method FailStep(x: nat, g: nat, cancelled: bool) returns (fenced: bool)
      requires LineageDown(steps)
      modifies this
      ensures Tables() == Fail(old(Tables()), x, g, cancelled)
      ensures fenced == !HoldMatches(old(Tables()), x, g)
    {
      if x !in steps || steps[x].leaseSeq != g || !(steps[x].status.Running? || steps[x].status.Completed?) {
        return true;
      }
      fenced := false;
      var failed := steps[x := steps[x].(status := if cancelled then Cancelled else Failed, parked := false)];
      assert forall y :: y in failed ==> failed[y].lineage == steps[y].lineage;
      steps := failed;
      assert Tables() == Failing(old(Tables()), x, cancelled);
      HandOverLoss(x, cancelled);
    }

    // ----- Transitions

    /** successorInsertSQL: whether the successor starts marked is decided by the statement that inserts it. */
    method InsertSuccessor(x: nat, r: Step, inheritCancel: bool) returns (y: nat)
      requires r.flow in flows
      modifies this`steps, this`nextStep
      ensures y == old(nextStep) && nextStep == y + 1
      ensures steps == old(steps)[y := r.(cancelling := inheritCancel && x <= flows[r.flow].watermark)]
    {
      y := nextStep;
      steps := steps[y := r.(cancelling := inheritCancel && x <= flows[r.flow].watermark)];
      nextStep := nextStep + 1;
    }

    /** The transition to one ordinary successor. */
    method TransitionNext(x: nat, inheritCancel: bool, exitTask: bool) returns (inserted: bool)
      requires x in steps && x < nextStep
      modifies this
      ensures Tables() == Next(old(Tables()), x, inheritCancel, exitTask)
      ensures inserted == !FlowDone(old(Tables()), old(steps)[x].flow)
    {
      var r := steps[x];
      // Write-first: the flow row, guarded on not having stopped.
      if r.flow !in flows || flows[r.flow].status.Terminal() { return false; }
      var y := InsertSuccessor(x, NewStep(r.flow, r.lineage, r.head, x, r.ordinal, r.depth + 1, false, exitTask), inheritCancel);
      steps := steps[x := r.(settled := true, succ := y, next := y)];
      inserted := true;
    }

    /** The branches of a fan-out, inserted one after the other. */
    method InsertBranches(x: nat, inheritCancel: bool, exitTasks: seq<bool>)
      requires x in steps && x < nextStep && steps[x].flow in flows && forall y <- steps :: y < nextStep
      modifies this`steps, this`nextStep
      ensures nextStep == old(nextStep) + |exitTasks|
      ensures steps == old(steps) + Branches(old(Tables()), x, inheritCancel, exitTasks, |exitTasks|)
    {
      var r, first := steps[x], nextStep;
      ghost var before := Tables();
      for i := 0 to |exitTasks|
        invariant nextStep == first + i && flows == before.flows
        invariant steps == WithBranches(before, x, inheritCancel, exitTasks, i)
      {
        var y := InsertSuccessor(x, NewStep(r.flow, x, first + i, x, i, r.depth + 1, false, exitTasks[i]), inheritCancel);
      }
      OneByOne(before, x, inheritCancel, exitTasks, |exitTasks|);
    }

    /** The branches, the spawn's row, then the arrivals of the edges that lead straight to the fan-in. */
    method SpawnCohort(x: nat, inheritCancel: bool, exitTasks: seq<bool>, direct: nat)
      requires x in steps && x < nextStep && steps[x].flow in flows && forall y <- steps :: y < nextStep
      modifies this`steps, this`nextStep
      ensures Tables() == FannedOut(old(Tables()), x, inheritCancel, exitTasks, direct)
      ensures x in steps && steps[x] == PushedRow(old(Tables()), x, |exitTasks|, direct)
      ensures nextStep !in steps
    {
      ghost var before := Tables();
      var r, first := steps[x], nextStep;
      InsertBranches(x, inheritCancel, exitTasks);
      var row := r.(settled := true, spawned := true, size := |exitTasks| + direct, succ := if |exitTasks| > 0 then first else r.succ);
      var counted := row.(arrivals := row.arrivals + direct);
      SpawnAfterBranches(before, x, row, counted, inheritCancel, exitTasks);
      steps := steps[x := row];
      steps := steps[x := counted];
    }

    /** The fan-out transition; with no branch at all the cohort resolves on the spot. */
    method TransitionFanOut(x: nat, inheritCancel: bool, exitTasks: seq<bool>, direct: nat, exitTask: bool) returns (spawned: bool)
      requires x in steps && x < nextStep && steps[x].lineage != x && forall y <- steps :: y < nextStep
      modifies this
      ensures Tables() == Push(old(Tables()), x, inheritCancel, exitTasks, direct, exitTask)
      ensures spawned == !FlowDone(old(Tables()), old(steps)[x].flow)
    {
      var f := steps[x].flow;
      // Write-first: the flow row, guarded on not having stopped.
      if f !in flows || flows[f].status.Terminal() { return false; }
      SpawnCohort(x, inheritCancel, exitTasks, direct);
      var row := steps[x];
      if direct > 0 && row.size > 0 && row.arrivals >= row.size && row.failures == 0 {
        InsertFanInStep(x, x, inheritCancel, exitTask);
      }
      spawned := true;
    }

    /** completeFlow, for a trunk step with nothing left to do. */
    method CompleteFlow(x: nat) returns (done: bool)
      requires x in steps
      modifies this
      ensures Tables() == Finish(old(Tables()), x)
      ensures done == !FlowDone(old(Tables()), old(steps)[x].flow)
    {
      var f := steps[x].flow;
      if f !in flows || flows[f].status.Terminal() { return false; }
      flows := flows[f := flows[f].(status := Completed)];
      steps := steps[x := steps[x].(settled := true)];
      done := true;
    }

    /**
     insertFanInStep: one pass over the cohort's rows finds the depth of the deepest and the members that left
     through a task with an edge to the fan-in; then the insert, then their successor links.
     */
    method InsertFanInStep(t: nat, x: nat, inheritCancel: bool, exitTask: bool)
      requires t in steps && x in steps && steps[x].flow in flows && steps[x].flow == steps[t].flow
      requires nextStep !in steps && steps[t].lineage != t
      modifies this`steps, this`nextStep
      ensures Tables() == InsertFanIn(old(Tables()), t, x, inheritCancel, exitTask)
    {
      ghost var before := Tables();
      var spawn := steps[t];
      var fanInDepth, exits := ScanCohort(t, x);
      var row := NewStep(spawn.flow, spawn.lineage, spawn.head, x, spawn.ordinal, fanInDepth, false, exitTask);
      var y := InsertSuccessor(x, row, inheritCancel);
      LinkExits(t, exits, y);
      LinksOfFanIn(before, t, exits, y, row.(cancelling := InheritedMark(before, x, inheritCancel)));
    }

    /** The pass over the cohort's rows: the depth of the fan-in, and the exits to link to it. */
    method ScanCohort(t: nat, x: nat) returns (depth: nat, exits: set<nat>)
      requires t in steps && x in steps
      ensures depth == CohortFloor(steps, steps[t].flow, t, steps[x].depth + 1)
      ensures exits == ExitsOf(steps, t)
    {
      var flow := steps[t].flow;
      var members := set y | y in steps && steps[y].flow == flow && steps[y].lineage == t;
      depth, exits := DepthAndExits(t, members, steps[x].depth + 1);
      FloorUnique(steps, flow, t, steps[x].depth + 1, depth);
    }

    method DepthAndExits(t: nat, members: set<nat>, floor: nat) returns (depth: nat, exits: set<nat>)
      requires forall y <- members :: y in steps
      ensures depth >= floor && (forall y <- members :: steps[y].depth < depth)
      ensures depth == floor || exists y <- members :: steps[y].depth + 1 == depth
      ensures exits == set y | y in members && steps[y].exitTask && steps[y].succ == 0
    {
      depth, exits := floor, {};
      var rows := members;
      while rows != {}
        invariant rows <= members && depth >= floor
        invariant forall y <- members - rows :: steps[y].depth < depth
        invariant depth == floor || exists y <- members :: steps[y].depth + 1 == depth
        invariant exits == set y | y in members - rows && steps[y].exitTask && steps[y].succ == 0
      {
        var y :| y in rows;
        rows := rows - {y};
        if steps[y].depth >= depth { depth := steps[y].depth + 1; }
        if steps[y].exitTask && steps[y].succ == 0 { exits := exits + {y}; }
      }
    }

    /** The successor links of the exits, written row by row, and the spawn's own (history) link. */
    method LinkExits(t: nat, exits: set<nat>, j: nat)
      requires t in steps && t !in exits && forall y <- exits :: y in steps
      modifies this`steps
      ensures steps == LinkedTo(old(steps), t, exits, j)
    {
      ghost var before := steps;
      steps := steps[t := steps[t].(next := j)];
      assert steps == LinkedTo(before, t, {}, j);
      var rows := exits;
      while rows != {}
        invariant rows <= exits && steps == LinkedTo(before, t, exits - rows, j)
      {
        var y :| y in rows;
        rows := rows - {y};
        LinkOneMore(before, t, exits - rows - {y}, y, j);
        assert exits - rows == exits - rows - {y} + {y};
        assert exits - rows - {y} == exits - (rows + {y});
        steps := steps[y := steps[y].(succ := j)];
      }
      assert exits - rows == exits;
    }

    /** The transition of x into the fan-in of its cohort. */
    method ArriveAtFanIn(x: nat, inheritCancel: bool, exitTask: bool)
      requires LineageDown(steps) && x in steps && steps[x].lineage != 0 && nextStep !in steps
      requires steps[x].lineage in steps && steps[steps[x].lineage].flow == steps[x].flow
      modifies this
      ensures Tables() == Arrive(old(Tables()), x, inheritCancel, exitTask)
    {
      var t := steps[x].lineage;
      CountArrival(t, x);
      ResolveArrival(t, x, inheritCancel, exitTask);
    }

    /** The bump is the transaction's first write; the flow row is locked only by the arrival that resolves. */
    method CountArrival(t: nat, x: nat)
      requires LineageDown(steps) && x in steps && t in steps
      modifies this`steps
      ensures steps == Arrived(old(steps), x, t) && LineageDown(steps)
      ensures steps.Keys == old(steps).Keys && forall y <- steps :: steps[y].flow == old(steps)[y].flow
    {
      CountedEither(steps, x, t);
      steps := steps[t := steps[t].(arrivals := steps[t].arrivals + 1)];
      steps := steps[x := steps[x].(settled := true)];
    }

    /** What the post-bump counters of the spawn say. */
    method ResolveArrival(t: nat, x: nat, inheritCancel: bool, exitTask: bool)
      requires LineageDown(steps) && t in steps && x in steps && nextStep !in steps && steps[t].flow == steps[x].flow
      modifies this
      ensures Tables() == Resolve(old(Tables()), t, x, inheritCancel, exitTask)
    {
      var counted, f := steps[t], steps[x].flow;
      var fullyResolved := counted.size > 0 && counted.arrivals >= counted.size;
      if !fullyResolved { return; }
      if f !in flows || flows[f].status.Terminal() { return; }
      if counted.failures == 0 {
        assert steps[t].lineage != t;
        InsertFanInStep(t, x, inheritCancel, exitTask);
      } else {
        HandOverLoss(t, counted.cancellations == counted.failures);
      }
    }

    /** The loss of step y, given to its cohort or to the flow. */
    method HandOverLoss(y: nat, cancelled: bool)
      requires LineageDown(steps) && y in steps
      modifies this
      ensures Tables() == Lose(old(Tables()), y, cancelled)
    {
      var lineage, flow := steps[y].lineage, steps[y].flow;
      var failFlow, flowCancelled := lineage == 0, cancelled;
      if !failFlow { failFlow, flowCancelled := PropagateCohortFailure(lineage, cancelled); }
      if failFlow { TerminalizeLost(flow, flowCancelled); }
    }

    // ----- Interrupt, Resume, Terminate

    /** handleInterrupt: the whole chain first, then the fence on the leaf; a fence that misses rolls all of it back. */
    method HandleInterrupt(x: nat, g: nat, callers: set<nat>, fs: set<nat>) returns (fenced: bool)
      requires x in steps
      modifies this
      ensures Tables() == Interrupt(old(Tables()), x, g, callers, fs)
      ensures fenced == (old(steps)[x].leaseSeq != g || !(old(steps)[x].status.Running? || old(steps)[x].status.Interrupted?))
    {
      var saved := steps;
      steps := map y | y in steps ::
        if (y in callers || y == x) && (steps[y].status.Running? || steps[y].status.Interrupted?)
        then steps[y].(status := Interrupted, parked := false) else steps[y];
      if steps[x].leaseSeq != g || !steps[x].status.Interrupted? {
        steps := saved;
        return true;
      }
      assert steps == InterruptSteps(old(Tables()), callers + {x});
      flows := map f | f in flows ::
        if f in fs && (flows[f].status.Running? || flows[f].status.Interrupted?) then flows[f].(status := Interrupted) else flows[f];
      fenced := false;
    }

    /** resume: gated on the root; the leaf, the callers, then each flow that holds no other interrupt. */
    method ResumeChain(root: nat, x: nat, callers: set<nat>, fs: set<nat>) returns (resumed: bool)
      modifies this
      ensures Tables() == Resume(old(Tables()), root, x, callers, fs)
      ensures resumed == (root in old(flows) && old(flows)[root].status.Interrupted?)
    {
      ghost var before := Tables();
      if root !in flows || !flows[root].status.Interrupted? { return false; }
      steps := map y | y in steps ::
        if y in callers && y != x && steps[y].status.Interrupted? then steps[y].(status := Running, parked := true) else steps[y];
      if x in steps && steps[x].status.Interrupted? { steps := steps[x := steps[x].(status := Pending)]; }
      assert steps == ResumeSteps(before, x, callers);
      var todo := fs * flows.Keys;
      while todo != {}
        invariant todo <= fs * flows.Keys && steps == ResumeSteps(before, x, callers) && flows.Keys == before.flows.Keys
        invariant nextStep == before.nextStep && nextFlow == before.nextFlow
        invariant forall f <- flows :: flows[f] == if f in fs && f !in todo then Resume(before, root, x, callers, fs).flows[f] else before.flows[f]
      {
        var f :| f in todo;
        todo := todo - {f};
        if flows[f].status.Interrupted? && !exists y :: y in steps && steps[y].flow == f && steps[y].status.Interrupted? {
          flows := flows[f := flows[f].(status := Running)];
        }
      }
      resumed := true;
    }

    /** terminateSubtree on the flows of a tree: their open steps, then the flows that had not stopped. */
    method TerminateFlows(fs: set<nat>)
      modifies this
      ensures Tables() == Terminate(old(Tables()), fs)
    {
      steps := map y | y in steps ::
        if steps[y].flow in fs && (steps[y].status.Open() || steps[y].status.Created?)
        then steps[y].(status := Terminated, parked := false) else steps[y];
      flows := map f | f in flows :: if f in fs && !flows[f].status.Terminal() then flows[f].(status := Terminated) else flows[f];
    }

    // ----- Cancel

    /** Cancel's two writes: first the watermarks, raised once, then the marks they bound. */
    method CancelTree(fs: set<nat>)
      modifies this
      ensures Tables() == Mark(Watermark(old(Tables()), fs), fs)
    {
      ghost var before := Tables();
      var todo := fs;
      assert flows == Watermark(before, {}).flows;
      while todo != {}
        invariant todo <= fs && steps == before.steps && nextStep == before.nextStep && nextFlow == before.nextFlow
        invariant flows == Watermark(before, fs - todo).flows
      {
        var f :| f in todo;
        var w := HighestStep(f);
        HighestUnique(steps, f, w);
        WatermarkOneMore(before, fs - todo, f);
        assert fs - (todo - {f}) == fs - todo + {f};
        todo := todo - {f};
        if f in flows && !flows[f].status.Terminal() && flows[f].watermark == 0 {
          flows := flows[f := flows[f].(watermark := w)];
        }
      }
      assert fs - todo == fs;
      assert Tables() == Watermark(before, fs);
      MarkRows(fs);
    }

    /** The mark, one UPDATE. */
    method MarkRows(fs: set<nat>)
      modifies this
      ensures Tables() == Mark(old(Tables()), fs)
    {
      steps := map y | y in steps ::
        if steps[y].flow in fs && steps[y].status.Open() && steps[y].flow in flows && y <= flows[steps[y].flow].watermark
        then steps[y].(cancelling := true) else steps[y];
    }

    method HighestStep(f: nat) returns (w: nat)
      ensures forall y <- steps | steps[y].flow == f :: y <= w
      ensures w == 0 || (w in steps && steps[w].flow == f)
    {
      w := 0;
      var rows := steps.Keys;
      while rows != {}
        invariant rows <= steps.Keys
        invariant forall y <- steps | steps[y].flow == f && y !in rows :: y <= w
        invariant w == 0 || (w in steps && steps[w].flow == f)
      {
        var y :| y in rows;
        rows := rows - {y};
        if steps[y].flow == f && y > w { w := y; }
      }
    }
  }

  /** The spawn's row may be written after its branches. */
  lemma SpawnAfterBranches(db: Db, x: nat, row0: Step, row: Step, inherit: bool, exitTasks: seq<bool>)
    requires x in db.steps && db.steps[x].flow in db.flows && x < db.nextStep
    ensures (db.steps + Branches(db, x, inherit, exitTasks, |exitTasks|))[x := row0][x := row]
            == db.steps[x := row] + Branches(db, x, inherit, exitTasks, |exitTasks|)
  {
  }

  /** The rows with the first n branches inserted one by one. */
  function WithBranches(db: Db, x: nat, inherit: bool, exitTasks: seq<bool>, n: nat): map<nat, Step>
    requires x in db.steps && db.steps[x].flow in db.flows && n <= |exitTasks|
  {
    if n == 0 then db.steps
    else WithBranches(db, x, inherit, exitTasks, n - 1)[db.nextStep + n - 1 := Branch(db, x, inherit, exitTasks, n - 1)]
  }

  lemma {:induction false} OneByOne(db: Db, x: nat, inherit: bool, exitTasks: seq<bool>, n: nat)
    requires x in db.steps && db.steps[x].flow in db.flows && n <= |exitTasks|
    ensures WithBranches(db, x, inherit, exitTasks, n) == db.steps + Branches(db, x, inherit, exitTasks, n)
    decreases n
  {
    if n > 0 { OneByOne(db, x, inherit, exitTasks, n - 1); }
  }

  /** The rows once some exits point to the fan-in j. */
  function LinkedTo(steps: map<nat, Step>, t: nat, exits: set<nat>, j: nat): map<nat, Step>
    requires t in steps
  {
    map y | y in steps ::
      if y == t then steps[t].(next := j) else if y in exits then steps[y].(succ := j) else steps[y]
  }

  lemma LinkOneMore(steps: map<nat, Step>, t: nat, done: set<nat>, y: nat, j: nat)
    requires t in steps && y in steps && y != t && y !in done
    ensures LinkedTo(steps, t, done + {y}, j) == LinkedTo(steps, t, done, j)[y := steps[y].(succ := j)]
    ensures LinkedTo(steps, t, done, j)[y] == steps[y]
  {
  }

  /** The members of t's cohort that left through a task with an edge to the fan-in. */
  function ExitsOf(steps: map<nat, Step>, t: nat): set<nat>
    requires t in steps
  {
    set y | y in steps && steps[y].flow == steps[t].flow && steps[y].lineage == t && steps[y].exitTask && steps[y].succ == 0
  }

  /** Linking the exits after the insert gives the rows the specification links before it. */
  lemma LinksOfFanIn(db: Db, t: nat, exits: set<nat>, j: nat, row: Step)
    requires t in db.steps && j == db.nextStep && j !in db.steps && t != j && db.steps[t].lineage != t
    requires exits == ExitsOf(db.steps, t)
    ensures LinkedTo(db.steps[j := row], t, exits, j) == LinkedRows(db, t)[j := row]
  {
  }

  lemma WatermarkOneMore(db: Db, done: set<nat>, f: nat)
    ensures var flows := Watermark(db, done).flows;
            Watermark(db, done + {f}).flows
            == if f in flows && !flows[f].status.Terminal() && flows[f].watermark == 0
               then flows[f := flows[f].(watermark := LastStep(db.steps, f))] else flows
  {
  }

  /** The bump and the settling may come in either order, and move no lineage. */
  lemma CountedEither(steps: map<nat, Step>, x: nat, t: nat)
    requires LineageDown(steps) && x in steps && t in steps
    ensures var counted := steps[t := CountedRow(steps[t])];
            counted[x := ArrivedRow(counted[x])] == Arrived(steps, x, t)
    ensures LineageDown(Arrived(steps, x, t)) && Arrived(steps, x, t).Keys == steps.Keys
    ensures forall y <- steps :: Arrived(steps, x, t)[y].flow == steps[y].flow
  {
  }

  /** The recovery of several steps, one after the other. */
  function RecoverAll(db: Db, xs: seq<nat>): Db
    decreases |xs|
  {
    if xs == [] then db else RecoverAll(Recover(db, xs[0]), xs[1..])
  }

  /** The depth of a fan-in is fixed by what it has to be above. */
  lemma FloorUnique(steps: map<nat, Step>, f: nat, t: nat, floor: nat, d: nat)
    requires d >= floor && forall y <- steps | InCohort(steps[y], f, t) :: steps[y].depth < d
    requires d == floor || exists y <- steps :: InCohort(steps[y], f, t) && steps[y].depth + 1 == d
    ensures d == CohortFloor(steps, f, t, floor)
  {
  }

  lemma HighestUnique(steps: map<nat, Step>, f: nat, w: nat)
    requires forall y <- steps | steps[y].flow == f :: y <= w
    requires w == 0 || (w in steps && steps[w].flow == f)
    ensures w == LastStep(steps, f)
  {
  }
}
