/**
 The two tables of one shard, as values: `dwarf_steps` and `dwarf_flows`, reduced to the columns the
 engine's protocols read or write. Ids are handed out in increasing order and 0 stands for "none".
 */
module Rows {

  /** Steps and flows share one set of status strings. */
  datatype Status = Created | Pending | Running | Interrupted | Completed | Failed | Cancelled | Terminated {
    predicate Terminal() {
      Completed? || Failed? || Cancelled? || Terminated?
    }

    /** A status in which a step can still be worked on or revived. */
    predicate Open() {
      Pending? || Running? || Interrupted?
    }
  }

  /**
   A row of `dwarf_steps`. The last four fields are history variables that no statement of the engine
   reads: they record facts the engine leaves implicit in which writes have committed.
   - settled: the step's transition has committed;
   - spawned: that transition was a fan-out;
   - head: the first step of the branch of its cohort the step belongs to (0 on the trunk);
   - next: the step that continued the branch at the same nesting level - the successor of an ordinary
     step, the fan-in of a fan-out.
   */
  datatype Step = Step(
    flow: nat, status: Status, parked: bool, leaseSeq: nat,
    lineage: nat, pred: nat, succ: nat, ordinal: nat, depth: nat,
    size: nat, arrivals: nat, failures: nat, cancellations: nat,
    cancelling: bool, exitTask: bool,
    settled: bool, spawned: bool, head: nat, next: nat)
  {
    /** The step still owes its flow a transition, a failure or a revival. */
    predicate Live() {
      status.Open() || (status.Completed? && !settled)
    }

    /** The step spawned a cohort of which some branch has not arrived. */
    predicate Unresolved() {
      spawned && arrivals < size
    }

    /** One unit of outstanding work in the cohort the step belongs to. */
    predicate Token() {
      Live() || Unresolved()
    }

    /** The step's own outcome is a loss. */
    predicate Faulted() {
      status.Failed? || status.Cancelled?
    }

    /** The step can still change what its cohort comes to: open work, or a loss of its own. */
    predicate Loose() {
      Live() || (Faulted() && !settled)
    }

    /** A step that has settled is over, and not as a loss. */
    predicate Passed() {
      settled ==> !status.Open() && !Faulted()
    }

    /** The step is a loss to the cohort it belongs to: its own, or a whole inner cohort resolved with one. */
    predicate Lost() {
      Faulted() || (spawned && arrivals >= size && failures > 0)
    }

    /** A loss that is not a pure cancellation. */
    predicate HardLost() {
      status.Failed? || (spawned && arrivals >= size && failures > cancellations)
    }
  }

  datatype Flow = Flow(status: Status, watermark: nat)

  datatype Db = Db(steps: map<nat, Step>, flows: map<nat, Flow>, nextStep: nat, nextFlow: nat)

  /** A step as every inserting statement leaves it: pending, unclaimed, with no cohort of its own. */
  function NewStep(flow: nat, lineage: nat, head: nat, pred: nat, ordinal: nat, depth: nat,
                   cancelling: bool, exitTask: bool): Step
  {
    Step(flow, Pending, false, 0, lineage, pred, 0, ordinal, depth, 0, 0, 0, 0, cancelling, exitTask,
         false, false, head, 0)
  }

  /** The flow a step belongs to has stopped for good (or its row is gone). */
  predicate FlowDone(db: Db, f: nat) {
    f !in db.flows || db.flows[f].status.Terminal()
  }

  /** Steps of flow f whose lineage is s: the members of the cohort s spawned, or the trunk when s is 0. */
  ghost predicate InCohort(r: Step, f: nat, s: nat) {
    r.flow == f && r.lineage == s
  }
}
