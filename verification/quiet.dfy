/**
 The actions that move no token: claims, rewinds, parks, revivals, interrupts, and the operations that stop or
 mark flows. Each keeps every part of the invariant.
 */
module Quiet {
  import opened Rows
  import opened Transactions
  import opened Shape
  import opened Ledger
  import opened Shaping
  import opened Machine
  import opened Leases
  import opened Cancel

  /** A running flow's ledger is in order, and its settled steps are none of its losses. */
  ghost predicate Sound(db: Db, f: nat) {
    && InOrder(db.steps, f)
    && forall y {:trigger db.steps[y].settled} | y in db.steps && db.steps[y].flow == f :: db.steps[y].Passed()
  }

  ghost predicate FlowsSound(db: Db) {
    forall f {:trigger Sound(db, f)} :: f in db.flows && !db.flows[f].status.Terminal() ==> Sound(db, f)
  }

  ghost predicate Inv(w: World) {
    WellShaped(w.db) && FlowsSound(w.db) && MarksOk(w.db) && JobsOk(w) && LogOk(w)
  }

  /** A row rewritten from r to q without touching the graph, the counters or the mark; `done` after the write. */
  predicate QuietRow(r: Step, q: Step, done: bool) {
    && q == r.(status := q.status, parked := q.parked, leaseSeq := q.leaseSeq)
    && (r.settled ==> !q.status.Open()) && !q.status.Created?
    && (!done ==> r.Live() == q.Live() && r.status.Failed? == q.status.Failed?
                  && r.status.Cancelled? == q.status.Cancelled?)
    && (!done && r.settled ==> q.status == r.status)
  }

  ghost predicate QuietWrite(db: Db, db': Db) {
    && db'.nextStep == db.nextStep && db'.nextFlow == db.nextFlow && DoneStays(db, db')
    && (forall y {:trigger y in db'.steps} :: y in db'.steps ==>
          y in db.steps && QuietRow(db.steps[y], db'.steps[y], FlowDone(db', db.steps[y].flow)))
    && (forall y {:trigger y in db.steps} :: y in db.steps && db.steps[y].flow in db'.flows ==> y in db'.steps)
    && (forall y {:trigger db'.steps[y].flow} :: y in db'.steps ==> db'.steps[y].flow in db'.flows)
    && (forall f {:trigger f in db'.flows} :: f in db'.flows ==>
          f in db.flows && db'.flows[f].watermark == db.flows[f].watermark)
  }

  lemma QuietTables(db: Db, db': Db)
    requires WellShaped(db) && FlowsSound(db) && MarksOk(db) && QuietWrite(db, db')
    ensures WellShaped(db') && FlowsSound(db') && MarksOk(db')
  {
    OwnRows(db.steps);
    QuietShape(db, db');
    MarksAfter(db, db');
    forall f | f in db'.flows && !db'.flows[f].status.Terminal() ensures Sound(db', f) {
      assert Sound(db, f);
      QuietSound(db, db', f);
    }
  }

  lemma QuietSound(db: Db, db': Db, f: nat)
    requires Ids(db) && QuietWrite(db, db') && Sound(db, f) && f in db'.flows && !FlowDone(db', f)
    ensures Sound(db', f)
  {
    forall y | y in db'.steps && y in db.steps && db.steps[y].flow == f
      ensures SameRole(db.steps[y], db'.steps[y]) && SameCounters(db.steps[y], db'.steps[y])
    {
      assert QuietRow(db.steps[y], db'.steps[y], FlowDone(db', f));
    }
    OrderKept(db.steps, db'.steps, f);
  }

  // ----- Operations and sweeps

  /** A quiet write by no dispatch. */
  lemma OutsideInv(w: World, db': Db)
    requires Inv(w) && QuietWrite(w.db, db') && RowsByOthers(w.db, db', {})
    requires forall z <- db'.steps :: z in w.db.steps ==> db'.steps[z].leaseSeq == w.db.steps[z].leaseSeq
    ensures Inv(w.(db := db'))
  {
    QuietTables(w.db, db');
    OutsideWrite(w, db');
  }

  /** One row rewritten. */
  function Rewritten(db: Db, x: nat, q: Step): Db { db.(steps := db.steps[x := q]) }

  lemma RowQuiet(db: Db, x: nat, q: Step)
    requires WellShaped(db) && x in db.steps && QuietRow(db.steps[x], q, FlowDone(db, db.steps[x].flow))
    ensures QuietWrite(db, Rewritten(db, x, q))
  {
    OwnRows(db.steps);
  }

  lemma RowOutside(w: World, x: nat, q: Step)
    requires Inv(w) && x in w.db.steps && q.leaseSeq == w.db.steps[x].leaseSeq
    requires QuietRow(w.db.steps[x], q, FlowDone(w.db, w.db.steps[x].flow))
    requires OthersWrite(w.db.steps[x], q, FlowDone(w.db, w.db.steps[x].flow))
    ensures Inv(w.(db := Rewritten(w.db, x, q)))
  {
    RowQuiet(w.db, x, q);
    OutsideInv(w, Rewritten(w.db, x, q));
  }

  lemma RecoverInv(w: World, x: nat)
    requires Inv(w)
    ensures Inv(w.(db := Recover(w.db, x)))
  {
    if x in w.db.steps && w.db.steps[x].status.Running? && !w.db.steps[x].parked {
      assert StepShape(w.db.steps, x);
      RowOutside(w, x, w.db.steps[x].(status := Pending));
    }
  }

  lemma ReviveInv(w: World, x: nat)
    requires Inv(w)
    ensures Inv(w.(db := Revive(w.db, x)))
  {
    if x in w.db.steps && w.db.steps[x].status.Running? && w.db.steps[x].parked {
      assert StepShape(w.db.steps, x);
      RowOutside(w, x, w.db.steps[x].(status := Pending, parked := false));
    }
  }

  /** What a Resume may do to one row. */
  predicate ResumedRow(r: Step, q: Step) {
    q == r || (r.status.Interrupted? && (q == r.(status := Pending) || q == r.(status := Running, parked := true)))
  }

  lemma ResumeRows(db: Db, root: nat, x: nat, callers: set<nat>, fs: set<nat>)
    ensures var db' := Resume(db, root, x, callers, fs);
            && db'.steps.Keys == db.steps.Keys && db'.nextStep == db.nextStep && db'.nextFlow == db.nextFlow
            && (forall y <- db.steps :: ResumedRow(db.steps[y], db'.steps[y]))
  {
  }

  lemma ResumeFlows(db: Db, root: nat, x: nat, callers: set<nat>, fs: set<nat>)
    ensures var db' := Resume(db, root, x, callers, fs);
            && db'.flows.Keys == db.flows.Keys
            && forall f <- db.flows :: db'.flows[f].watermark == db.flows[f].watermark
                 && (db.flows[f].status.Terminal() ==> db'.flows[f] == db.flows[f])
  {
  }

  lemma ResumedQuiet(r: Step, q: Step, done: bool)
    requires ResumedRow(r, q) && OwnOk(r)
    ensures QuietRow(r, q, done) && OthersWrite(r, q, done)
  {
  }

  lemma ResumeInv(w: World, root: nat, x: nat, callers: set<nat>, fs: set<nat>)
    requires Inv(w)
    ensures Inv(w.(db := Resume(w.db, root, x, callers, fs)))
  {
    var db' := Resume(w.db, root, x, callers, fs);
    ResumeRows(w.db, root, x, callers, fs);
    ResumeFlows(w.db, root, x, callers, fs);
    OwnRows(w.db.steps);
    RowsQuiet(w.db, db', {});
    OutsideInv(w, db');
  }

  /** A bulk rewrite of rows and flow statuses is quiet when it is quiet row by row. */
  lemma RowsQuiet(db: Db, db': Db, except: set<nat>)
    requires Ids(db) && forall y <- db.steps :: OwnOk(db.steps[y])
    requires db'.steps.Keys == db.steps.Keys && db'.nextStep == db.nextStep && db'.nextFlow == db.nextFlow
    requires forall y <- db.steps | y !in except :: ResumedRow(db.steps[y], db'.steps[y])
                                                    || PausedRow(db.steps[y], db'.steps[y])
    requires forall y <- db.steps | y in except :: QuietRow(db.steps[y], db'.steps[y], FlowDone(db', db.steps[y].flow))
    requires db'.flows.Keys == db.flows.Keys
    requires forall f <- db.flows :: db'.flows[f].watermark == db.flows[f].watermark
               && (db.flows[f].status.Terminal() ==> db'.flows[f] == db.flows[f])
    ensures QuietWrite(db, db') && RowsByOthers(db, db', except)
  {
    forall y | y in db'.steps && y !in except
      ensures QuietRow(db.steps[y], db'.steps[y], FlowDone(db', db.steps[y].flow))
      ensures OthersWrite(db.steps[y], db'.steps[y], FlowDone(db', db.steps[y].flow))
    {
      if ResumedRow(db.steps[y], db'.steps[y]) {
        ResumedQuiet(db.steps[y], db'.steps[y], FlowDone(db', db.steps[y].flow));
      } else {
        PausedQuiet(db.steps[y], db'.steps[y], FlowDone(db', db.steps[y].flow));
      }
    }
  }

  /** What an Interrupt does to a caller's row. */
  predicate PausedRow(r: Step, q: Step) {
    || q == r
    || (((r.status.Running? && r.parked) || r.status.Interrupted?) && q == r.(status := Interrupted, parked := false))
  }

  lemma PausedQuiet(r: Step, q: Step, done: bool)
    requires PausedRow(r, q) && OwnOk(r)
    ensures QuietRow(r, q, done) && OthersWrite(r, q, done)
  {
  }

  lemma TerminateInv(w: World, fs: set<nat>)
    requires Inv(w)
    ensures Inv(w.(db := Terminate(w.db, fs)))
  {
    TerminateQuiet(w.db, fs);
    OutsideInv(w, Terminate(w.db, fs));
  }

  lemma TerminateQuiet(db: Db, fs: set<nat>)
    requires WellShaped(db)
    ensures QuietWrite(db, Terminate(db, fs)) && RowsByOthers(db, Terminate(db, fs), {})
  {
    OwnRows(db.steps);
  }

  lemma StampInv(w: World, f: nat)
    requires Inv(w)
    ensures Inv(w.(db := Stamp(w.db, f)))
  {
    OwnRows(w.db.steps);
    OutsideInv(w, Stamp(w.db, f));
  }

  lemma ReapInv(w: World, fs: set<nat>)
    requires Inv(w)
    ensures Inv(w.(db := Reap(w.db, fs)))
  {
    OwnRows(w.db.steps);
    OutsideInv(w, Reap(w.db, fs));
  }

  // ----- Cancel's two writes

  lemma WatermarkInv(w: World, fs: set<nat>)
    requires Inv(w)
    ensures Inv(w.(db := Watermark(w.db, fs)))
  {
    var db' := Watermark(w.db, fs);
    MarksAfterWatermark(w.db, fs);
    assert WellShaped(db');
    forall f | f in db'.flows && !db'.flows[f].status.Terminal() ensures Sound(db', f) {
      assert Sound(w.db, f);
    }
    OutsideWrite(w, db');
  }

  lemma MarkSound(db: Db, fs: set<nat>)
    requires FlowsSound(db)
    ensures FlowsSound(Mark(db, fs))
  {
    var db' := Mark(db, fs);
    forall f | f in db'.flows && !db'.flows[f].status.Terminal() ensures Sound(db', f) {
      assert Sound(db, f);
      OrderKept(db.steps, db'.steps, f);
    }
  }

  lemma MarkInv(w: World, fs: set<nat>)
    requires Inv(w)
    ensures Inv(w.(db := Mark(w.db, fs)))
  {
    MarksAfterMark(w.db, fs);
    MarkShape(w.db, fs);
    MarkSound(w.db, fs);
    OutsideWrite(w, Mark(w.db, fs));
  }

  // ----- Dispatches

  lemma ClaimInv(w: World, x: nat)
    requires Inv(w) && Claimable(w.db, x)
    ensures LineageDown(w.db.steps) && Inv(Apply(w, AClaim(x)))
  {
    LineagesDescend(w.db.steps);
    assert StepShape(w.db.steps, x);
    RowQuiet(w.db, x, Claim(w.db, x).steps[x]);
    QuietTables(w.db, Claim(w.db, x));
    ClaimWrite(w, x);
  }

  /** A quiet write after which the dispatch is gone. */
  lemma LeaveInv(w: World, x: nat, g: nat, db': Db)
    requires Inv(w) && (x, g) in w.jobs && QuietWrite(w.db, db') && OwnerWrites(w.db, db', x, g)
    ensures Inv(Leave(w, x, g, db'))
  {
    QuietTables(w.db, db');
    OwnerLeaves(w, x, g, db');
  }

  lemma NoWrite(w: World, x: nat, g: nat)
    requires Inv(w) && (x, g) in w.jobs
    ensures QuietWrite(w.db, w.db) && OwnerWrites(w.db, w.db, x, g)
  {
    OwnRows(w.db.steps);
  }

  /** A dispatch leaves with a rewrite of its own row, or - its generation overtaken - with one others may make too. */
  lemma LeaveRow(w: World, x: nat, g: nat, q: Step)
    requires Inv(w) && (x, g) in w.jobs && x in w.db.steps && q.leaseSeq == w.db.steps[x].leaseSeq
    requires QuietRow(w.db.steps[x], q, FlowDone(w.db, w.db.steps[x].flow))
    requires q.leaseSeq == g || OthersWrite(w.db.steps[x], q, FlowDone(w.db, w.db.steps[x].flow))
    ensures Inv(Leave(w, x, g, Rewritten(w.db, x, q)))
  {
    RowQuiet(w.db, x, q);
    OwnRows(w.db.steps);
    LeaveInv(w, x, g, Rewritten(w.db, x, q));
  }

  lemma MopUpInv(w: World, x: nat, g: nat)
    requires Inv(w) && Enabled(w, AMopUp(x, g))
    ensures Inv(Leave(w, x, g, MopUp(w.db, x)))
  {
    assert JobOk(w, x, g) && StepShape(w.db.steps, x);
    LeaveRow(w, x, g, MopUp(w.db, x).steps[x]);
  }

  lemma RewindInv(w: World, x: nat, g: nat)
    requires Inv(w) && (x, g) in w.jobs && !w.jobs[(x, g)].phase.Owing?
    ensures Inv(Leave(w, x, g, Rewind(w.db, x, g)))
  {
    if HoldMatches(w.db, x, g) {
      assert JobOk(w, x, g) && StepShape(w.db.steps, x);
      LeaveRow(w, x, g, w.db.steps[x].(status := Pending));
    } else {
      NoWrite(w, x, g);
      LeaveInv(w, x, g, w.db);
    }
  }

  lemma RetryInv(w: World, x: nat, g: nat)
    requires Inv(w) && Holds(w, x, g, Exec)
    ensures Inv(Leave(w, x, g, Retry(w.db, x, g)))
  {
    if RunningMatches(w.db, x, g) {
      assert StepShape(w.db.steps, x);
      LeaveRow(w, x, g, w.db.steps[x].(status := Pending));
    } else {
      NoWrite(w, x, g);
      LeaveInv(w, x, g, w.db);
    }
  }

  lemma InterruptRows(db: Db, x: nat, g: nat, callers: set<nat>, fs: set<nat>)
    requires x in db.steps && x !in callers && db.steps[x].leaseSeq == g && Interruptible(db, x, {x})
    requires forall y <- callers | y in db.steps && db.steps[y].status.Running? :: db.steps[y].parked
    ensures var db' := Interrupt(db, x, g, callers, fs);
            && db'.steps.Keys == db.steps.Keys && db'.nextStep == db.nextStep && db'.nextFlow == db.nextFlow
            && (forall y <- db.steps | y != x :: PausedRow(db.steps[y], db'.steps[y]))
            && db'.steps[x] == db.steps[x].(status := Interrupted, parked := false)
  {
  }

  lemma InterruptFlows(db: Db, x: nat, g: nat, callers: set<nat>, fs: set<nat>)
    requires x in db.steps
    ensures var db' := Interrupt(db, x, g, callers, fs);
            && db'.flows.Keys == db.flows.Keys
            && forall f <- db.flows :: db'.flows[f].watermark == db.flows[f].watermark
                 && (db.flows[f].status.Terminal() ==> db'.flows[f] == db.flows[f])
  {
  }

  /** A write of a dispatch that still owns its row, quiet everywhere, that keeps every lease generation. */
  lemma OwnerQuiet(db: Db, db': Db, x: nat, g: nat)
    requires Own(db, x, g) && QuietWrite(db, db') && RowsByOthers(db, db', {x})
    requires forall y <- db.steps | y in db'.steps :: db'.steps[y].leaseSeq == db.steps[y].leaseSeq
    ensures OwnerWrites(db, db', x, g)
  {
  }

  lemma InterruptInv(w: World, x: nat, g: nat, callers: set<nat>, fs: set<nat>)
    requires Inv(w) && Enabled(w, AInterrupt(x, g, callers, fs))
    ensures Inv(Leave(w, x, g, Interrupt(w.db, x, g, callers, fs)))
  {
    if w.db.steps[x].leaseSeq == g && Interruptible(w.db, x, {x}) {
      OwnRows(w.db.steps);
      InterruptWrites(w.db, x, g, callers, fs);
      LeaveInv(w, x, g, Interrupt(w.db, x, g, callers, fs));
    } else {
      NoWrite(w, x, g);
      LeaveInv(w, x, g, w.db);
    }
  }

  lemma InterruptWrites(db: Db, x: nat, g: nat, callers: set<nat>, fs: set<nat>)
    requires Ids(db) && forall y <- db.steps :: OwnOk(db.steps[y])
    requires x in db.steps && x !in callers && db.steps[x].leaseSeq == g && Interruptible(db, x, {x})
    requires forall y <- callers | y in db.steps && db.steps[y].status.Running? :: db.steps[y].parked
    ensures var db' := Interrupt(db, x, g, callers, fs); QuietWrite(db, db') && OwnerWrites(db, db', x, g)
  {
    var db' := Interrupt(db, x, g, callers, fs);
    InterruptRows(db, x, g, callers, fs);
    InterruptFlows(db, x, g, callers, fs);
    RowsQuiet(db, db', {x});
    assert forall y <- db.steps :: y != x ==> PausedRow(db.steps[y], db'.steps[y]);
    OwnerQuiet(db, db', x, g);
  }

  lemma ParkQuiet(w: World, x: nat, g: nat)
    requires Inv(w) && Holds(w, x, g, Exec) && RunningMatches(w.db, x, g)
    ensures QuietWrite(w.db, Park(w.db, x, g)) && OwnerWrites(w.db, Park(w.db, x, g), x, g)
  {
    OwnRows(w.db.steps);
    assert JobOk(w, x, g);
  }

  lemma ParkedRow(r: Step, done: bool, g: nat, job: Job)
    requires JobRow(r, done, g, job, false) && job.phase.Exec? && r.leaseSeq == g && r.status.Running?
    ensures JobRow(r.(parked := true), done, g, job.(phase := Owing), false)
  {
  }

  lemma ParkInv(w: World, x: nat, g: nat)
    requires Inv(w) && LineageDown(w.db.steps) && Enabled(w, APark(x, g))
    ensures Inv(Apply(w, APark(x, g)))
  {
    if RunningMatches(w.db, x, g) {
      ParkQuiet(w, x, g);
      QuietTables(w.db, Park(w.db, x, g));
      assert JobOk(w, x, g);
      ParkedRow(w.db.steps[x], FlowDone(w.db, w.db.steps[x].flow), g, w.jobs[(x, g)]);
      OwnerAdvances(w, x, g, Park(w.db, x, g), w.jobs[(x, g)].(phase := Owing));
    } else {
      NoWrite(w, x, g);
      LeaveInv(w, x, g, w.db);
    }
  }

  lemma CompleteQuiet(w: World, x: nat, g: nat)
    requires Inv(w) && Holds(w, x, g, Exec) && CompletionMatches(w.db, x, g)
    ensures QuietWrite(w.db, Complete(w.db, x, g)) && OwnerWrites(w.db, Complete(w.db, x, g), x, g)
  {
    OwnRows(w.db.steps);
    assert JobOk(w, x, g);
  }

  lemma CompletedRow(r: Step, done: bool, g: nat, job: Job)
    requires JobRow(r, done, g, job, false) && job.phase.Exec? && r.leaseSeq == g
    ensures JobRow(r.(status := Completed), done, g, Job(Marked, job.covered || r.cancelling), false)
  {
  }

  lemma CompleteInv(w: World, x: nat, g: nat)
    requires Inv(w) && LineageDown(w.db.steps) && Enabled(w, AComplete(x, g))
    ensures Inv(Apply(w, AComplete(x, g)))
  {
    if CompletionMatches(w.db, x, g) {
      CompleteQuiet(w, x, g);
      QuietTables(w.db, Complete(w.db, x, g));
      assert JobOk(w, x, g);
      CompletedRow(w.db.steps[x], FlowDone(w.db, w.db.steps[x].flow), g, w.jobs[(x, g)]);
      OwnerAdvances(w, x, g, Complete(w.db, x, g),
                    Job(Marked, w.jobs[(x, g)].covered || w.db.steps[x].cancelling));
    } else {
      NoWrite(w, x, g);
      LeaveInv(w, x, g, w.db);
    }
  }
}
