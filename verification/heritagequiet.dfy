/** The actions that move no token hand everything on; a reap is remembered. */
module HeritageQuiet {
  import opened Rows
  import opened Transactions
  import opened Shape
  import opened Ledger
  import opened Shaping
  import opened Reach
  import opened Recount
  import opened ForkExact
  import opened Machine
  import opened Leases
  import opened Cancel
  import opened Quiet
  import opened Runs
  import opened Heritage

  lemma SameTables(db: Db)
    requires WellShaped(db)
    ensures StillWrite(db, db, {}) && TellWrite(db, db, {})
  {
  }

  lemma MoreReaped(db: Db, db': Db, a: set<nat>, b: set<nat>)
    requires StillWrite(db, db', a) && TellWrite(db, db', a) && a <= b
    ensures StillWrite(db, db', b) && TellWrite(db, db', b)
  {
    forall y | y in db'.steps ensures StillRow(db.steps[y], db'.steps[y], y in b) {
      assert StillRow(db.steps[y], db'.steps[y], y in a);
    }
  }

  /** A write that needs no reap to be explained. */
  lemma PlainKeeps(w: World, w': World, p: Past)
    requires WellShaped(w.db) && Handed(w, p) && StillWrite(w.db, w'.db, {}) && TellWrite(w.db, w'.db, {}) && JobsFrom(w, w')
    ensures Handed(w', p)
  {
    MoreReaped(w.db, w'.db, {}, p.reaped);
    StillKeeps(w, w', p, p.reaped);
    assert p.(reaped := p.reaped) == p;
  }

  lemma NothingHanded(w: World, w': World, p: Past)
    requires WellShaped(w.db) && Handed(w, p) && w'.db == w.db && JobsFrom(w, w')
    ensures Handed(w', p)
  {
    SameTables(w.db);
    PlainKeeps(w, w', p);
  }

  // ----- One row

  /** What a rewrite of an open or unsettled row may come to. */
  predicate Reworked(r: Step, q: Step) {
    && q == r.(status := q.status, parked := q.parked, leaseSeq := q.leaseSeq, cancelling := q.cancelling)
    && r.Loose() && !r.settled && !q.Faulted() && !q.status.Terminated? && (q.leaseSeq == r.leaseSeq || q.status.Open())
  }

  lemma RowHanded(w: World, w': World, p: Past, x: nat, q: Step)
    requires WellShaped(w.db) && Handed(w, p) && x in w.db.steps && w'.db == Rewritten(w.db, x, q)
    requires Reworked(w.db.steps[x], q) && !Ended(w.db, w.db.steps[x].flow) && JobsFrom(w, w')
    ensures Handed(w', p)
  {
    PlainKeeps(w, w', p);
  }

  lemma OpenNotEnded(db: Db, x: nat)
    requires WellShaped(db) && EndedClosed(db) && x in db.steps && db.steps[x].status.Open()
    ensures !Ended(db, db.steps[x].flow) && !db.steps[x].settled && db.steps[x].Loose()
  {
    assert StepShape(db.steps, x);
    assert db.steps[x].Live();
  }

  /** A dispatch that holds its row's generation works on a flow that has not ended by itself. */
  lemma CurrentNotEnded(w: World, p: Past, x: nat, g: nat)
    requires Inv(w) && Handed(w, p) && (x, g) in w.jobs && x in w.db.steps && w.db.steps[x].leaseSeq == g
    ensures !Ended(w.db, w.db.steps[x].flow) && !w.db.steps[x].settled && !w.db.steps[x].status.Created?
  {
    assert JobTold(w, p.reaped, x, g) && JobOk(w, x, g) && StepShape(w.db.steps, x);
  }

  /** The row of an action that writes one row, when it does. */
  lemma RowReworked(w: World, a: Action)
    requires LineageDown(w.db.steps) && Enabled(w, a) && OneRow?(a) && !a.AMopUp? && Apply(w, a).db != w.db
    requires a.x in w.db.steps && a.x in Apply(w, a).db.steps && !w.db.steps[a.x].settled && !w.db.steps[a.x].status.Created?
    ensures Reworked(w.db.steps[a.x], Apply(w, a).db.steps[a.x])
  {
    if a.AClaim? || a.ARevive? || a.ARecover? { OpenReworked(w, a); } else { OwnReworked(w, a); }
  }

  lemma OpenReworked(w: World, a: Action)
    requires LineageDown(w.db.steps) && Enabled(w, a) && (a.AClaim? || a.ARevive? || a.ARecover?) && Apply(w, a).db != w.db
    requires a.x in w.db.steps && a.x in Apply(w, a).db.steps && !w.db.steps[a.x].settled
    ensures Reworked(w.db.steps[a.x], Apply(w, a).db.steps[a.x])
  {
  }

  lemma OwnReworked(w: World, a: Action)
    requires LineageDown(w.db.steps) && Enabled(w, a) && (a.AComplete? || a.ARewind? || a.ARetry? || a.APark? || a.ACrash?) && Apply(w, a).db != w.db
    requires a.x in w.db.steps && a.x in Apply(w, a).db.steps && !w.db.steps[a.x].settled && !w.db.steps[a.x].status.Created?
    ensures Reworked(w.db.steps[a.x], Apply(w, a).db.steps[a.x])
  {
  }

  /** Rows are written while open, or by the dispatch that holds their generation. */
  lemma OpenOrCurrent(w: World, a: Action)
    requires LineageDown(w.db.steps) && Enabled(w, a) && OneRow?(a) && !a.AMopUp? && Apply(w, a).db != w.db
    requires a.x in w.db.steps
    ensures w.db.steps[a.x].status.Open() || (!a.AClaim? && !a.ARevive? && !a.ARecover? && (a.x, a.g) in w.jobs && w.db.steps[a.x].leaseSeq == a.g)
  {
  }

  lemma OneRowJobs(w: World, a: Action)
    requires LineageDown(w.db.steps) && Enabled(w, a) && OneRow?(a) && !a.AMopUp?
    requires a.AClaim? || (a.AComplete? && CompletionMatches(w.db, a.x, a.g)) ==> !Ended(w.db, w.db.steps[a.x].flow)
    ensures JobsFrom(w, Apply(w, a))
  {
  }

  /** The actions that write one row, all but the reap. */
  lemma OneRowHanded(w: World, p: Past, a: Action)
    requires Inv(w) && LineageDown(w.db.steps) && Handed(w, p) && Enabled(w, a) && OneRow?(a) && !a.AMopUp?
    ensures Handed(Apply(w, a), p)
  {
    if a.AClaim? { OpenNotEnded(w.db, a.x); }
    if a.AComplete? && CompletionMatches(w.db, a.x, a.g) { CurrentNotEnded(w, p, a.x, a.g); }
    OneRowJobs(w, a);
    if Apply(w, a).db == w.db {
      NothingHanded(w, Apply(w, a), p);
    } else {
      OneRowWritten(w, a);
      OpenOrCurrent(w, a);
      if w.db.steps[a.x].status.Open() { OpenNotEnded(w.db, a.x); } else { CurrentNotEnded(w, p, a.x, a.g); }
      RowReworked(w, a);
      RowHanded(w, Apply(w, a), p, a.x, Apply(w, a).db.steps[a.x]);
    }
  }

  /** The reap of one row in a flow that has stopped with status st. */
  lemma ReapRow(r: Step, st: Status, hit: bool)
    requires OwnOk(r) && st.Terminal() && (r.status.Terminated? ==> st.Terminated?)
    requires !st.Terminated? ==> !r.Live() && (st.Completed? ==> !r.Loose())
    requires r.status.Completed? && (st.Failed? || st.Cancelled?) ==> hit
    ensures var q := r.(status := st, parked := false);
            StillRow(r, q, hit) && (!st.Terminated? ==> !q.Live()) && (q.Faulted() ==> r.Faulted() || hit)
  {
  }

  lemma RowStill(db: Db, x: nat, q: Step, reaped: set<nat>)
    requires WellShaped(db) && x in db.steps && StillRow(db.steps[x], q, x in reaped) && q.leaseSeq == db.steps[x].leaseSeq
    requires Ended(db, db.steps[x].flow) && q.Live() ==> db.steps[x].Live()
    requires q.status.Terminated? ==> db.flows[q.flow].status.Terminated?
    requires q.Faulted() ==> db.steps[x].Faulted() || x in reaped
    ensures StillWrite(db, Rewritten(db, x, q), reaped) && TellWrite(db, Rewritten(db, x, q), reaped)
  {
  }

  lemma ReapTold(w: World, p: Past, x: nat, g: nat)
    requires WellShaped(w.db) && Handed(w, p) && Enabled(w, AMopUp(x, g))
    ensures var p' := After(w, p, AMopUp(x, g));
            StillWrite(w.db, MopUp(w.db, x), p'.reaped) && TellWrite(w.db, MopUp(w.db, x), p'.reaped)
  {
    var p' := After(w, p, AMopUp(x, g));
    assert JobTold(w, p.reaped, x, g) && StepShape(w.db.steps, x);
    assert Ended(w.db, w.db.steps[x].flow) ==> !w.db.steps[x].Live();
    ReapRow(w.db.steps[x], w.db.flows[w.db.steps[x].flow].status, x in p'.reaped);
    RowStill(w.db, x, MopUp(w.db, x).steps[x], p'.reaped);
  }

  lemma ReapHanded(w: World, p: Past, x: nat, g: nat)
    requires Inv(w) && LineageDown(w.db.steps) && Handed(w, p) && Enabled(w, AMopUp(x, g))
    ensures Handed(Apply(w, AMopUp(x, g)), After(w, p, AMopUp(x, g)))
  {
    ReapTold(w, p, x, g);
    var p' := After(w, p, AMopUp(x, g));
    StillKeeps(w, Apply(w, AMopUp(x, g)), p, p'.reaped);
    assert p' == p.(reaped := p'.reaped);
  }

  // ----- Many rows

  /** Rows that may change are open before, and neither lost nor terminated after - or terminated with their flow. */
  predicate OpenRow(db': Db, r: Step, q: Step) {
    || q == r
    || (&& r.status.Open() && q == r.(status := q.status, parked := q.parked, cancelling := q.cancelling) && !q.Faulted()
        && (q.status.Terminated? ==> r.flow in db'.flows && db'.flows[r.flow].status.Terminated?))
  }

  ghost predicate OpenWrite(db: Db, db': Db) {
    && (forall y {:trigger y in db'.steps} :: y in db'.steps ==> y in db.steps && OpenRow(db', db.steps[y], db'.steps[y]))
    && (forall y {:trigger y in db.steps} :: y in db.steps && db.steps[y].flow in db'.flows ==> y in db'.steps)
    && (forall y {:trigger db'.steps[y].flow} :: y in db'.steps ==> db'.steps[y].flow in db'.flows)
    && (forall f {:trigger f in db'.flows} :: f in db'.flows ==>
          && f in db.flows && (db.flows[f].status.Terminal() ==> db'.flows[f].status == db.flows[f].status)
          && (db'.flows[f].status.Terminal() && !db.flows[f].status.Terminal() ==> db'.flows[f].status.Terminated?))
  }

  lemma OpenStill(db: Db, db': Db)
    requires WellShaped(db) && EndedClosed(db) && OpenWrite(db, db')
    ensures StillWrite(db, db', {}) && TellWrite(db, db', {})
  {
    OwnRows(db.steps);
    forall y | y in db'.steps
      ensures StillRow(db.steps[y], db'.steps[y], false) && (Ended(db, db.steps[y].flow) && db'.steps[y].Live() ==> db.steps[y].Live())
    {
      assert OpenRow(db', db.steps[y], db'.steps[y]);
    }
  }

  lemma ManyHanded(w: World, w': World, p: Past)
    requires WellShaped(w.db) && Handed(w, p) && OpenWrite(w.db, w'.db) && JobsFrom(w, w')
    ensures Handed(w', p)
  {
    OpenStill(w.db, w'.db);
    PlainKeeps(w, w', p);
  }

  lemma TerminateOpen(db: Db, fs: set<nat>)
    requires WellShaped(db) && EndedClosed(db)
    ensures OpenWrite(db, Terminate(db, fs))
  {
    var db' := Terminate(db, fs);
    OwnRows(db.steps);
    forall y | y in db'.steps ensures OpenRow(db', db.steps[y], db'.steps[y]) {
      if db.steps[y].status.Open() { OpenNotEnded(db, y); }
    }
  }

  lemma InterruptOpen(db: Db, x: nat, g: nat, callers: set<nat>, fs: set<nat>)
    requires WellShaped(db) && x in db.steps
    ensures OpenWrite(db, Interrupt(db, x, g, callers, fs))
  {
  }

  lemma ResumeOpen(db: Db, root: nat, x: nat, callers: set<nat>, fs: set<nat>)
    requires WellShaped(db)
    ensures OpenWrite(db, Resume(db, root, x, callers, fs))
  {
    ResumeRows(db, root, x, callers, fs);
    ResumeFlows(db, root, x, callers, fs);
    var db' := Resume(db, root, x, callers, fs);
    forall y | y in db'.steps ensures y in db.steps && OpenRow(db', db.steps[y], db'.steps[y]) {
      assert ResumedRow(db.steps[y], db'.steps[y]);
    }
  }

  lemma MarkOpen(db: Db, fs: set<nat>)
    requires WellShaped(db)
    ensures OpenWrite(db, Mark(db, fs)) && OpenWrite(db, Watermark(db, fs))
  {
  }

  lemma StampOpen(db: Db, f: nat)
    requires WellShaped(db)
    ensures OpenWrite(db, Stamp(db, f))
  {
  }

  lemma ReapOpen(db: Db, fs: set<nat>)
    requires WellShaped(db)
    ensures OpenWrite(db, Reap(db, fs))
  {
  }

  /** The actions that write many rows. */
  predicate ManyRows?(a: Action) {
    a.AInterrupt? || a.AResume? || a.ATerminate? || a.AWatermark? || a.AMark? || a.AStamp? || a.AReap?
  }

  lemma ManyOpen(w: World, a: Action)
    requires WellShaped(w.db) && EndedClosed(w.db) && LineageDown(w.db.steps) && Enabled(w, a) && ManyRows?(a)
    ensures OpenWrite(w.db, Apply(w, a).db)
  {
    match a
    case AInterrupt(x, g, callers, fs) => InterruptOpen(w.db, x, g, callers, fs);
    case AResume(root, x, callers, fs) => ResumeOpen(w.db, root, x, callers, fs);
    case ATerminate(fs) => TerminateOpen(w.db, fs);
    case AWatermark(fs) => MarkOpen(w.db, fs);
    case AMark(fs) => MarkOpen(w.db, fs);
    case AStamp(f) => StampOpen(w.db, f);
    case AReap(fs) => ReapOpen(w.db, fs);
  }

  lemma ManyRowsHanded(w: World, p: Past, a: Action)
    requires WellShaped(w.db) && LineageDown(w.db.steps) && Handed(w, p) && Enabled(w, a) && ManyRows?(a)
    ensures Handed(Apply(w, a), p)
  {
    ManyOpen(w, a);
    ManyHanded(w, Apply(w, a), p);
  }
}
