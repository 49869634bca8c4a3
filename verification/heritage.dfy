/**
 What a run hands on to a later Fork. Three kinds of event are remembered: a reap that wrote a loss over a
 completed step, a fan-out with an edge straight to its fan-in, and a clone that took over a cohort which had
 resolved in its origin without converging. Flows without such a past keep the properties a Fork relies on.
 */
module Heritage {
  import opened Rows
  import opened Transactions
  import opened Shape
  import opened Shaping
  import opened Reach
  import opened Pruning
  import opened Recount
  import opened ForkExact
  import opened Machine
  import opened Leases
  import opened Quiet

  /** Steps reaped over a completion; flows with a direct edge; clones with a frozen cohort. */
  datatype Past = Past(reaped: set<nat>, direct: set<nat>, frozen: set<nat>)

  /** A cohort counted as fully arrived and clean that has no fan-in. */
  ghost predicate FrozenCohort(t: map<nat, Step>) {
    exists y :: y in t && Clean(t[y]) && t[y].next == 0
  }

  predicate Clean(r: Step) {
    r.spawned && r.arrivals >= r.size && r.failures == 0
  }

  /** The past after an action of w. */
  ghost function After(w: World, p: Past, a: Action): Past
    requires Enabled(w, a)
  {
    match a
    case AMopUp(x, _) =>
      var f := w.db.flows[w.db.steps[x].flow];
      if w.db.steps[x].status.Completed? && (f.status.Failed? || f.status.Cancelled?) then p.(reaped := p.reaped + {x}) else p
    case APush(x, _, _, direct, _) => if direct > 0 then p.(direct := p.direct + {w.db.steps[x].flow}) else p
    case AFork(f, x, caller, _, _) =>
      if FrozenCohort(Rewound(w.db.steps, f, x, caller)) then p.(frozen := p.frozen + {w.db.nextFlow}) else p
    case _ => p
  }

  // ----- What is handed on

  /** A settled step is a loss only if a reap made it one. */
  ghost predicate Unharmed(steps: map<nat, Step>, reaped: set<nat>) {
    forall y {:trigger steps[y].settled} :: y in steps && y !in reaped ==> steps[y].Passed()
  }

  /** A cohort of a running flow that resolved without a loss has converged. */
  ghost predicate CleanConverge(db: Db, frozen: set<nat>) {
    forall y {:trigger Clean(db.steps[y])} ::
      y in db.steps && Clean(db.steps[y]) && !FlowDone(db, db.steps[y].flow) && db.steps[y].flow !in frozen ==> db.steps[y].next != 0
  }

  /** Cohorts converge from the inside. */
  ghost predicate InnerFirst(steps: map<nat, Step>, frozen: set<nat>) {
    forall y {:trigger steps[y].spawned} :: y in steps && steps[y].flow !in frozen && steps[y].spawned
      && steps[y].lineage != 0 && steps[y].lineage in steps && steps[steps[y].lineage].next != 0
      ==> steps[y].next != 0
  }

  /** Without direct edges every branch has a head. */
  ghost predicate Headed(steps: map<nat, Step>, direct: set<nat>) {
    forall s {:trigger steps[s].spawned} :: s in steps && steps[s].spawned && steps[s].flow !in direct
      ==> |Heads(steps, steps.Keys, s)| == steps[s].size
  }

  /** The flow has stopped by itself. */
  predicate Ended(db: Db, f: nat) {
    f in db.flows && (db.flows[f].status.Completed? || db.flows[f].status.Failed? || db.flows[f].status.Cancelled?)
  }

  /** A flow that stopped by itself has nothing open any more, and a completed one no loss. */
  ghost predicate EndedClosed(db: Db) {
    forall y {:trigger db.steps[y].Live()} :: y in db.steps && Ended(db, db.steps[y].flow) ==>
      !db.steps[y].Live() && (db.flows[db.steps[y].flow].status.Completed? ==> !db.steps[y].Loose())
  }

  /** What the dispatches in flight say about their rows. */
  ghost predicate JobTold(w: World, reaped: set<nat>, x: nat, g: nat)
    requires (x, g) in w.jobs
  {
    x in w.db.steps ==>
      var r := w.db.steps[x];
      && (r.status.Terminated? ==> r.flow in w.db.flows && w.db.flows[r.flow].status.Terminated?)
      && (w.jobs[(x, g)].phase.Marked? && r.Faulted() ==> x in reaped)
      && (Ended(w.db, r.flow) ==> g != r.leaseSeq)
  }

  ghost predicate JobsTold(w: World, reaped: set<nat>) {
    forall x, g {:trigger JobTold(w, reaped, x, g)} :: (x, g) in w.jobs ==> JobTold(w, reaped, x, g)
  }

  ghost predicate Handed(w: World, p: Past) {
    && Unharmed(w.db.steps, p.reaped) && ConvergedQuiet(w.db.steps) && CleanConverge(w.db, p.frozen)
    && InnerFirst(w.db.steps, p.frozen) && Headed(w.db.steps, p.direct) && EndedClosed(w.db) && JobsTold(w, p.reaped)
  }

  // ----- Writes that move no token

  /** A row whose place in the graph and in the books is kept, and which is shaken only if it was loose. */
  predicate StillRow(r: Step, q: Step, reaped: bool) {
    && q == r.(status := q.status, parked := q.parked, leaseSeq := q.leaseSeq, cancelling := q.cancelling)
    && (q.Loose() ==> r.Loose())
    && (!reaped && r.Passed() ==> q.Passed())
  }

  ghost predicate StillWrite(db: Db, db': Db, reaped: set<nat>) {
    && (forall y {:trigger y in db'.steps} :: y in db'.steps ==>
          && y in db.steps && StillRow(db.steps[y], db'.steps[y], y in reaped)
          && (Ended(db, db.steps[y].flow) && db'.steps[y].Live() ==> db.steps[y].Live()))
    && (forall y {:trigger y in db.steps} :: y in db.steps && db.steps[y].flow in db'.flows ==> y in db'.steps)
    && (forall y {:trigger db'.steps[y].flow} :: y in db'.steps ==> db'.steps[y].flow in db'.flows)
    && (forall f {:trigger f in db'.flows} :: f in db'.flows ==>
          && (!db'.flows[f].status.Terminal() ==> !FlowDone(db, f))
          && (Ended(db', f) ==> Ended(db, f) && db'.flows[f].status == db.flows[f].status))
  }

  lemma {:induction false} StillWithin(steps: map<nat, Step>, steps': map<nat, Step>, z: nat, s: nat)
    requires forall y {:trigger y in steps'} :: y in steps' ==> y in steps && steps'[y].lineage == steps[y].lineage
    requires Within(steps', z, s)
    ensures Within(steps, z, s)
    decreases z
  {
    assert z in steps';
    if steps'[z].lineage != s { StillWithin(steps, steps', steps'[z].lineage, s); }
  }

  lemma StillQuiet(db: Db, db': Db, reaped: set<nat>)
    requires ConvergedQuiet(db.steps) && StillWrite(db, db', reaped)
    ensures ConvergedQuiet(db'.steps)
  {
    forall s, z | Within(db'.steps, z, s) && s in db'.steps && db'.steps[s].next != 0 ensures !db'.steps[z].Loose() {
      StillWithin(db.steps, db'.steps, z, s);
      assert StillRow(db.steps[z], db'.steps[z], z in reaped) && StillRow(db.steps[s], db'.steps[s], s in reaped);
    }
  }

  lemma StillHeaded(db: Db, db': Db, reaped: set<nat>, direct: set<nat>)
    requires Shaped(db.steps) && 0 !in db.steps && Headed(db.steps, direct) && StillWrite(db, db', reaped)
    ensures Headed(db'.steps, direct)
  {
    forall s | s in db'.steps && db'.steps[s].spawned && db'.steps[s].flow !in direct
      ensures |Heads(db'.steps, db'.steps.Keys, s)| == db'.steps[s].size
    {
      assert StillRow(db.steps[s], db'.steps[s], s in reaped);
      SameHeads(db, db', reaped, s);
    }
  }

  lemma SameHeads(db: Db, db': Db, reaped: set<nat>, s: nat)
    requires Shaped(db.steps) && StillWrite(db, db', reaped) && s in db'.steps && s != 0
    ensures Heads(db'.steps, db'.steps.Keys, s) == Heads(db.steps, db.steps.Keys, s)
  {
    forall h | h in Heads(db.steps, db.steps.Keys, s) ensures h in db'.steps {
      assert StepShape(db.steps, h);
      assert db'.steps[s].flow in db'.flows && StillRow(db.steps[s], db'.steps[s], s in reaped);
    }
    forall h | h in db'.steps ensures h in db.steps && db'.steps[h].lineage == db.steps[h].lineage && db'.steps[h].pred == db.steps[h].pred {
      assert StillRow(db.steps[h], db'.steps[h], h in reaped);
    }
  }

  lemma StillBooks(db: Db, db': Db, p: Past, reaped: set<nat>)
    requires Shaped(db.steps) && 0 !in db.steps && StillWrite(db, db', reaped) && p.reaped <= reaped
    requires Unharmed(db.steps, p.reaped) && CleanConverge(db, p.frozen) && InnerFirst(db.steps, p.frozen)
    ensures Unharmed(db'.steps, reaped) && CleanConverge(db', p.frozen) && InnerFirst(db'.steps, p.frozen)
  {
    forall y | y in db'.steps ensures y in db.steps && StillRow(db.steps[y], db'.steps[y], y in reaped) {}
    forall y | y in db'.steps && Clean(db'.steps[y]) && !FlowDone(db', db'.steps[y].flow) && db'.steps[y].flow !in p.frozen
      ensures db'.steps[y].next != 0
    {
      assert Clean(db.steps[y]);
    }
  }

  lemma StillClosed(db: Db, db': Db, reaped: set<nat>)
    requires EndedClosed(db) && StillWrite(db, db', reaped)
    ensures EndedClosed(db')
  {
    forall y | y in db'.steps && Ended(db', db'.steps[y].flow)
      ensures !db'.steps[y].Live() && (db'.flows[db'.steps[y].flow].status.Completed? ==> !db'.steps[y].Loose())
    {
      assert StillRow(db.steps[y], db'.steps[y], y in reaped);
      assert db'.steps[y].flow in db'.flows && Ended(db, db.steps[y].flow);
      assert !db.steps[y].Live();
    }
  }

  /** A write that moves no token hands everything on, if what it tells of the dispatches is right. */
  lemma StillHanded(w: World, w': World, p: Past, reaped: set<nat>)
    requires WellShaped(w.db) && Handed(w, p) && StillWrite(w.db, w'.db, reaped) && p.reaped <= reaped
    requires JobsTold(w', reaped)
    ensures Handed(w', p.(reaped := reaped))
  {
    StillQuiet(w.db, w'.db, reaped);
    StillHeaded(w.db, w'.db, reaped, p.direct);
    StillBooks(w.db, w'.db, p, reaped);
    StillClosed(w.db, w'.db, reaped);
  }

  // ----- The dispatches

  /** A write tells nothing new of losses and terminations but those of reaped steps and terminated flows. */
  ghost predicate TellWrite(db: Db, db': Db, reaped: set<nat>) {
    && (forall y {:trigger y in db'.steps} :: y in db'.steps ==>
          y in db.steps && db'.steps[y].flow == db.steps[y].flow && db.steps[y].flow in db'.flows
          && (db'.steps[y].status.Terminated? ==> db.steps[y].status.Terminated? || db'.flows[db.steps[y].flow].status.Terminated?)
          && (db'.steps[y].Faulted() ==> db.steps[y].Faulted() || y in reaped)
          && (db'.steps[y].leaseSeq == db.steps[y].leaseSeq || db'.steps[y].status.Open()))
    && (forall f {:trigger f in db'.flows} :: f in db'.flows ==>
          (f in db.flows && db.flows[f].status.Terminated? ==> db'.flows[f].status.Terminated?)
          && (Ended(db', f) ==> Ended(db, f)))
  }

  /** The dispatches of w' are those of w, or stand on rows that are neither terminated nor lost in a running flow. */
  ghost predicate JobsFrom(w: World, w': World) {
    forall y, h {:trigger (y, h) in w'.jobs} :: (y, h) in w'.jobs ==>
      || ((y, h) in w.jobs && (w'.jobs[(y, h)].phase.Marked? ==> w.jobs[(y, h)].phase.Marked?))
      || (y in w'.db.steps ==> !w'.db.steps[y].status.Terminated? && !w'.db.steps[y].Faulted() && !Ended(w'.db, w'.db.steps[y].flow))
  }

  lemma TellKeeps(w: World, w': World, reaped: set<nat>, reaped': set<nat>)
    requires JobsTold(w, reaped) && reaped <= reaped' && TellWrite(w.db, w'.db, reaped') && JobsFrom(w, w')
    requires forall y <- w'.db.steps | Ended(w'.db, w'.db.steps[y].flow) :: !w'.db.steps[y].status.Open()
    ensures JobsTold(w', reaped')
  {
    forall y, h | (y, h) in w'.jobs ensures JobTold(w', reaped', y, h) {
      if (y, h) in w.jobs {
        assert JobTold(w, reaped, y, h);
        if y in w'.db.steps { assert y in w.db.steps; }
      }
    }
  }

  /** Both sides of a write that moves no token. */
  lemma StillKeeps(w: World, w': World, p: Past, reaped: set<nat>)
    requires WellShaped(w.db) && Handed(w, p) && StillWrite(w.db, w'.db, reaped) && p.reaped <= reaped
    requires TellWrite(w.db, w'.db, reaped) && JobsFrom(w, w')
    ensures Handed(w', p.(reaped := reaped))
  {
    StillClosed(w.db, w'.db, reaped);
    forall y | y in w'.db.steps && Ended(w'.db, w'.db.steps[y].flow) ensures !w'.db.steps[y].status.Open() {
      assert !w'.db.steps[y].Live();
    }
    TellKeeps(w, w', p.reaped, reaped);
    StillHanded(w, w', p, reaped);
  }
}
