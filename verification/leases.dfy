/**
 Lease fencing. A dispatch whose generation is the row's own is the only one that can act on the row; a
 dispatch that was overtaken finds every fenced write matching no row, and cannot be at the point of the one
 write that carries no fence.
 */
module Leases {
  import opened Rows
  import opened Transactions
  import opened Machine

  ghost predicate InLog(log: seq<(nat, nat)>, x: nat) {
    exists i :: 0 <= i < |log| && log[i].0 == x
  }

  /** What a dispatch (x, g) may rely on about the row of its step; `done` says that the flow has stopped. */
  predicate JobRow(r: Step, done: bool, g: nat, job: Job, logged: bool) {
    && g <= r.leaseSeq
    && (job.phase.Marked? ==>
          && r.leaseSeq == g && !r.status.Open() && !r.settled && !logged
          && (!done ==> r.status.Completed? && job.covered == r.cancelling))
    && (!job.phase.Marked? && r.leaseSeq == g ==>
          && !logged && !r.settled && (job.covered ==> r.cancelling)
          && (!done ==> r.status.Open())
          && (!done && job.phase.Exec? ==> !r.parked && !r.status.Interrupted?))
  }

  ghost predicate JobOk(w: World, x: nat, g: nat)
    requires (x, g) in w.jobs
  {
    && x < w.db.nextStep
    && (x in w.db.steps ==>
          JobRow(w.db.steps[x], FlowDone(w.db, w.db.steps[x].flow), g, w.jobs[(x, g)], InLog(w.log, x)))
  }

  ghost predicate JobsOk(w: World) {
    forall x, g {:trigger JobOk(w, x, g)} :: (x, g) in w.jobs ==> JobOk(w, x, g)
  }

  /** Each step at most once, never reopened. */
  ghost predicate LogOk(w: World) {
    && (forall i, j :: 0 <= i < j < |w.log| ==> w.log[i].0 != w.log[j].0)
    && (forall i :: 0 <= i < |w.log| ==>
          w.log[i].0 < w.db.nextStep
          && (w.log[i].0 in w.db.steps ==> !w.db.steps[w.log[i].0].status.Open()))
  }

  // ----- Writes by others

  /** How a row may change under the hands of anybody but its current dispatch; done' is judged after the write. */
  predicate OthersWrite(r: Step, q: Step, done': bool) {
    && q.flow == r.flow && q.settled == r.settled && (r.cancelling ==> q.cancelling)
    && (!r.status.Open() ==> !q.status.Open() && q.cancelling == r.cancelling && q.leaseSeq == r.leaseSeq)
    && (q.leaseSeq == r.leaseSeq || (q.leaseSeq == r.leaseSeq + 1 && q.status.Open()))
    && (!done' && q.leaseSeq == r.leaseSeq ==>
          && (r.status.Completed? ==> q.status.Completed?)
          && (r.status.Open() ==> q.status.Open())
          && (r.status.Open() && !r.parked && !r.status.Interrupted? ==> !q.parked && !q.status.Interrupted?))
  }

  /** A stopped flow stays stopped (or its row goes away). */
  ghost predicate DoneStays(db: Db, db': Db) {
    forall f {:trigger f in db'.flows} :: f in db.flows && f in db'.flows && db.flows[f].status.Terminal()
      ==> db'.flows[f].status == db.flows[f].status
  }

  ghost predicate RowsByOthers(db: Db, db': Db, except: set<nat>) {
    forall z {:trigger z in db'.steps} :: z in db'.steps ==>
      if z in db.steps then z in except || OthersWrite(db.steps[z], db'.steps[z], FlowDone(db', db.steps[z].flow))
      else z >= db.nextStep
  }

  ghost predicate FlowsPresent(db: Db) {
    forall y {:trigger db.steps[y].flow} :: y in db.steps ==> db.steps[y].flow in db.flows
  }

  lemma RowKeepsJob(r: Step, q: Step, done: bool, done': bool, g: nat, job: Job, logged: bool)
    requires JobRow(r, done, g, job, logged) && OthersWrite(r, q, done') && (done ==> done')
    ensures JobRow(q, done', g, job, logged)
  {
  }

  /** A write by nobody's dispatch: an operation, a sweep, a revival. */
  lemma OutsideWrite(w: World, db': Db)
    requires JobsOk(w) && LogOk(w) && DoneStays(w.db, db') && FlowsPresent(w.db)
    requires RowsByOthers(w.db, db', {}) && db'.nextStep >= w.db.nextStep
    requires forall z <- db'.steps :: z in w.db.steps ==> db'.steps[z].leaseSeq == w.db.steps[z].leaseSeq
    ensures JobsOk(w.(db := db')) && LogOk(w.(db := db'))
  {
    var w' := w.(db := db');
    forall x, g | (x, g) in w'.jobs ensures JobOk(w', x, g) {
      assert JobOk(w, x, g);
      if x in db'.steps {
        assert x in w.db.steps;
        RowKeepsJob(w.db.steps[x], db'.steps[x], FlowDone(w.db, w.db.steps[x].flow),
                    FlowDone(db', w.db.steps[x].flow), g, w.jobs[(x, g)], InLog(w.log, x));
      }
    }
    forall i | 0 <= i < |w.log|
      ensures w.log[i].0 < db'.nextStep && (w.log[i].0 in db'.steps ==> !db'.steps[w.log[i].0].status.Open())
    {
      var x := w.log[i].0;
      if x in db'.steps { assert x in w.db.steps; }
    }
  }

  /** A claim: a new generation, which no dispatch holds and which nothing has logged. */
  lemma ClaimWrite(w: World, x: nat)
    requires JobsOk(w) && LogOk(w) && Claimable(w.db, x) && x < w.db.nextStep
    requires w.db.steps[x].settled ==> !w.db.steps[x].status.Open()
    requires LineageDown(w.db.steps)
    ensures JobsOk(Apply(w, AClaim(x))) && LogOk(Apply(w, AClaim(x)))
  {
    var w' := Apply(w, AClaim(x));
    var n := w.db.steps[x].leaseSeq + 1;
    forall y, g | (y, g) in w'.jobs ensures JobOk(w', y, g) {
      if (y, g) != (x, n) {
        assert (y, g) in w.jobs && JobOk(w, y, g);
      }
    }
    assert !InLog(w.log, x);
  }

  /** The dispatch (x, g) may write the row of x: the row is still at its generation. */
  ghost predicate Own(db: Db, x: nat, g: nat) {
    x in db.steps && db.steps[x].leaseSeq == g
  }

  /** What a dispatch's write does to the tables. */
  ghost predicate OwnerWrites(db: Db, db': Db, x: nat, g: nat) {
    && DoneStays(db, db') && RowsByOthers(db, db', {x}) && db'.nextStep >= db.nextStep
    && (x in db'.steps && x in db.steps ==>
          if Own(db, x, g) then db'.steps[x].leaseSeq == g && db'.steps[x].flow == db.steps[x].flow
          else OthersWrite(db.steps[x], db'.steps[x], FlowDone(db', db.steps[x].flow)))
    && (forall z {:trigger db'.steps[z].leaseSeq} ::
          z in db'.steps && z in db.steps ==> db'.steps[z].leaseSeq == db.steps[z].leaseSeq)
  }

  lemma OthersKeepJob(w: World, w': World, x: nat, g: nat, y: nat, h: nat)
    requires JobsOk(w) && FlowsPresent(w.db) && OwnerWrites(w.db, w'.db, x, g)
    requires (y, h) in w.jobs && (y, h) != (x, g) && (y, h) in w'.jobs && w'.jobs[(y, h)] == w.jobs[(y, h)]
    requires forall z :: z != x ==> (InLog(w'.log, z) <==> InLog(w.log, z))
    requires !Own(w.db, x, g) ==> w'.log == w.log
    ensures JobOk(w', y, h)
  {
    assert JobOk(w, y, h);
    if y in w'.db.steps {
      assert y in w.db.steps;
      if y == x && Own(w.db, x, g) {
        assert w'.db.steps[y].leaseSeq == w.db.steps[y].leaseSeq;
      } else {
        RowKeepsJob(w.db.steps[y], w'.db.steps[y], FlowDone(w.db, w.db.steps[y].flow),
                    FlowDone(w'.db, w.db.steps[y].flow), h, w.jobs[(y, h)], InLog(w.log, y));
      }
    }
  }

  /** A dispatch that owns its row has not been logged. */
  lemma OwnerNotLogged(w: World, x: nat, g: nat)
    requires JobsOk(w) && (x, g) in w.jobs && Own(w.db, x, g)
    ensures !InLog(w.log, x)
  {
    assert JobOk(w, x, g);
  }

  /** A dispatch leaves with a write that is not logged. */
  lemma OwnerLeaves(w: World, x: nat, g: nat, db': Db)
    requires JobsOk(w) && LogOk(w) && FlowsPresent(w.db) && (x, g) in w.jobs && OwnerWrites(w.db, db', x, g)
    ensures JobsOk(Leave(w, x, g, db')) && LogOk(Leave(w, x, g, db'))
  {
    var w' := Leave(w, x, g, db');
    forall y, h | (y, h) in w'.jobs ensures JobOk(w', y, h) { OthersKeepJob(w, w', x, g, y, h); }
    LogKept(w, w', x, g);
  }

  lemma LogKept(w: World, w': World, x: nat, g: nat)
    requires JobsOk(w) && LogOk(w) && (x, g) in w.jobs && OwnerWrites(w.db, w'.db, x, g) && w'.log == w.log
    ensures LogOk(w')
  {
    forall i | 0 <= i < |w.log|
      ensures w.log[i].0 < w'.db.nextStep
              && (w.log[i].0 in w'.db.steps ==> !w'.db.steps[w.log[i].0].status.Open())
    {
      var z := w.log[i].0;
      if z in w'.db.steps {
        assert z in w.db.steps;
        if z == x && Own(w.db, x, g) { OwnerNotLogged(w, x, g); }
      }
    }
  }

  /** A dispatch leaves with a write that is logged: the row is its own and closed afterwards. */
  lemma OwnerCommits(w: World, x: nat, g: nat, db': Db)
    requires JobsOk(w) && LogOk(w) && FlowsPresent(w.db) && (x, g) in w.jobs && OwnerWrites(w.db, db', x, g)
    requires Own(w.db, x, g) && x in db'.steps && !db'.steps[x].status.Open()
    ensures JobsOk(World(db', w.jobs - {(x, g)}, w.log + [(x, g)]))
    ensures LogOk(World(db', w.jobs - {(x, g)}, w.log + [(x, g)]))
  {
    var log' := w.log + [(x, g)];
    var w' := World(db', w.jobs - {(x, g)}, log');
    forall z | z != x ensures InLog(log', z) <==> InLog(w.log, z) {
      if InLog(w.log, z) {
        var i :| 0 <= i < |w.log| && w.log[i].0 == z;
        assert log'[i].0 == z;
      }
    }
    forall y, h | (y, h) in w'.jobs ensures JobOk(w', y, h) { OthersKeepJob(w, w', x, g, y, h); }
    OwnerNotLogged(w, x, g);
    LogKept(w, w'.(log := w.log), x, g);
    assert JobOk(w, x, g);
  }

  /** A dispatch moves on to its next phase. */
  lemma OwnerAdvances(w: World, x: nat, g: nat, db': Db, job: Job)
    requires JobsOk(w) && LogOk(w) && FlowsPresent(w.db) && (x, g) in w.jobs && OwnerWrites(w.db, db', x, g)
    requires Own(w.db, x, g) && x in db'.steps
    requires JobRow(db'.steps[x], FlowDone(db', db'.steps[x].flow), g, job, false)
    ensures JobsOk(World(db', w.jobs[(x, g) := job], w.log)) && LogOk(World(db', w.jobs[(x, g) := job], w.log))
  {
    var w' := World(db', w.jobs[(x, g) := job], w.log);
    OwnerNotLogged(w, x, g);
    assert JobOk(w, x, g);
    forall y, h | (y, h) in w'.jobs ensures JobOk(w', y, h) {
      if (y, h) != (x, g) { OthersKeepJob(w, w', x, g, y, h); }
    }
    LogKept(w, w', x, g);
  }
}
