/** The transactions that move a token hand everything on; convergence is where a cohort is found quiet. */
module HeritageCommits {
  import opened Rows
  import opened Transactions
  import opened Shape
  import opened Ledger
  import opened Accounting
  import opened Verdict
  import opened Shaping
  import opened Reach
  import opened Recount
  import opened ForkExact
  import opened Machine
  import opened Leases
  import opened Carrying
  import opened Quiet
  import opened Commits
  import opened Runs
  import opened Heritage
  import opened HeritageQuiet

  /** A row a transition of x adds. */
  ghost predicate FreshRow(db: Db, x: nat, q: Step) {
    && x in db.steps && q.pred == x && q.flow == db.steps[x].flow && q.status.Pending? && !q.settled && !q.spawned && q.next == 0
    && (q.lineage == x || q.lineage == 0 || Within(db.steps, x, q.lineage))
  }

  /** What a transaction of x does to the graph: c is the one row whose continuation may be new. */
  ghost predicate Advance(db: Db, db': Db, x: nat, c: nat) {
    && x in db.steps && db.steps[x].flow in db.flows && FlowsCarried(db, db', db.steps[x].flow)
    && (forall z {:trigger z in db.steps} :: z in db.steps ==>
          z in db'.steps && (if z == x then OwnRow(db.steps[z], db'.steps[z]) else CarriedRow(db.steps[z], db'.steps[z]))
          && (z != x ==> db'.steps[z].size == db.steps[z].size)
          && (db.steps[z].flow != db.steps[x].flow ==> db'.steps[z] == db.steps[z])
          && (db'.steps[z].next == db.steps[z].next || (z == c && db.steps[z].next == 0)))
    && (forall z {:trigger z in db'.steps} :: z in db'.steps && z !in db.steps ==> db.nextStep <= z && FreshRow(db, x, db'.steps[z]))
  }

  // ----- Quiet inside what has converged

  lemma {:induction false} OldWithin(db: Db, db': Db, x: nat, c: nat, z: nat, s: nat)
    requires Advance(db, db', x, c) && z in db.steps && LineageDown(db.steps)
    requires Within(db'.steps, z, s)
    ensures Within(db.steps, z, s)
    decreases z
  {
    assert db'.steps[z].lineage == db.steps[z].lineage;
    if db.steps[z].lineage != s { OldWithin(db, db', x, c, db.steps[z].lineage, s); }
  }

  /** A new row lies only in cohorts x lies in, or in the one x spawned. */
  lemma NewWithin(db: Db, db': Db, x: nat, c: nat, z: nat, s: nat)
    requires Advance(db, db', x, c) && z !in db.steps && LineageDown(db.steps) && Within(db'.steps, z, s)
    ensures s == x || Within(db.steps, x, s)
  {
    assert FreshRow(db, x, db'.steps[z]);
    var l := db'.steps[z].lineage;
    if l != s {
      if l == x {
        OldWithin(db, db', x, c, x, s);
      } else {
        WithinIn(db.steps, x, l);
        OldWithin(db, db', x, c, l, s);
        WithinOn(db.steps, x, l, s);
      }
    }
  }

  lemma {:induction false} WithinIn(steps: map<nat, Step>, z: nat, s: nat)
    requires LineageDown(steps) && Within(steps, z, s)
    ensures s in steps
    decreases z
  {
    if steps[z].lineage != s { WithinIn(steps, steps[z].lineage, s); }
  }

  /** x moves from loose to settled, or - in a stopped flow - merely stays out of the way. */
  ghost predicate Settles(db: Db, db': Db, x: nat)
    requires x in db.steps && x in db'.steps
  {
    !db.steps[x].settled && !db.steps[x].spawned && db.steps[x].next == 0
    && (db.steps[x].Loose() || (!db'.steps[x].Loose() && !db'.steps[x].spawned && db'.steps.Keys == db.steps.Keys))
  }

  /** Nothing stirs inside c's cohort if c has converged. */
  ghost predicate Hushed(steps: map<nat, Step>, c: nat) {
    c in steps && steps[c].next != 0 ==> forall z {:trigger Within(steps, z, c)} :: Within(steps, z, c) ==> !steps[z].Loose()
  }

  lemma AdvanceQuiet(db: Db, db': Db, x: nat, c: nat)
    requires Advance(db, db', x, c) && LineageDown(db.steps) && ConvergedQuiet(db.steps) && Settles(db, db', x)
    requires (x != c ==> db'.steps[x].next == 0) && Hushed(db'.steps, c)
    ensures ConvergedQuiet(db'.steps)
  {
    forall s, z | Within(db'.steps, z, s) && s in db'.steps && db'.steps[s].next != 0 ensures !db'.steps[z].Loose() {
      if s != c {
        assert s in db.steps && db.steps[s].next != 0 && s != x;
        assert Within(db.steps, x, s) ==> !db.steps[x].Loose();
        if z in db.steps {
          OldWithin(db, db', x, c, z, s);
          assert !db.steps[z].Loose();
        } else {
          NewWithin(db, db', x, c, z, s);
        }
      }
    }
  }

  // ----- The rest

  lemma AdvanceUnharmed(db: Db, db': Db, x: nat, c: nat, reaped: set<nat>)
    requires Advance(db, db', x, c) && Unharmed(db.steps, reaped) && (x in reaped || db'.steps[x].Passed())
    ensures Unharmed(db'.steps, reaped)
  {
    forall y | y in db'.steps && y !in reaped ensures db'.steps[y].Passed() {
      assert y in db.steps ==> db.steps[y].Passed();
    }
  }

  /** Which rows of x's flow may be clean after a transaction: those that were, and those that have converged. */
  ghost predicate CleanFrom(db: Db, db': Db, f: nat) {
    forall y {:trigger Clean(db'.steps[y])} :: y in db.steps && y in db'.steps && db.steps[y].flow == f && Clean(db'.steps[y])
      ==> Clean(db.steps[y]) || db'.steps[y].next != 0
  }

  lemma AdvanceClean(db: Db, db': Db, x: nat, c: nat, frozen: set<nat>)
    requires Advance(db, db', x, c) && CleanConverge(db, frozen)
    requires !FlowDone(db', db.steps[x].flow) ==> CleanFrom(db, db', db.steps[x].flow)
    ensures CleanConverge(db', frozen)
  {
    forall y | y in db'.steps && Clean(db'.steps[y]) && !FlowDone(db', db'.steps[y].flow) && db'.steps[y].flow !in frozen
      ensures db'.steps[y].next != 0
    {
      assert y in db.steps;
      if db.steps[y].flow != db.steps[x].flow { assert Clean(db.steps[y]); }
    }
  }

  /** If c has just converged, so have the cohorts its members spawned. */
  ghost predicate InnerConverged(db: Db, db': Db, c: nat, frozen: set<nat>) {
    c in db.steps && c in db'.steps && db.steps[c].next == 0 && db'.steps[c].next != 0 ==>
      forall y {:trigger db'.steps[y].spawned} ::
        (y in db'.steps && db'.steps[y].lineage == c && db'.steps[y].spawned && db'.steps[y].flow !in frozen) ==> db'.steps[y].next != 0
  }

  lemma AdvanceInner(db: Db, db': Db, x: nat, c: nat, frozen: set<nat>)
    requires Advance(db, db', x, c) && LineageDown(db.steps) && 0 !in db.steps && ConvergedQuiet(db.steps) && Settles(db, db', x)
    requires InnerFirst(db.steps, frozen)
    requires InnerConverged(db, db', c, frozen)
    ensures InnerFirst(db'.steps, frozen)
  {
    forall y | y in db'.steps && db'.steps[y].flow !in frozen && db'.steps[y].spawned
      && db'.steps[y].lineage != 0 && db'.steps[y].lineage in db'.steps && db'.steps[db'.steps[y].lineage].next != 0
      ensures db'.steps[y].next != 0
    {
      var s := db'.steps[y].lineage;
      assert y in db.steps;
      assert s in db.steps;
      if db.steps[s].next != 0 {
        assert Within(db.steps, y, s);
        assert y != x && db.steps[y].spawned;
      }
    }
  }

  lemma AdvanceHeaded(db: Db, db': Db, x: nat, c: nat, direct: set<nat>, direct': set<nat>)
    requires Advance(db, db', x, c) && 0 !in db.steps && Headed(db.steps, direct) && direct <= direct' && !db.steps[x].spawned
    requires db'.steps[x].spawned && db.steps[x].flow !in direct' ==> |Heads(db'.steps, db'.steps.Keys, x)| == db'.steps[x].size
    ensures Headed(db'.steps, direct')
  {
    forall s | s in db'.steps && db'.steps[s].spawned && db'.steps[s].flow !in direct'
      ensures |Heads(db'.steps, db'.steps.Keys, s)| == db'.steps[s].size
    {
      assert s in db.steps;
      if s != x { AdvanceHeads(db, db', x, c, s); }
    }
  }

  lemma AdvanceHeads(db: Db, db': Db, x: nat, c: nat, s: nat)
    requires Advance(db, db', x, c) && s != x
    ensures Heads(db'.steps, db'.steps.Keys, s) == Heads(db.steps, db.steps.Keys, s)
  {
    forall h | h in db'.steps && h !in db.steps ensures db'.steps[h].pred == x { assert FreshRow(db, x, db'.steps[h]); }
  }

  /** The flow x belongs to is not one that ended before, and is properly closed if it has ended now. */
  ghost predicate ClosedNow(db: Db, f: nat) {
    Ended(db, f) ==> forall y {:trigger db.steps[y].Live()} :: y in db.steps && db.steps[y].flow == f ==>
      !db.steps[y].Live() && (db.flows[f].status.Completed? ==> !db.steps[y].Loose())
  }

  lemma AdvanceClosed(db: Db, db': Db, x: nat, c: nat)
    requires Advance(db, db', x, c) && EndedClosed(db) && !Ended(db, db.steps[x].flow) && ClosedNow(db', db.steps[x].flow)
    ensures EndedClosed(db')
  {
    forall y | y in db'.steps && Ended(db', db'.steps[y].flow)
      ensures !db'.steps[y].Live() && (db'.flows[db'.steps[y].flow].status.Completed? ==> !db'.steps[y].Loose())
    {
      if y in db.steps && db.steps[y].flow != db.steps[x].flow { assert !db.steps[y].Live(); }
      if y !in db.steps { assert db'.steps[y].flow == db.steps[x].flow; }
    }
  }

  lemma AdvanceJobs(w: World, db': Db, log: seq<(nat, nat)>, x: nat, g: nat, c: nat, reaped: set<nat>)
    requires JobsTold(w, reaped) && JobsOk(w) && Advance(w.db, db', x, c) && Own(w.db, x, g) && (x, g) in w.jobs
    requires !Ended(w.db, w.db.steps[x].flow) && ClosedNow(db', w.db.steps[x].flow)
    requires db'.steps[x].status.Terminated? ==> w.db.steps[x].status.Terminated?
    ensures JobsTold(World(db', w.jobs - {(x, g)}, log), reaped)
  {
    var w' := World(db', w.jobs - {(x, g)}, log);
    forall y, h | (y, h) in w'.jobs ensures JobTold(w', reaped, y, h) {
      assert JobTold(w, reaped, y, h) && JobOk(w, y, h);
      if y in db'.steps {
        assert y in w.db.steps;
        var f := w.db.steps[y].flow;
        assert f in w.db.flows ==> f in db'.flows && (w.db.flows[f].status.Terminal() ==> db'.flows[f] == w.db.flows[f]);
        if y == x {
          JobBelow(w, x, g, h);
        } else if Ended(db', f) && f == w.db.steps[x].flow {
          assert !db'.steps[y].Live();
        }
      }
    }
  }

  /** Another dispatch of the same step was overtaken. */
  lemma JobBelow(w: World, x: nat, g: nat, h: nat)
    requires JobsOk(w) && Own(w.db, x, g) && (x, h) in w.jobs && h != g
    ensures h < w.db.steps[x].leaseSeq
  {
    assert JobOk(w, x, h);
  }

  // ----- All of it

  /** What a transaction of x has to show beyond its reach. */
  ghost predicate Fair(db: Db, db': Db, x: nat, c: nat, p: Past, p': Past)
    requires x in db.steps && x in db'.steps
  {
    var f := db.steps[x].flow;
    && Settles(db, db', x) && (x != c ==> db'.steps[x].next == 0) && Hushed(db'.steps, c)
    && (x in p.reaped || db'.steps[x].Passed()) && (db'.steps[x].status.Terminated? ==> db.steps[x].status.Terminated?)
    && (!FlowDone(db', f) ==> CleanFrom(db, db', f)) && InnerConverged(db, db', c, p.frozen)
    && p.reaped == p'.reaped && p.frozen == p'.frozen && p.direct <= p'.direct
    && (db'.steps[x].spawned && f !in p'.direct ==> |Heads(db'.steps, db'.steps.Keys, x)| == db'.steps[x].size)
  }

  lemma AdvanceHanded(w: World, db': Db, log: seq<(nat, nat)>, x: nat, g: nat, c: nat, p: Past, p': Past)
    requires WellShaped(w.db) && LineageDown(w.db.steps) && JobsOk(w) && Handed(w, p) && (x, g) in w.jobs && Own(w.db, x, g)
    requires !Ended(w.db, w.db.steps[x].flow) && ClosedNow(db', w.db.steps[x].flow)
    requires Advance(w.db, db', x, c) && Fair(w.db, db', x, c, p, p')
    ensures Handed(World(db', w.jobs - {(x, g)}, log), p')
  {
    AdvanceQuiet(w.db, db', x, c);
    AdvanceUnharmed(w.db, db', x, c, p.reaped);
    AdvanceClean(w.db, db', x, c, p.frozen);
    AdvanceInner(w.db, db', x, c, p.frozen);
    AdvanceHeaded(w.db, db', x, c, p.direct, p'.direct);
    AdvanceClosed(w.db, db', x, c);
    AdvanceJobs(w, db', log, x, g, c, p.reaped);
  }
}
