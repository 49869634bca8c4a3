/** How the clone of a fork starts out: which of its steps a worker may take up, and which wait or are over. */
module ForkStands {
  import opened Rows
  import opened Transactions
  import opened Shape
  import opened Ledger
  import opened Reach
  import opened Pruning
  import opened Recount
  import opened Renaming
  import opened Forking
  import opened Machine
  import opened Leases
  import opened Quiet
  import opened Standings

  lemma RewindKept(steps: map<nat, Step>, f: nat, x: nat)
    requires Shaped(steps) && x in steps && steps[x].flow == f
    ensures x in Kept(steps, f, x)
  {
    if Reaches(steps, x, x) { ReachesUp(steps, x, x); }
  }

  /** The clone's row of one kept step. */
  lemma CloneRow(db: Db, f: nat, x: nat, caller: bool, m: map<nat, nat>, top: nat, y: nat)
    requires NewIds(db, f, x, caller, m, top) && y in Kept(db.steps, f, x)
    ensures y in m && m[y] in Fork(db, f, x, caller, m, top).steps
    ensures var r, q := db.steps[y], Fork(db, f, x, caller, m, top).steps[m[y]];
            && q.leaseSeq == 0 && q.flow == db.nextFlow
            && q.status == (if y != x then (if r.status.Terminal() then r.status else Terminated) else if caller then Running else Pending)
            && q.parked == (y == x && caller) && q.size == (if y == x && !caller then 0 else r.size)
  {
    ForkRow(db, f, x, caller, m, top, y);
    RowStands(db.steps, Kept(db.steps, f, x), x, caller, y);
  }

  lemma RowStands(steps: map<nat, Step>, kept: set<nat>, x: nat, caller: bool, y: nat)
    requires y in steps
    ensures var r, q := steps[y], KeptRow(steps, kept, x, caller, y);
            && q.leaseSeq == 0
            && q.status == (if y != x then (if r.status.Terminal() then r.status else Terminated) else if caller then Running else Pending)
            && q.parked == (y == x && caller) && q.size == (if y == x && !caller then 0 else r.size)
  {
  }

  lemma KeptStands(db: Db, f: nat, x: nat, caller: bool, m: map<nat, nat>, top: nat, y: nat)
    requires NewIds(db, f, x, caller, m, top) && y in Kept(db.steps, f, x) && y != x
    ensures y in m && m[y] in Fork(db, f, x, caller, m, top).steps
    ensures OverAs(db.steps[y], Fork(db, f, x, caller, m, top), m[y])
  {
    CloneRow(db, f, x, caller, m, top, y);
    StandingIs(Fork(db, f, x, caller, m, top), m[y]);
  }

  /** The rewind step: the leaf can be claimed, a caller waits for its child. */
  ghost predicate GoesAgain(db: Db, z: nat, caller: bool) {
    z in db.steps && if caller then AwaitsChild(db, z) else Claimable(db, z)
  }

  lemma StandsByRow(db: Db, z: nat, caller: bool)
    requires z in db.steps && db.steps[z].parked == caller && db.steps[z].status == if caller then Running else Pending
    ensures GoesAgain(db, z, caller)
  {
    StandingIs(db, z);
  }

  lemma CloneRuns(db: Db, f: nat, x: nat, caller: bool, m: map<nat, nat>, top: nat)
    requires NewIds(db, f, x, caller, m, top)
    ensures var flows := Fork(db, f, x, caller, m, top).flows;
            && db.nextFlow in flows && flows[db.nextFlow] == Flow(Running, 0)
            && (forall h <- db.flows | h != db.nextFlow :: h in flows && flows[h] == db.flows[h])
  {
  }

  /** A step of a clone that is over: as the origin's outcome says, or cut short. */
  ghost predicate OverAs(r: Step, db': Db, z: nat) {
    && z in db'.steps && !Claimable(db', z) && Unstirred(db', z) && db'.steps[z].leaseSeq == 0
    && (if r.status.Terminal() then db'.steps[z].status == r.status else Sealed(db', z))
  }

  /**
   The clone of a fork goes again at its rewind step alone. As the leaf, that step can be claimed, with no cohort of its own yet; as a caller on the
   way to the leaf it waits for the child that runs again, so that no worker calls the child a second time, and the
   child's end frees it. Everything else in the clone is over: a step that had ended keeps its outcome, one that had
   not is sealed, and nothing wakes it. Its flow runs, and nobody has cancelled it.
   */
  lemma CloneStands(db: Db, f: nat, x: nat, caller: bool, m: map<nat, nat>, top: nat)
    requires NewIds(db, f, x, caller, m, top) && Shaped(db.steps) && x in db.steps && db.steps[x].flow == f
    ensures var db' := Fork(db, f, x, caller, m, top);
            x in m && GoesAgain(db', m[x], caller) && (!caller ==> db'.steps[m[x]].size == 0)
            && db'.steps[m[x]].flow == db.nextFlow && db.nextFlow in db'.flows && db'.flows[db.nextFlow] == Flow(Running, 0)
    ensures forall y <- m | y != x :: y in db.steps && OverAs(db.steps[y], Fork(db, f, x, caller, m, top), m[y])
  {
    RewindKept(db.steps, f, x);
    CloneRow(db, f, x, caller, m, top, x);
    CloneRuns(db, f, x, caller, m, top);
    StandsByRow(Fork(db, f, x, caller, m, top), m[x], caller);
    forall y | y in m && y != x ensures y in db.steps && OverAs(db.steps[y], Fork(db, f, x, caller, m, top), m[y]) {
      assert m.Keys == Rewound(db.steps, f, x, caller).Keys;
      KeptStands(db, f, x, caller, m, top, y);
    }
  }

  /** No dispatch, whoever holds one, is on a step of a clone before a worker claims it. */
  lemma CloneUnclaimed(w: World, f: nat, x: nat, caller: bool, m: map<nat, nat>, top: nat)
    requires Inv(w) && NewIds(w.db, f, x, caller, m, top)
    ensures forall j <- w.jobs, y <- m :: j.0 != m[y]
  {
    forall j | j in w.jobs ensures j.0 < w.db.nextStep { assert JobOk(w, j.0, j.1); }
  }
}
