/**
 Every transition keeps a running flow's fan-out ledger in order, or closes it with the right verdict.
 The lemmas speak of one flow f; `Bystander` covers the others.
 */
module Accounting {
  import opened Rows
  import opened Transactions
  import opened Ledger

  /** What the transitions rely on about a running flow's rows. */
  ghost predicate Ready(steps: map<nat, Step>, f: nat) {
    && Nested(steps) && LineageDown(steps) && InOrder(steps, f)
    && forall y {:trigger steps[y].settled} | y in steps && steps[y].flow == f :: steps[y].Passed()
  }

  /** Step x of flow f is done with its task and has not moved on. */
  ghost predicate Moving(steps: map<nat, Step>, f: nat, x: nat) {
    x in steps && steps[x].flow == f && steps[x].status.Completed? && !steps[x].settled && !steps[x].spawned
    && steps[x].arrivals == 0 && steps[x].failures == 0 && steps[x].cancellations == 0
  }

  lemma SpawnsAreDone(steps: map<nat, Step>, f: nat)
    requires Ready(steps, f) && forall y <- steps :: steps[y].spawned ==> steps[y].settled
    ensures SpawnsDone(steps, f)
  {
  }

  /** A write to rows of other flows. */
  lemma Bystander(steps: map<nat, Step>, steps': map<nat, Step>, f: nat)
    requires InOrder(steps, f)
    requires forall y :: y in steps' && steps'[y].flow == f <==> y in steps && steps[y].flow == f
    requires forall y <- steps' | y in steps && steps[y].flow == f :: steps'[y] == steps[y]
    ensures InOrder(steps', f)
  {
    OrderKept(steps, steps', f);
  }

  // ----- One token passes from one step to another

  /** Rewriting x as a row that is neither token nor loss, and inserting y as a token of the same cohort. */
  lemma Handover(steps: map<nat, Step>, f: nat, x: nat, q: Step, y: nat, r: Step)
    requires Nested(steps) && InOrder(steps, f)
    requires x in steps && steps[x].flow == f && steps[x].Token() && !steps[x].Lost()
    requires q.flow == f && q.lineage == steps[x].lineage && !q.Token() && !q.Lost()
    requires Books(steps[x := q], f, x, 0, false)
    requires y !in steps && y != 0 && r.flow == f && r.lineage == q.lineage && r.lineage < y && r.Token() && !r.Lost()
    requires !r.spawned && r.failures == 0 && r.cancellations == 0
    requires forall z <- steps :: steps[z].lineage != y
    requires forall z <- steps :: z < y
    ensures InOrder(steps[x := q][y := r], f)
  {
    var steps1 := steps[x := q];
    var steps2 := steps1[y := r];
    forall s | s == 0 || (s in steps && s != x)
      ensures |Tokens(steps2, f, s)| == |Tokens(steps, f, s)|
              && Losses(steps2, f, s) == Losses(steps, f, s) && SoftLosses(steps2, f, s) == SoftLosses(steps, f, s)
    {
      HandoverSets(steps, f, x, q, y, r, s);
    }
    forall s | s in steps2 && steps2[s].flow == f ensures Books(steps2, f, s, 0, false) {
      if s == y {
        assert Tokens(steps2, f, y) == {} && Losses(steps2, f, y) == {} && SoftLosses(steps2, f, y) == {};
      } else if s == x {
        NewRow(steps1, y, r, f, x);
        assert Books(steps1, f, x, 0, false);
        assert r.lineage != x;
      } else {
        assert Books(steps, f, s, 0, false);
      }
    }
  }

  /** A token spent without a loss. */
  lemma TokenSpent(steps: map<nat, Step>, x: nat, q: Step, f: nat, s: nat)
    requires x in steps && steps[x].flow == f && steps[x].Token() && !steps[x].Lost()
    requires q.flow == f && q.lineage == steps[x].lineage && !q.Token() && !q.Lost()
    ensures Tokens(steps[x := q], f, s) == Tokens(steps, f, s) - {x}
    ensures |Tokens(steps[x := q], f, s)| + (if s == q.lineage then 1 else 0) == |Tokens(steps, f, s)|
    ensures Losses(steps[x := q], f, s) == Losses(steps, f, s)
    ensures SoftLosses(steps[x := q], f, s) == SoftLosses(steps, f, s)
  {
    if s == q.lineage {
      assert x in Tokens(steps, f, s);
    }
  }

  /** A token issued to a fresh step. */
  lemma TokenIssued(steps: map<nat, Step>, y: nat, r: Step, f: nat, s: nat)
    requires y !in steps && r.flow == f && r.Token() && !r.Lost()
    ensures Tokens(steps[y := r], f, s) == Tokens(steps, f, s) + (if s == r.lineage then {y} else {})
    ensures |Tokens(steps[y := r], f, s)| == |Tokens(steps, f, s)| + (if s == r.lineage then 1 else 0)
    ensures Losses(steps[y := r], f, s) == Losses(steps, f, s)
    ensures SoftLosses(steps[y := r], f, s) == SoftLosses(steps, f, s)
  {
    assert y !in Tokens(steps, f, s);
  }

  lemma HandoverSets(steps: map<nat, Step>, f: nat, x: nat, q: Step, y: nat, r: Step, s: nat)
    requires x in steps && steps[x].flow == f && steps[x].Token() && !steps[x].Lost()
    requires q.flow == f && q.lineage == steps[x].lineage && !q.Token() && !q.Lost()
    requires y !in steps && r.flow == f && r.lineage == q.lineage && r.Token() && !r.Lost()
    ensures var steps2 := steps[x := q][y := r];
            |Tokens(steps2, f, s)| == |Tokens(steps, f, s)|
            && Losses(steps2, f, s) == Losses(steps, f, s) && SoftLosses(steps2, f, s) == SoftLosses(steps, f, s)
  {
    TokenSpent(steps, x, q, f, s);
    TokenIssued(steps[x := q], y, r, f, s);
  }

  // ----- The transitions that do not arrive anywhere

  ghost predicate FreshIds(db: Db) {
    0 !in db.steps && 0 < db.nextStep && forall y <- db.steps :: y < db.nextStep
  }

  lemma NoMembers(db: Db, y: nat)
    requires Nested(db.steps) && FreshIds(db)
    requires y >= db.nextStep || (y in db.steps && !db.steps[y].spawned)
    ensures forall z <- db.steps :: db.steps[z].lineage != y
  {
    forall z <- db.steps ensures db.steps[z].lineage != y {
      assert db.steps[z].lineage < z;
    }
  }

  lemma EmptyCohort(steps: map<nat, Step>, f: nat, s: nat)
    requires forall z <- steps :: steps[z].lineage != s
    ensures Tokens(steps, f, s) == {} && Losses(steps, f, s) == {} && SoftLosses(steps, f, s) == {}
  {
  }

  /** Step x hands its token to y, the next step inserted. */
  lemma Continues(db: Db, f: nat, x: nat, q: Step, r: Step)
    requires FreshIds(db) && Ready(db.steps, f) && Moving(db.steps, f, x)
    requires q.flow == f && q.lineage == db.steps[x].lineage && !q.Token() && !q.Lost() && !q.spawned
    requires q.failures == 0 && q.cancellations == 0
    requires r.flow == f && r.lineage == q.lineage && r.Token() && !r.Lost()
    requires !r.spawned && r.failures == 0 && r.cancellations == 0
    ensures InOrder(db.steps[x := q][db.nextStep := r], f)
  {
    NoMembers(db, db.nextStep);
    NoMembers(db, x);
    EmptyCohort(db.steps[x := q], f, x);
    assert db.steps[x].lineage < x;
    Handover(db.steps, f, x, q, db.nextStep, r);
  }

  lemma NextInOrder(db: Db, f: nat, x: nat, inherit: bool, exitTask: bool)
    requires FreshIds(db) && Ready(db.steps, f) && Moving(db.steps, f, x) && !FlowDone(db, f)
    ensures InOrder(Next(db, x, inherit, exitTask).steps, f)
  {
    var r := db.steps[x];
    Continues(db, f, x, r.(settled := true, succ := db.nextStep, next := db.nextStep),
              NewStep(r.flow, r.lineage, r.head, x, r.ordinal, r.depth + 1, InheritedMark(db, x, inherit), exitTask));
  }

  lemma DirectInOrder(db: Db, f: nat, x: nat, inherit: bool, exitTask: bool)
    requires FreshIds(db) && Ready(db.steps, f) && Moving(db.steps, f, x) && !FlowDone(db, f)
    ensures InOrder(Direct(db, x, inherit, exitTask).steps, f)
  {
    var r := db.steps[x];
    Continues(db, f, x, r.(settled := true, succ := db.nextStep, next := db.nextStep, size := 0),
              NewStep(r.flow, r.lineage, r.head, x, r.ordinal, r.depth + 1, InheritedMark(db, x, inherit), exitTask));
  }

  /** The row of a step that fanned out. */
  /** A fan-out with nothing but direct edges converges with the spawn itself. */
  lemma PushConverges(db: Db, x: nat, inherit: bool, direct: nat, exitTask: bool)
    requires x in db.steps && x < db.nextStep && !FlowDone(db, db.steps[x].flow) && direct > 0
    requires db.steps[x].failures == 0
    ensures Push(db, x, inherit, [], direct, exitTask)
            == InsertFanIn(db.(steps := db.steps[x := PushedRow(db, x, 0, direct)]), x, x, inherit, exitTask)
  {
    var steps1 := db.steps[x := PushedRow(db, x, 0, direct)];
    assert steps1 + Branches(db, x, inherit, [], 0) == steps1;
    assert db.(steps := steps1, nextStep := db.nextStep + 0) == db.(steps := steps1);
  }

  /** Adding rows that are all tokens of one cohort. */
  lemma RowsIssued(base: map<nat, Step>, rows: map<nat, Step>, f: nat, x: nat, s: nat)
    requires base.Keys !! rows.Keys
    requires forall y <- rows :: InCohort(rows[y], f, x) && rows[y].Token() && !rows[y].Lost()
    ensures Tokens(base + rows, f, s) == Tokens(base, f, s) + (if s == x then rows.Keys else {})
    ensures |Tokens(base + rows, f, s)| == |Tokens(base, f, s)| + (if s == x then |rows| else 0)
    ensures Losses(base + rows, f, s) == Losses(base, f, s)
    ensures SoftLosses(base + rows, f, s) == SoftLosses(base, f, s)
  {
    if s == x {
      assert Tokens(base, f, s) !! rows.Keys;
      assert |Tokens(base, f, s) + rows.Keys| == |Tokens(base, f, s)| + |rows.Keys|;
    }
  }

  lemma {:induction false} BranchCount(db: Db, x: nat, inherit: bool, tasks: seq<bool>, n: nat)
    requires x in db.steps && db.steps[x].flow in db.flows && n <= |tasks|
    ensures |Branches(db, x, inherit, tasks, n)| == n
  {
    if n > 0 {
      BranchCount(db, x, inherit, tasks, n - 1);
      var m := Branches(db, x, inherit, tasks, n - 1);
      assert db.nextStep + n - 1 !in m;
    }
  }

  /** The books after x spawned the branches `rows`. */
  lemma SpawnInOrder(steps: map<nat, Step>, f: nat, x: nat, q: Step, rows: map<nat, Step>)
    requires InOrder(steps, f) && Nested(steps)
    requires x in steps && steps[x].flow == f && steps[x].Token() && !steps[x].Lost()
    requires forall z <- steps :: steps[z].lineage != x && steps[z].lineage !in rows
    requires q.flow == f && q.lineage == steps[x].lineage && q.Token() && !q.Lost()
    requires q.size == |rows| + q.arrivals && q.failures == 0 && q.cancellations == 0
    requires steps.Keys !! rows.Keys && 0 !in rows
    requires forall y <- rows :: InCohort(rows[y], f, x) && rows[y].Token() && !rows[y].Lost()
    requires forall y <- rows :: !rows[y].spawned && rows[y].failures == 0 && rows[y].cancellations == 0
    ensures InOrder(steps[x := q] + rows, f)
  {
    var steps1 := steps[x := q];
    var steps2 := steps1 + rows;
    SpawnSets(steps, f, x, q, rows, 0);
    forall s | s in steps2 && steps2[s].flow == f ensures Books(steps2, f, s, 0, false) { SpawnBooks(steps, f, x, q, rows, s); }
  }

  lemma SpawnBooks(steps: map<nat, Step>, f: nat, x: nat, q: Step, rows: map<nat, Step>, s: nat)
    requires InOrder(steps, f) && x in steps && steps[x].flow == f && steps[x].Token() && !steps[x].Lost()
    requires forall z <- steps :: steps[z].lineage != x && steps[z].lineage !in rows
    requires q.flow == f && q.lineage == steps[x].lineage && q.Token() && !q.Lost()
    requires q.size == |rows| + q.arrivals && q.failures == 0 && q.cancellations == 0
    requires steps.Keys !! rows.Keys && 0 !in rows
    requires forall y <- rows :: InCohort(rows[y], f, x) && rows[y].Token() && !rows[y].Lost()
    requires forall y <- rows :: !rows[y].spawned && rows[y].failures == 0 && rows[y].cancellations == 0
    requires (s in steps && steps[s].flow == f) || s in rows
    ensures Books(steps[x := q] + rows, f, s, 0, false)
  {
    SpawnSets(steps, f, x, q, rows, s);
    if s == x || s in rows { EmptyCohort(steps, f, s); } else { assert Books(steps, f, s, 0, false); }
  }

  lemma SpawnSets(steps: map<nat, Step>, f: nat, x: nat, q: Step, rows: map<nat, Step>, s: nat)
    requires x in steps && steps[x].Token() && q.Token() && !steps[x].Lost() && !q.Lost()
    requires q.flow == steps[x].flow && q.lineage == steps[x].lineage && steps.Keys !! rows.Keys
    requires forall y <- rows :: InCohort(rows[y], f, x) && rows[y].Token() && !rows[y].Lost()
    ensures var t := steps[x := q] + rows;
            && |Tokens(t, f, s)| == |Tokens(steps, f, s)| + (if s == x then |rows| else 0)
            && Losses(t, f, s) == Losses(steps, f, s) && SoftLosses(t, f, s) == SoftLosses(steps, f, s)
  {
    SpawnKeepsSets(steps, x, q, f, s);
    RowsIssued(steps[x := q], rows, f, x, s);
  }

  /** Fanning out into at least one branch: the spawn stays a token, now as an unresolved cohort. */
  lemma PushInOrder(db: Db, f: nat, x: nat, inherit: bool, tasks: seq<bool>, direct: nat, exitTask: bool)
    requires FreshIds(db) && Ready(db.steps, f) && Moving(db.steps, f, x) && !FlowDone(db, f) && |tasks| > 0
    ensures InOrder(Push(db, x, inherit, tasks, direct, exitTask).steps, f)
  {
    var n := |tasks|;
    var q := PushedRow(db, x, n, direct);
    var rows := Branches(db, x, inherit, tasks, n);
    BranchCount(db, x, inherit, tasks, n);
    NoMembers(db, x);
    forall z <- db.steps ensures db.steps[z].lineage !in rows {
      assert db.steps[z].lineage < z;
    }
    SpawnInOrder(db.steps, f, x, q, rows);
    PushRows(db, f, x, inherit, tasks, direct, exitTask);
  }

  lemma PushRows(db: Db, f: nat, x: nat, inherit: bool, tasks: seq<bool>, direct: nat, exitTask: bool)
    requires x < db.nextStep && Moving(db.steps, f, x) && !FlowDone(db, f) && |tasks| > 0
    ensures Push(db, x, inherit, tasks, direct, exitTask)
            == db.(steps := db.steps[x := PushedRow(db, x, |tasks|, direct)] + Branches(db, x, inherit, tasks, |tasks|),
                   nextStep := db.nextStep + |tasks|)
  {
  }

  lemma SpawnKeepsSets(steps: map<nat, Step>, x: nat, q: Step, f: nat, s: nat)
    requires x in steps && steps[x].Token() && q.Token() && !steps[x].Lost() && !q.Lost()
    requires q.flow == steps[x].flow && q.lineage == steps[x].lineage
    ensures Tokens(steps[x := q], f, s) == Tokens(steps, f, s)
    ensures Losses(steps[x := q], f, s) == Losses(steps, f, s)
    ensures SoftLosses(steps[x := q], f, s) == SoftLosses(steps, f, s)
  {
  }

  /** A fan-out with nothing but direct edges resolves on the spot and converges. */
  lemma PushDirectInOrder(db: Db, f: nat, x: nat, inherit: bool, direct: nat, exitTask: bool)
    requires FreshIds(db) && Ready(db.steps, f) && Moving(db.steps, f, x) && !FlowDone(db, f) && direct > 0
    ensures InOrder(Push(db, x, inherit, [], direct, exitTask).steps, f)
  {
    var q := PushedRow(db, x, 0, direct).(next := db.nextStep);
    var row := ConvergedRow(db, f, x, inherit, direct, exitTask);
    NoMembers(db, x);
    NoMembers(db, db.nextStep);
    EmptyCohort(db.steps[x := q], f, x);
    assert db.steps[x].lineage < x;
    Handover(db.steps, f, x, q, db.nextStep, row);
  }

  lemma ConvergedRow(db: Db, f: nat, x: nat, inherit: bool, direct: nat, exitTask: bool) returns (row: Step)
    requires FreshIds(db) && Nested(db.steps) && Moving(db.steps, f, x) && !FlowDone(db, f) && direct > 0
    ensures Push(db, x, inherit, [], direct, exitTask).steps
            == db.steps[x := PushedRow(db, x, 0, direct).(next := db.nextStep)][db.nextStep := row]
    ensures row.flow == f && row.lineage == db.steps[x].lineage && row.Token() && !row.Lost() && !row.spawned
            && row.failures == 0 && row.cancellations == 0
  {
    NoMembers(db, x);
    row := FanInRows(db, f, x, inherit, direct, exitTask);
  }

  lemma FanInRows(db: Db, f: nat, x: nat, inherit: bool, direct: nat, exitTask: bool) returns (row: Step)
    requires x < db.nextStep && Moving(db.steps, f, x) && !FlowDone(db, f) && direct > 0
    requires db.nextStep !in db.steps && db.steps[x].lineage != x
    requires forall z <- db.steps :: db.steps[z].lineage != x
    ensures Push(db, x, inherit, [], direct, exitTask).steps
            == db.steps[x := PushedRow(db, x, 0, direct).(next := db.nextStep)][db.nextStep := row]
    ensures row.flow == f && row.lineage == db.steps[x].lineage && row.Token() && !row.Lost() && !row.spawned
            && row.failures == 0 && row.cancellations == 0
  {
    var db1 := db.(steps := db.steps[x := PushedRow(db, x, 0, direct)]);
    var db' := InsertFanIn(db1, x, x, inherit, exitTask);
    PushConverges(db, x, inherit, direct, exitTask);
    row := db'.steps[db.nextStep];
    SpawnAlone(db1, f, x);
  }

  // ----- Arrivals

  /** Step x of cohort t has arrived: its row as settled, and t's row with the arrival counted. */
  ghost predicate Arriving(steps: map<nat, Step>, f: nat, x: nat, t: nat) {
    Ready(steps, f) && Moving(steps, f, x) && steps[x].lineage == t && t != 0
  }

  /** The cohort a member belongs to is a done, unresolved spawn of the same flow. */
  lemma CohortOf(steps: map<nat, Step>, f: nat, x: nat, t: nat)
    requires Arriving(steps, f, x, t) && SpawnsDone(steps, f)
    ensures t in steps && t < x && steps[t].flow == f && steps[t].spawned && steps[t].arrivals < steps[t].size
    ensures !steps[t].Live() && !steps[t].Faulted() && steps[t].lineage < t
    ensures Books(steps, f, t, 0, false)
  {
    assert steps[x].lineage < x;
    assert Books(steps, f, t, 0, false);
    assert x in Tokens(steps, f, t);
    assert steps[t].spawned;
    assert steps[t].lineage < t;
  }

  lemma ArrivalSpends(steps: map<nat, Step>, f: nat, x: nat, t: nat, s: nat)
    requires Arriving(steps, f, x, t)
    ensures var steps0 := steps[x := ArrivedRow(steps[x])];
            && |Tokens(steps0, f, s)| + (if s == t then 1 else 0) == |Tokens(steps, f, s)|
            && Losses(steps0, f, s) == Losses(steps, f, s) && SoftLosses(steps0, f, s) == SoftLosses(steps, f, s)
  {
    TokenSpent(steps, x, ArrivedRow(steps[x]), f, s);
  }

  /** The sets after an arrival that leaves cohort t waiting. */
  lemma WaitingSets(steps: map<nat, Step>, f: nat, x: nat, t: nat, s: nat)
    requires Arriving(steps, f, x, t) && SpawnsDone(steps, f)
    requires t in steps && steps[t].arrivals + 1 < steps[t].size
    ensures var steps1 := Arrived(steps, x, t);
            && |Tokens(steps1, f, s)| + (if s == t then 1 else 0) == |Tokens(steps, f, s)|
            && Losses(steps1, f, s) == Losses(steps, f, s) && SoftLosses(steps1, f, s) == SoftLosses(steps, f, s)
  {
    CohortOf(steps, f, x, t);
    ArrivalSpends(steps, f, x, t, s);
    SpawnKeepsSets(steps[x := ArrivedRow(steps[x])], t, CountedRow(steps[t]), f, s);
  }

  lemma ArrivalWaits(steps: map<nat, Step>, f: nat, x: nat, t: nat)
    requires Arriving(steps, f, x, t) && SpawnsDone(steps, f)
    requires t in steps && steps[t].arrivals + 1 < steps[t].size
    ensures InOrder(Arrived(steps, x, t), f)
  {
    CohortOf(steps, f, x, t);
    WaitingSets(steps, f, x, t, 0);
    forall s | s in steps && steps[s].flow == f ensures Books(Arrived(steps, x, t), f, s, 0, false) { WaitingBooks(steps, f, x, t, s); }
  }

  lemma WaitingBooks(steps: map<nat, Step>, f: nat, x: nat, t: nat, s: nat)
    requires Arriving(steps, f, x, t) && SpawnsDone(steps, f) && s in steps && steps[s].flow == f
    requires t in steps && steps[t].arrivals + 1 < steps[t].size
    ensures Books(Arrived(steps, x, t), f, s, 0, false)
  {
    CohortOf(steps, f, x, t);
    WaitingSets(steps, f, x, t, s);
    assert Books(steps, f, s, 0, false);
  }

  /** The sets after the arrival that resolves cohort t without a loss. */
  lemma ArrivalResolves(steps: map<nat, Step>, f: nat, x: nat, t: nat, s: nat)
    requires Arriving(steps, f, x, t) && SpawnsDone(steps, f)
    requires t in steps && steps[t].arrivals + 1 >= steps[t].size && steps[t].failures == 0
    ensures var steps1 := Arrived(steps, x, t);
            && |Tokens(steps1, f, s)| + (if s == t then 1 else 0) + (if s == steps[t].lineage then 1 else 0)
               == |Tokens(steps, f, s)|
            && Losses(steps1, f, s) == Losses(steps, f, s) && SoftLosses(steps1, f, s) == SoftLosses(steps, f, s)
  {
    CohortOf(steps, f, x, t);
    ArrivalSpends(steps, f, x, t, s);
    TokenSpent(steps[x := ArrivedRow(steps[x])], t, CountedRow(steps[t]), f, s);
  }

  /** Linking the members of a cohort to its fan-in changes no role. */
  ghost predicate Linked(steps: map<nat, Step>, steps': map<nat, Step>) {
    steps'.Keys == steps.Keys
    && forall y <- steps :: steps'[y] == steps[y].(succ := steps'[y].succ, next := steps'[y].next)
  }

  lemma LinkedSets(steps: map<nat, Step>, steps': map<nat, Step>, f: nat, s: nat)
    requires Linked(steps, steps')
    ensures Tokens(steps', f, s) == Tokens(steps, f, s) && Losses(steps', f, s) == Losses(steps, f, s)
            && SoftLosses(steps', f, s) == SoftLosses(steps, f, s)
  {
    SameSets(steps, steps', f, s);
  }

  /** The sets after the fan-in step j was added. */
  lemma ConvergenceSets(steps: map<nat, Step>, f: nat, x: nat, t: nat, linked: map<nat, Step>, j: nat, r: Step, s: nat)
    requires Arriving(steps, f, x, t) && SpawnsDone(steps, f) && j !in steps
    requires t in steps && steps[t].arrivals + 1 >= steps[t].size && steps[t].failures == 0
    requires Linked(Arrived(steps, x, t), linked)
    requires r.flow == f && r.lineage == steps[t].lineage && r.Token() && !r.Lost()
    ensures var steps2 := linked[j := r];
            && |Tokens(steps2, f, s)| + (if s == t then 1 else 0) == |Tokens(steps, f, s)|
            && Losses(steps2, f, s) == Losses(steps, f, s) && SoftLosses(steps2, f, s) == SoftLosses(steps, f, s)
  {
    ArrivalResolves(steps, f, x, t, s);
    LinkedSets(Arrived(steps, x, t), linked, f, s);
    TokenIssued(linked, j, r, f, s);
  }

  lemma ConvergedBooks(steps: map<nat, Step>, f: nat, x: nat, t: nat, linked: map<nat, Step>, j: nat, r: Step, s: nat)
    requires Arriving(steps, f, x, t) && SpawnsDone(steps, f) && j !in steps
    requires t in steps && steps[t].arrivals + 1 >= steps[t].size && steps[t].failures == 0
    requires Linked(Arrived(steps, x, t), linked)
    requires r.flow == f && r.lineage == steps[t].lineage && r.Token() && !r.Lost()
    requires s in steps && steps[s].flow == f
    ensures Books(linked[j := r], f, s, 0, false)
  {
    CohortOf(steps, f, x, t);
    ConvergenceSets(steps, f, x, t, linked, j, r, s);
    assert Books(steps, f, s, 0, false);
  }

  /** Converging: the resolved spawn's token passes to the fan-in step j. */
  lemma ArrivalConverges(steps: map<nat, Step>, f: nat, x: nat, t: nat, linked: map<nat, Step>, j: nat, r: Step)
    requires Arriving(steps, f, x, t) && SpawnsDone(steps, f) && forall z <- steps :: z < j
    requires t in steps && steps[t].arrivals + 1 >= steps[t].size && steps[t].failures == 0
    requires Linked(Arrived(steps, x, t), linked)
    requires j != 0 && r.flow == f && r.lineage == steps[t].lineage && r.Token() && !r.Lost() && !r.spawned
             && r.failures == 0 && r.cancellations == 0
    ensures InOrder(linked[j := r], f)
  {
    var steps2 := linked[j := r];
    CohortOf(steps, f, x, t);
    ConvergenceSets(steps, f, x, t, linked, j, r, 0);
    forall s | s in steps2 && steps2[s].flow == f ensures Books(steps2, f, s, 0, false) {
      if s == j {
        forall z <- steps2 ensures steps2[z].lineage != j {
          if z in steps { assert steps[z].lineage < z; }
        }
        EmptyCohort(steps2, f, j);
      } else {
        ConvergedBooks(steps, f, x, t, linked, j, r, s);
      }
    }
  }

  lemma OwingBooks(steps: map<nat, Step>, f: nat, x: nat, t: nat, s: nat)
    requires Arriving(steps, f, x, t) && SpawnsDone(steps, f)
    requires t in steps && steps[t].arrivals + 1 >= steps[t].size && steps[t].failures > 0
    requires s in steps && steps[s].flow == f
    ensures Books(Arrived(steps, x, t), f, s, if s == steps[t].lineage then 1 else 0,
                  steps[t].cancellations == steps[t].failures)
  {
    var r := steps[t];
    var c := CountedRow(r);
    var steps0 := steps[x := ArrivedRow(steps[x])];
    CohortOf(steps, f, x, t);
    SoftAmongLost(steps, f, t);
    assert Books(steps, f, s, 0, false);
    ArrivalSpends(steps, f, x, t, s);
    if s == r.lineage {
      TokenLost(steps0, t, c, f, s);
    } else {
      OneRow(steps0, t, c, f, s);
    }
  }

  lemma OwingTrunk(steps: map<nat, Step>, f: nat, x: nat, t: nat)
    requires Arriving(steps, f, x, t) && SpawnsDone(steps, f)
    requires t in steps && steps[t].arrivals + 1 >= steps[t].size && steps[t].failures > 0
    ensures var r := steps[t];
            var soft := r.cancellations == r.failures;
            var steps1 := Arrived(steps, x, t);
            && (r.lineage != 0 ==> |Tokens(steps1, f, 0)| == 1 && Losses(steps1, f, 0) == {})
            && (r.lineage == 0 ==> |Tokens(steps1, f, 0)| == 0 && Losses(steps1, f, 0) == {t}
                                   && SoftLosses(steps1, f, 0) == if soft then {t} else {})
  {
    var c := CountedRow(steps[t]);
    var steps0 := steps[x := ArrivedRow(steps[x])];
    CohortOf(steps, f, x, t);
    SoftAmongLost(steps, f, t);
    ArrivalSpends(steps, f, x, t, 0);
    if steps[t].lineage == 0 {
      TokenLost(steps0, t, c, f, 0);
      assert SoftLosses(steps, f, 0) <= Losses(steps, f, 0);
    } else {
      OneRow(steps0, t, c, f, 0);
    }
  }

  /** The arrival that resolves a cohort holding losses leaves the enclosing cohort owing one. */
  lemma ArrivalOwes(steps: map<nat, Step>, f: nat, x: nat, t: nat)
    requires Arriving(steps, f, x, t) && SpawnsDone(steps, f)
    requires t in steps && steps[t].arrivals + 1 >= steps[t].size && steps[t].failures > 0
    ensures var r := steps[t];
            Owes(Arrived(steps, x, t), f, t, r.cancellations == r.failures)
  {
    var r := steps[t];
    var steps1 := Arrived(steps, x, t);
    var soft := r.cancellations == r.failures;
    forall s | s in steps1 && steps1[s].flow == f
      ensures Books(steps1, f, s, if s == r.lineage then 1 else 0, soft)
    {
      OwingBooks(steps, f, x, t, s);
    }
    OwingTrunk(steps, f, x, t);
  }

  // ----- The transactions

  /** Flow f's ledger is in order except that the loss of y is not entered yet where y belongs. */
  ghost predicate Owes(steps: map<nat, Step>, f: nat, y: nat, soft: bool) {
    && y in steps && steps[y].flow == f && BalancedBut(steps, f, steps[y].lineage, soft)
    && (steps[y].lineage != 0 ==> |Tokens(steps, f, 0)| == 1 && Losses(steps, f, 0) == {})
    && (steps[y].lineage == 0 ==> |Tokens(steps, f, 0)| == 0 && Losses(steps, f, 0) == {y}
                                  && SoftLosses(steps, f, 0) == if soft then {y} else {})
  }

  /** Handing over the loss of y leaves a flow in order, or one that ended with closed books. */
  lemma LoseAccounts(db: Db, f: nat, y: nat, soft: bool)
    requires Nested(db.steps) && LineageDown(db.steps) && SpawnsDone(db.steps, f) && Owes(db.steps, f, y, soft)
    requires f in db.flows && !db.flows[f].status.Terminal()
    ensures f in Lose(db, y, soft).flows && Accounted(Lose(db, y, soft), f)
  {
    var t := db.steps[y].lineage;
    if t == 0 {
      CloseTrunk(db.steps, f, y, soft);
    } else {
      assert db.steps[t].flow == f && db.steps[t].spawned;
      PropagateBalances(db.steps, f, t, soft);
    }
  }

  /** A running flow is in order; one that ended on its own has closed books that match its status. */
  ghost predicate Accounted(db: Db, f: nat)
    requires f in db.flows
  {
    match db.flows[f].status
    case Completed => Balanced(db.steps, f) && Tokens(db.steps, f, 0) == {} && Losses(db.steps, f, 0) == {}
    case Failed => Settled(db.steps, f, FlowLost(false))
    case Cancelled => Settled(db.steps, f, FlowLost(true))
    case Terminated => true
    case _ => InOrder(db.steps, f)
  }

  /** The preconditions of a transition: f runs, its rows are in shape, x is ready to move. */
  ghost predicate CanMove(db: Db, f: nat, x: nat) {
    && FreshIds(db) && Ready(db.steps, f) && SpawnsDone(db.steps, f) && Moving(db.steps, f, x)
    && f in db.flows && !db.flows[f].status.Terminal()
  }

  lemma FanInLinks(db: Db, t: nat, x: nat, inherit: bool, exitTask: bool) returns (linked: map<nat, Step>, r: Step)
    requires t in db.steps && x in db.steps && db.steps[x].flow in db.flows && db.nextStep !in db.steps
    ensures InsertFanIn(db, t, x, inherit, exitTask).steps == linked[db.nextStep := r]
    ensures InsertFanIn(db, t, x, inherit, exitTask).flows == db.flows
    ensures Linked(db.steps, linked)
    ensures r.flow == db.steps[t].flow && r.lineage == db.steps[t].lineage && r.Token() && !r.Lost() && !r.spawned
            && r.failures == 0 && r.cancellations == 0
  {
    var db' := InsertFanIn(db, t, x, inherit, exitTask);
    r := db'.steps[db.nextStep];
    linked := LinkedRows(db, t);
    assert db'.steps == linked[db.nextStep := r];
  }

  /** Arriving at a fan-in, in all four of its endings. */
  lemma ArriveAccounts(db: Db, f: nat, x: nat, inherit: bool, exitTask: bool)
    requires CanMove(db, f, x) && db.steps[x].lineage != 0
    ensures f in Arrive(db, x, inherit, exitTask).flows && Accounted(Arrive(db, x, inherit, exitTask), f)
  {
    var t := db.steps[x].lineage;
    CohortOf(db.steps, f, x, t);
    var c := CountedRow(db.steps[t]);
    var db1 := db.(steps := Arrived(db.steps, x, t));
    if c.arrivals < c.size {
      ArrivalWaits(db.steps, f, x, t);
    } else if c.failures == 0 {
      var linked, r := FanInLinks(db1, t, x, inherit, exitTask);
      ArrivalConverges(db.steps, f, x, t, linked, db.nextStep, r);
    } else {
      ArrivalOwes(db.steps, f, x, t);
      ArrivedNested(db.steps, f, x, t);
      LoseAccounts(db1, f, t, c.cancellations == c.failures);
    }
  }

  lemma ArrivedNested(steps: map<nat, Step>, f: nat, x: nat, t: nat)
    requires Arriving(steps, f, x, t) && SpawnsDone(steps, f) && t in steps && t != x
    ensures var steps1 := Arrived(steps, x, t); Nested(steps1) && LineageDown(steps1) && SpawnsDone(steps1, f)
  {
  }

  /** completeFlow. */
  lemma FinishAccounts(db: Db, f: nat, x: nat)
    requires CanMove(db, f, x) && db.steps[x].lineage == 0
    ensures Accounted(Finish(db, x), f)
  {
    var q := ArrivedRow(db.steps[x]);
    var steps1 := db.steps[x := q];
    TokenSpent(db.steps, x, q, f, 0);
    NoMembers(db, x);
    forall s | s in steps1 && steps1[s].flow == f ensures Books(steps1, f, s, 0, false) {
      TokenSpent(db.steps, x, q, f, s);
      assert Books(db.steps, f, s, 0, false);
    }
  }

  /** A step that can fail: live, and never a spawn. */
  ghost predicate CanFail(db: Db, f: nat, x: nat) {
    && FreshIds(db) && Ready(db.steps, f) && SpawnsDone(db.steps, f)
    && f in db.flows && !db.flows[f].status.Terminal()
    && x in db.steps && db.steps[x].flow == f && db.steps[x].Live() && !db.steps[x].spawned
    && db.steps[x].failures == 0 && db.steps[x].cancellations == 0
  }

  lemma FailedBooks(db: Db, f: nat, x: nat, cancelled: bool, s: nat)
    requires CanFail(db, f, x)
    requires s in db.steps && db.steps[s].flow == f
    ensures Books(db.steps[x := FailedRow(db.steps[x], cancelled)], f, s,
                  if s == db.steps[x].lineage then 1 else 0, cancelled)
  {
    var q := FailedRow(db.steps[x], cancelled);
    assert Books(db.steps, f, s, 0, false);
    assert db.steps[x].Token() && !db.steps[x].Lost();
    assert q.HardLost() <==> !cancelled;
    if s == q.lineage {
      TokenLost(db.steps, x, q, f, s);
    } else {
      OneRow(db.steps, x, q, f, s);
    }
  }

  lemma FailedTrunk(db: Db, f: nat, x: nat, cancelled: bool)
    requires CanFail(db, f, x)
    ensures var r := db.steps[x];
            var steps1 := Failing(db, x, cancelled).steps;
            && (r.lineage != 0 ==> |Tokens(steps1, f, 0)| == 1 && Losses(steps1, f, 0) == {})
            && (r.lineage == 0 ==> |Tokens(steps1, f, 0)| == 0 && Losses(steps1, f, 0) == {x}
                                   && SoftLosses(steps1, f, 0) == if cancelled then {x} else {})
  {
    var r, q := db.steps[x], FailedRow(db.steps[x], cancelled);
    assert r.Token() && !r.Lost() && !q.Token() && q.Lost() && (q.HardLost() <==> !cancelled);
    RowLostOnTrunk(db.steps, f, x, q);
  }

  /** A lost row, seen from the trunk. */
  lemma RowLostOnTrunk(steps: map<nat, Step>, f: nat, x: nat, q: Step)
    requires InOrder(steps, f) && x in steps && steps[x].flow == f && q.flow == f && q.lineage == steps[x].lineage
    requires steps[x].Token() && !steps[x].Lost() && !q.Token() && q.Lost()
    ensures var steps1 := steps[x := q];
            && (q.lineage != 0 ==> |Tokens(steps1, f, 0)| == 1 && Losses(steps1, f, 0) == {})
            && (q.lineage == 0 ==> |Tokens(steps1, f, 0)| == 0 && Losses(steps1, f, 0) == {x}
                                   && SoftLosses(steps1, f, 0) == if q.HardLost() then {} else {x})
  {
    if q.lineage == 0 {
      TokenLost(steps, x, q, f, 0);
      assert SoftLosses(steps, f, 0) <= Losses(steps, f, 0);
    } else {
      OneRow(steps, x, q, f, 0);
    }
  }

  lemma FailedOwes(db: Db, f: nat, x: nat, cancelled: bool)
    requires CanFail(db, f, x)
    ensures Owes(Failing(db, x, cancelled).steps, f, x, cancelled)
  {
    FailedTrunk(db, f, x, cancelled);
    forall s | s in db.steps && db.steps[s].flow == f
      ensures Books(Failing(db, x, cancelled).steps, f, s, if s == db.steps[x].lineage then 1 else 0, cancelled)
    {
      FailedBooks(db, f, x, cancelled, s);
    }
  }

  /** failStep, on the trunk and inside a cohort. */
  lemma FailAccounts(db: Db, f: nat, x: nat, g: nat, cancelled: bool)
    requires CanFail(db, f, x) && HoldMatches(db, x, g)
    ensures f in Fail(db, x, g, cancelled).flows && Accounted(Fail(db, x, g, cancelled), f)
  {
    FailedOwes(db, f, x, cancelled);
    FailedNested(db, f, x, cancelled);
    LoseAccounts(Failing(db, x, cancelled), f, x, cancelled);
  }

  lemma FailedNested(db: Db, f: nat, x: nat, cancelled: bool)
    requires CanFail(db, f, x)
    ensures var steps1 := Failing(db, x, cancelled).steps;
            Nested(steps1) && LineageDown(steps1) && SpawnsDone(steps1, f)
  {
  }

  /** The fan-in links of a spawn with no members. */
  lemma SpawnAlone(db: Db, f: nat, x: nat)
    requires x in db.steps && db.steps[x].flow == f && forall z <- db.steps :: db.steps[z].lineage != x
    ensures LinkedRows(db, x) == db.steps[x := db.steps[x].(next := db.nextStep)]
  {
  }
}
