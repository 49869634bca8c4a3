/** Transition by transition: what each does to the graph, and that it is fair to what is handed on. */
module HeritageMoves {
  import opened Rows
  import opened Transactions
  import opened Shape
  import opened Ledger
  import opened Accounting
  import opened Verdict
  import opened Shaping
  import opened Reach
  import opened Recount
  import opened ForkExact
  import opened Machine
  import opened Leases
  import opened Carrying
  import opened Quiet
  import opened Commits
  import opened Runs
  import opened Heritage
  import opened HeritageQuiet
  import opened HeritageCommits

  /** No row of the tables has x as its lineage. */
  ghost predicate Memberless(steps: map<nat, Step>, x: nat) {
    forall z {:trigger steps[z].lineage} :: z in steps ==> steps[z].lineage != x
  }

  lemma {:induction false} NothingInside(steps: map<nat, Step>, z: nat, x: nat)
    requires Memberless(steps, x)
    ensures !Within(steps, z, x)
    decreases z
  {
    if z in steps && 0 < steps[z].lineage < z { NothingInside(steps, steps[z].lineage, x); }
  }

  lemma HushedAlone(steps: map<nat, Step>, x: nat)
    requires Memberless(steps, x)
    ensures Hushed(steps, x)
  {
    forall z ensures !Within(steps, z, x) { NothingInside(steps, z, x); }
  }

  lemma InnerAlone(db: Db, db': Db, x: nat, frozen: set<nat>)
    requires Memberless(db'.steps, x)
    ensures InnerConverged(db, db', x, frozen)
  {
  }

  /** The step a transition moves. */
  ghost predicate Mover(db: Db, x: nat) {
    && WellShaped(db) && LineageDown(db.steps) && Unmoved(db, x) && db.steps[x].status.Completed? && !FlowDone(db, db.steps[x].flow)
  }

  lemma MoverAlone(db: Db, x: nat)
    requires WellShaped(db) && LineageDown(db.steps) && Unmoved(db, x)
    ensures Memberless(db.steps, x) && !db.steps[x].spawned && db.steps[x].next == 0 && x < db.nextStep && x != 0
    ensures db.steps[x].flow in db.flows && db.steps[x].lineage < x && OwnOk(db.steps[x])
    ensures db.steps[x].lineage != 0 ==> Within(db.steps, x, db.steps[x].lineage)
  {
    NotMoved(db, x);
    NoMembersYet(db.steps, x);
  }

  // ----- To one successor

  /** The tables with x's row rewritten to q and one row added. */
  function OneMore(db: Db, x: nat, q: Step, row: Step): Db {
    db.(steps := db.steps[x := q][db.nextStep := row], nextStep := db.nextStep + 1)
  }

  lemma OneMoreAdvance(db: Db, x: nat, q: Step, row: Step)
    requires Mover(db, x) && OwnRow(db.steps[x], q) && FreshRow(db, x, row)
    ensures Advance(db, OneMore(db, x, q, row), x, x)
  {
    MoverAlone(db, x);
  }

  /** A settled x with one successor on its own branch. */
  lemma OneMoreFair(db: Db, x: nat, q: Step, row: Step, p: Past, p': Past)
    requires Mover(db, x) && q.flow == db.steps[x].flow && q.status.Completed? && q.lineage == db.steps[x].lineage && q.next != 0
    requires row.lineage == q.lineage && !row.spawned && (q.spawned ==> q.flow in p'.direct)
    requires p.reaped == p'.reaped && p.frozen == p'.frozen && p.direct <= p'.direct
    ensures Fair(db, OneMore(db, x, q, row), x, x, p, p')
  {
    var db' := OneMore(db, x, q, row);
    MoverAlone(db, x);
    assert Memberless(db'.steps, x);
    HushedAlone(db'.steps, x);
    InnerAlone(db, db', x, p.frozen);
  }

  lemma NextFair(db: Db, x: nat, inherit: bool, e: bool, p: Past)
    requires Mover(db, x)
    ensures Advance(db, Next(db, x, inherit, e), x, x) && Fair(db, Next(db, x, inherit, e), x, x, p, p)
  {
    var db' := Next(db, x, inherit, e);
    MoverAlone(db, x);
    assert db' == OneMore(db, x, db'.steps[x], db'.steps[db.nextStep]);
    OneMoreAdvance(db, x, db'.steps[x], db'.steps[db.nextStep]);
    OneMoreFair(db, x, db'.steps[x], db'.steps[db.nextStep], p, p);
  }

  lemma DirectFair(db: Db, x: nat, inherit: bool, e: bool, p: Past)
    requires Mover(db, x)
    ensures Advance(db, Direct(db, x, inherit, e), x, x) && Fair(db, Direct(db, x, inherit, e), x, x, p, p)
  {
    var db' := Direct(db, x, inherit, e);
    MoverAlone(db, x);
    assert db' == OneMore(db, x, db'.steps[x], db'.steps[db.nextStep]);
    OneMoreAdvance(db, x, db'.steps[x], db'.steps[db.nextStep]);
    OneMoreFair(db, x, db'.steps[x], db'.steps[db.nextStep], p, p);
  }

  // ----- A fan-out

  /** A spawned x with its branches. */
  lemma RowsAdvance(db: Db, x: nat, q: Step, rows: map<nat, Step>, n: nat)
    requires Mover(db, x) && OwnRow(db.steps[x], q) && q.next == 0 && db.steps[x].flow in db.flows && db.steps[x].next == 0
    requires forall z {:trigger z in rows} :: z in rows ==> db.nextStep <= z && FreshRow(db, x, rows[z])
    ensures Advance(db, db.(steps := db.steps[x := q] + rows, nextStep := db.nextStep + n), x, x)
  {
  }

  lemma RowsFair(db: Db, x: nat, q: Step, rows: map<nat, Step>, n: nat, p: Past, p': Past)
    requires Mover(db, x) && q.flow == db.steps[x].flow && q.status.Completed? && q.next == 0 && !Clean(q) && x !in rows
    requires forall z {:trigger z in rows} :: z in rows ==> z !in db.steps
    requires p.reaped == p'.reaped && p.frozen == p'.frozen && p.direct <= p'.direct
    requires var steps' := db.steps[x := q] + rows; q.flow !in p'.direct ==> |Heads(steps', steps'.Keys, x)| == q.size
    ensures Fair(db, db.(steps := db.steps[x := q] + rows, nextStep := db.nextStep + n), x, x, p, p')
  {
    MoverAlone(db, x);
  }

  lemma HeadsOfRows(steps: map<nat, Step>, x: nat, q: Step, rows: map<nat, Step>)
    requires Memberless(steps, x) && q.lineage != x && forall z {:trigger z in rows} :: z in rows ==> rows[z].lineage == rows[z].pred == x
    ensures var steps' := steps[x := q] + rows; Heads(steps', steps'.Keys, x) == rows.Keys
  {
  }

  lemma PushFair(db: Db, x: nat, inherit: bool, tasks: seq<bool>, direct: nat, e: bool, p: Past)
    requires Mover(db, x) && |tasks| > 0
    ensures var db' := Push(db, x, inherit, tasks, direct, e);
            var p' := if direct > 0 then p.(direct := p.direct + {db.steps[x].flow}) else p;
            Advance(db, db', x, x) && Fair(db, db', x, x, p, p')
  {
    MoverAlone(db, x);
    PushRows(db, db.steps[x].flow, x, inherit, tasks, direct, e);
    BranchesFresh(db, x, inherit, tasks, direct);
    var q, rows := PushedRow(db, x, |tasks|, direct), Branches(db, x, inherit, tasks, |tasks|);
    RowsAdvance(db, x, q, rows, |tasks|);
    RowsFair(db, x, q, rows, |tasks|, p, if direct > 0 then p.(direct := p.direct + {db.steps[x].flow}) else p);
  }

  lemma BranchesFresh(db: Db, x: nat, inherit: bool, tasks: seq<bool>, direct: nat)
    requires Mover(db, x) && db.steps[x].flow in db.flows && |tasks| > 0
    ensures var rows := Branches(db, x, inherit, tasks, |tasks|);
            && (forall z {:trigger z in rows} :: z in rows ==> db.nextStep <= z && z !in db.steps && FreshRow(db, x, rows[z]))
            && var steps' := db.steps[x := PushedRow(db, x, |tasks|, direct)] + rows;
               |Heads(steps', steps'.Keys, x)| == |tasks|
  {
    MoverAlone(db, x);
    BranchCount(db, x, inherit, tasks, |tasks|);
    HeadsOfRows(db.steps, x, PushedRow(db, x, |tasks|, direct), Branches(db, x, inherit, tasks, |tasks|));
  }

  lemma PushDirectFair(db: Db, x: nat, inherit: bool, direct: nat, e: bool, p: Past)
    requires Mover(db, x) && direct > 0
    ensures var db' := Push(db, x, inherit, [], direct, e);
            Advance(db, db', x, x) && Fair(db, db', x, x, p, p.(direct := p.direct + {db.steps[x].flow}))
  {
    MoverAlone(db, x);
    var f := db.steps[x].flow;
    assert Moving(db.steps, f, x);
    var row := PushedFanIn(db, f, x, inherit, direct, e);
    PushedRowIs(db, x, inherit, direct, e);
    var q := PushedRow(db, x, 0, direct).(next := db.nextStep);
    OneMoreAdvance(db, x, q, row);
    OneMoreFair(db, x, q, row, p, p.(direct := p.direct + {f}));
  }

  /** The fan-in of a fan-out of direct edges alone continues the spawn's branch. */
  lemma PushedRowIs(db: Db, x: nat, inherit: bool, direct: nat, e: bool)
    requires Mover(db, x) && direct > 0
    ensures db.nextStep in Push(db, x, inherit, [], direct, e).steps
    ensures var q := Push(db, x, inherit, [], direct, e).steps[db.nextStep]; FreshRow(db, x, q) && q.lineage == db.steps[x].lineage
  {
    MoverAlone(db, x);
    PushConverges(db, x, inherit, direct, e);
  }

  // ----- An arrival

  /** Inside a cohort that resolved clean nothing is open and nothing is lost, at any depth. */
  lemma {:induction false} InsideQuiet(steps: map<nat, Step>, f: nat, t: nat, z: nat)
    requires Nested(steps) && Balanced(steps, f) && t in steps && steps[t].flow == f && Clean(steps[t]) && Within(steps, z, t)
    ensures z in steps && steps[z].flow == f && !steps[z].Token() && !steps[z].Lost()
    decreases z
  {
    var c := steps[z].lineage;
    if c != t { InsideQuiet(steps, f, t, c); }
    CleanEmpty(steps, f, c, z);
  }

  lemma CleanEmpty(steps: map<nat, Step>, f: nat, c: nat, z: nat)
    requires Nested(steps) && Balanced(steps, f) && z in steps && steps[z].lineage == c != 0
    requires c in steps && steps[c].flow == f && Clean(steps[c])
    ensures steps[z].flow == f && !steps[z].Token() && !steps[z].Lost()
  {
    assert Books(steps, f, c, 0, false);
    assert Tokens(steps, f, c) == {} && Losses(steps, f, c) == {};
    assert z !in Tokens(steps, f, c) && z !in Losses(steps, f, c);
  }

  /** A cohort that converges clean is quiet, and the cohorts inside it have converged. */
  lemma ConvergeFair(db: Db, db': Db, x: nat, t: nat, frozen: set<nat>)
    requires Advance(db, db', x, t) && t in db'.steps && Clean(db'.steps[t]) && db'.steps[t].flow == db.steps[x].flow
    requires Nested(db'.steps) && Balanced(db'.steps, db.steps[x].flow) && !FlowDone(db, db.steps[x].flow)
    requires CleanFrom(db, db', db.steps[x].flow) && CleanConverge(db, frozen)
    ensures Hushed(db'.steps, t) && InnerConverged(db, db', t, frozen)
  {
    var f := db.steps[x].flow;
    forall z | Within(db'.steps, z, t) ensures !db'.steps[z].Loose() { InsideQuiet(db'.steps, f, t, z); }
    forall y | y in db'.steps && db'.steps[y].lineage == t && t != 0 && db'.steps[y].spawned && db'.steps[y].flow !in frozen
      ensures db'.steps[y].next != 0
    {
      CleanEmpty(db'.steps, f, t, y);
      assert Clean(db'.steps[y]) && y in db.steps;
    }
  }

  /** A row as it was, or with a loss counted in it. */
  predicate LossCounted(r: Step, q: Step) {
    q == r || (q.failures > 0 && q == r.(arrivals := q.arrivals, failures := q.failures, cancellations := q.cancellations))
  }

  /** Losses on their way up leave their mark on every counter they touch. */
  lemma {:induction false} PropagateFails(steps: map<nat, Step>, cur: nat, soft: bool)
    requires LineageDown(steps) && cur in steps
    ensures var r := Propagate(steps, cur, soft).0;
            r.Keys == steps.Keys && forall y {:trigger LossCounted(steps[y], r[y])} :: y in steps ==> LossCounted(steps[y], r[y])
    decreases cur
  {
    var b := Bump(steps[cur], soft);
    var steps1 := steps[cur := b];
    if b.arrivals >= b.size && b.lineage != 0 {
      PropagateFails(steps1, b.lineage, b.cancellations == b.failures);
      forall y | y in steps ensures LossCounted(steps[y], Propagate(steps, cur, soft).0[y]) {
        assert LossCounted(steps1[y], Propagate(steps1, b.lineage, b.cancellations == b.failures).0[y]);
      }
    }
  }
}
