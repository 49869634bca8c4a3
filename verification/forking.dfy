/** Fork's transaction for one flow on the rewind chain, on the two tables. */
module Forking {
  import opened Rows
  import opened Transactions
  import opened Shape
  import opened Ledger
  import opened Reach
  import opened Pruning
  import opened Recount
  import opened Renaming

  /** New ids for the kept rows, handed out in the order of the old ones. */
  ghost predicate NewIds(db: Db, f: nat, x: nat, caller: bool, m: map<nat, nat>, top: nat) {
    Increasing(Rewound(db.steps, f, x, caller), m) && db.nextStep <= top
    && forall a {:trigger m[a]} :: a in m ==> db.nextStep <= m[a] < top
  }

  /** The tables with a new running flow made of these rows. */
  function WithFlow(db: Db, rows: map<nat, Step>, top: nat): Db {
    db.(steps := db.steps + rows, flows := db.flows[db.nextFlow := Flow(Running, 0)],
        nextStep := top, nextFlow := db.nextFlow + 1)
  }

  /** The clone's rows and its flow row; the origin is left as it is. */
  ghost function Fork(db: Db, f: nat, x: nat, caller: bool, m: map<nat, nat>, top: nat): Db
    requires NewIds(db, f, x, caller, m, top)
  {
    WithFlow(db, Renamed(Rewound(db.steps, f, x, caller), m, db.nextFlow), top)
  }

  /** The clone's row of a kept step. */
  lemma ForkRow(db: Db, f: nat, x: nat, caller: bool, m: map<nat, nat>, top: nat, y: nat)
    requires NewIds(db, f, x, caller, m, top) && y in Kept(db.steps, f, x)
    ensures y in m && m[y] in Fork(db, f, x, caller, m, top).steps && m.Keys == Kept(db.steps, f, x)
    ensures Fork(db, f, x, caller, m, top).steps[m[y]]
            == RenamedRow(KeptRow(db.steps, Kept(db.steps, f, x), x, caller, y), m, db.nextFlow)
  {
    var t := Rewound(db.steps, f, x, caller);
    assert y in t;
    assert m.Keys == t.Keys == Kept(db.steps, f, x);
    assert m[y] in Renamed(t, m, db.nextFlow);
  }

  /** How the clone's links follow the id map: a link to a pruned step is cleared, every other one is carried over. */
  lemma ForkLinks(db: Db, f: nat, x: nat, caller: bool, m: map<nat, nat>, top: nat, y: nat)
    requires NewIds(db, f, x, caller, m, top) && y in Kept(db.steps, f, x)
    ensures y in m && m[y] in Fork(db, f, x, caller, m, top).steps
    ensures var r, q := db.steps[y], Fork(db, f, x, caller, m, top).steps[m[y]];
            && q.flow == db.nextFlow && q.pred == Id(m, r.pred) && q.lineage == Id(m, r.lineage)
            && q.succ == (if y == x then 0 else Id(m, r.succ))
            && q.depth == r.depth && q.ordinal == r.ordinal && q.exitTask == r.exitTask
            && !q.cancelling && (y != x ==> q.status.Terminal() && !q.parked)
  {
    ForkRow(db, f, x, caller, m, top, y);
    KeptRowLinks(db.steps, Kept(db.steps, f, x), x, caller, y);
    LinksRenamed(db.steps[y], KeptRow(db.steps, Kept(db.steps, f, x), x, caller, y), m, db.nextFlow, y == x);
  }

  predicate Cleared(r: Step, k: Step, kept: set<nat>, rewound: bool) {
    && k.pred == r.pred && k.lineage == r.lineage && k.depth == r.depth && k.ordinal == r.ordinal
    && k.exitTask == r.exitTask && !k.cancelling && (!rewound ==> k.status.Terminal() && !k.parked)
    && k.succ == (if !rewound && r.succ in kept then r.succ else 0)
  }

  lemma KeptRowLinks(steps: map<nat, Step>, kept: set<nat>, x: nat, caller: bool, y: nat)
    requires y in steps
    ensures Cleared(steps[y], KeptRow(steps, kept, x, caller, y), kept, y == x)
  {
  }

  lemma LinksRenamed(r: Step, k: Step, m: map<nat, nat>, g: nat, rewound: bool)
    requires 0 !in m && Cleared(r, k, m.Keys, rewound)
    ensures var q := RenamedRow(k, m, g);
            && q.flow == g && q.pred == Id(m, r.pred) && q.lineage == Id(m, r.lineage)
            && q.succ == (if rewound then 0 else Id(m, r.succ))
            && q.depth == r.depth && q.ordinal == r.ordinal && q.exitTask == r.exitTask
            && !q.cancelling && (!rewound ==> q.status.Terminal() && !q.parked)
  {
  }

  /** The origin's rows are untouched. */
  lemma OriginKept(db: Db, f: nat, x: nat, caller: bool, m: map<nat, nat>, top: nat, y: nat)
    requires NewIds(db, f, x, caller, m, top) && y in db.steps && y < db.nextStep
    ensures y in Fork(db, f, x, caller, m, top).steps && Fork(db, f, x, caller, m, top).steps[y] == db.steps[y]
  {
    var t := Rewound(db.steps, f, x, caller);
    if y in Renamed(t, m, db.nextFlow) {
      var z := OldId(t, Renamed(t, m, db.nextFlow), m, db.nextFlow, y);
    }
  }

  /** Whatever a kept step is a DAG descendant of is kept as well: an anchor of its state is never lost. */
  lemma AnchorKept(steps: map<nat, Step>, f: nat, x: nat, a: nat, y: nat)
    requires Rewinds(steps, f, x) && y in Kept(steps, f, x) && Reaches(steps, a, y)
    ensures a in Kept(steps, f, x) && a != x
  {
    ReachesUp(steps, a, y);
    if Reaches(steps, x, a) { ReachesOn(steps, x, a, y); }
  }

  // ----- Two flows side by side

  ghost predicate Apart(a: map<nat, Step>, b: map<nat, Step>) {
    a.Keys !! b.Keys && 0 !in a && 0 !in b
    && forall y, z :: y in a && z in b ==> a[y].flow != b[z].flow && y < z
  }

  lemma StepAlongside(a: map<nat, Step>, b: map<nat, Step>, y: nat)
    requires Shaped(a) && Shaped(b) && Apart(a, b) && y in a + b
    ensures StepShape(a + b, y)
  {
    if y in a {
      assert StepShape(a, y);
      if a[y].pred != 0 { assert StepShape(a, a[y].pred); }
    } else {
      assert StepShape(b, y);
      if b[y].pred != 0 { assert StepShape(b, b[y].pred); }
    }
  }

  lemma ShapedAlongside(a: map<nat, Step>, b: map<nat, Step>)
    requires Shaped(a) && Shaped(b) && Apart(a, b)
    ensures Shaped(a + b)
  {
    var t := a + b;
    forall y | y in t ensures StepShape(t, y) { StepAlongside(a, b, y); }
    assert BranchOrdered(t) by { OrderedAlongside(a, b); }
    assert HeadsDistinct(t) by { HeadsAlongside(a, b); }
  }

  lemma OrderedAlongside(a: map<nat, Step>, b: map<nat, Step>)
    requires BranchOrdered(a) && BranchOrdered(b) && Apart(a, b)
    ensures BranchOrdered(a + b)
  {
    var t := a + b;
    forall y, z | y in t && z in t && y < z && SameBranch(t[y], t[z]) ensures Follows(t[y], t[z], z) {
      if y in a {
        assert z in a;
        assert SameBranch(a[y], a[z]);
      } else {
        assert z in b;
        assert SameBranch(b[y], b[z]);
      }
    }
  }

  lemma LineageInside(a: map<nat, Step>, y: nat)
    requires Shaped(a) && y in a
    ensures a[y].lineage == 0 || a[y].lineage in a
  {
    assert StepShape(a, y);
  }

  lemma HeadsAlongside(a: map<nat, Step>, b: map<nat, Step>)
    requires Shaped(a) && Shaped(b) && Apart(a, b)
    ensures HeadsDistinct(a + b)
  {
    var t := a + b;
    forall y, z | Siblings(t, y, z) ensures t[y].ordinal != t[z].ordinal {
      if y in a { LineageInside(a, y); } else { LineageInside(b, y); }
      if z in a { LineageInside(a, z); } else { LineageInside(b, z); }
      assert Siblings(a, y, z) || Siblings(b, y, z);
    }
  }
}
