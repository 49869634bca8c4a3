/**
 The shape of the execution graph a flow's steps form: lineages nest, predecessors lead back to the entry
 step, every branch of a cohort is a chain that starts at its head and grows at its end, and
 (ordinal, depth) tells the members of a cohort apart.
 */
module Shape {
  import opened Rows
  import opened Transactions

  /** How a step relates to its predecessor: it heads a branch of it, continues it, or converges its cohort. */
  ghost predicate PredRule(steps: map<nat, Step>, y: nat)
    requires y in steps && steps[y].pred in steps
  {
    var p := steps[y].pred;
    || (steps[y].lineage == p && steps[y].head == y)
    || steps[p].next == y
    || (steps[p].lineage != 0 && steps[p].lineage in steps && steps[steps[p].lineage].next == y)
  }

  ghost predicate LineageOk(steps: map<nat, Step>, y: nat)
    requires y in steps
  {
    var r := steps[y];
    && r.lineage < y
    && (r.lineage != 0 ==> r.lineage in steps && steps[r.lineage].flow == r.flow && steps[r.lineage].spawned
                           && steps[r.lineage].depth < r.depth)
  }

  ghost predicate PredOk(steps: map<nat, Step>, y: nat)
    requires y in steps
  {
    var r := steps[y];
    && r.pred < y
    && (r.pred == 0 ==> r.lineage == 0)
    && (r.pred != 0 ==> r.pred in steps && steps[r.pred].flow == r.flow && steps[r.pred].settled
                        && PredRule(steps, y))
  }

  ghost predicate HeadOk(steps: map<nat, Step>, y: nat)
    requires y in steps
  {
    var r := steps[y];
    && (r.head == 0 <==> r.lineage == 0)
    && (r.head != 0 ==> r.head <= y && r.head in steps && steps[r.head].head == r.head
                        && steps[r.head].lineage == r.lineage && steps[r.head].pred == r.lineage
                        && steps[r.head].ordinal == r.ordinal)
    && (r.lineage != 0 && r.pred == r.lineage ==> r.head == y)
  }

  ghost predicate NextOk(steps: map<nat, Step>, y: nat)
    requires y in steps
  {
    var n := steps[y].next;
    n != 0 ==> steps[y].settled && y < n && n in steps && SameBranch(steps[n], steps[y])
  }

  /** What a step's own columns owe each other. */
  predicate OwnOk(r: Step) {
    && (r.settled ==> !r.status.Open())
    && (r.spawned ==> r.settled)
    && (!r.spawned ==> r.arrivals == 0 && r.failures == 0 && r.cancellations == 0)
    && (r.spawned && r.next != 0 ==> r.arrivals >= r.size)
    && !r.status.Created?
  }

  /** What a step's successor link may name: the first branch it spawned, its own continuation, its cohort's fan-in. */
  ghost predicate SuccRule(steps: map<nat, Step>, y: nat)
    requires y in steps && steps[y].succ in steps
  {
    var n := steps[y].succ;
    || (steps[n].lineage == y && steps[n].head == n)
    || steps[y].next == n
    || (steps[y].lineage != 0 && steps[y].lineage in steps && steps[steps[y].lineage].next == n)
  }

  ghost predicate SuccOk(steps: map<nat, Step>, y: nat)
    requires y in steps
  {
    steps[y].succ != 0 ==> steps[y].succ in steps && steps[steps[y].succ].flow == steps[y].flow
                           && y < steps[y].succ && SuccRule(steps, y)
  }

  /** Once a cohort converged, its members that left through a task with an edge to the fan-in point to it. */
  ghost predicate ExitOk(steps: map<nat, Step>, y: nat)
    requires y in steps
  {
    var r := steps[y];
    (r.lineage != 0 && r.lineage in steps && steps[r.lineage].next != 0 && r.exitTask && r.next == 0 && !r.spawned)
    ==> r.succ == steps[r.lineage].next
  }

  ghost predicate StepShape(steps: map<nat, Step>, y: nat)
    requires y in steps
  {
    LineageOk(steps, y) && PredOk(steps, y) && HeadOk(steps, y) && NextOk(steps, y) && OwnOk(steps[y])
    && SuccOk(steps, y) && ExitOk(steps, y)
  }

  /** Two steps of one branch of one cohort (of one trunk). */
  predicate SameBranch(r: Step, q: Step) {
    r.flow == q.flow && r.lineage == q.lineage && r.head == q.head
  }

  /** The steps of a branch were inserted one after the other, each deeper than the ones before. */
  ghost predicate BranchOrdered(steps: map<nat, Step>) {
    forall y, z {:trigger SameBranch(steps[y], steps[z])} | y in steps && z in steps && y < z && SameBranch(steps[y], steps[z]) ::
      Follows(steps[y], steps[z], z)
  }

  /** z comes after r on r's branch. */
  predicate Follows(r: Step, q: Step, z: nat) {
    0 < r.next <= z && r.depth < q.depth && r.ordinal == q.ordinal && q.pred != 0
  }

  ghost predicate HeadsDistinct(steps: map<nat, Step>) {
    forall y, z {:trigger Siblings(steps, y, z)} | Siblings(steps, y, z) :: steps[y].ordinal != steps[z].ordinal
  }

  /** Two different heads of the branches of one cohort. */
  predicate Siblings(steps: map<nat, Step>, y: nat, z: nat) {
    y in steps && z in steps && y != z && steps[y].lineage == steps[z].lineage != 0
    && steps[y].head == y && steps[z].head == z
  }

  ghost predicate Ids(db: Db) {
    && 0 !in db.steps && 0 < db.nextStep
    && (forall y <- db.steps :: y < db.nextStep && db.steps[y].flow in db.flows)
    && (forall f <- db.flows :: f < db.nextFlow)
  }

  ghost predicate Shaped(steps: map<nat, Step>) {
    (forall y {:trigger StepShape(steps, y)} :: y in steps ==> StepShape(steps, y)) && BranchOrdered(steps) && HeadsDistinct(steps)
  }

  ghost predicate WellShaped(db: Db) {
    Ids(db) && Shaped(db.steps)
  }

  lemma LineagesDescend(steps: map<nat, Step>)
    requires Shaped(steps)
    ensures LineageDown(steps)
  {
    forall y <- steps
      ensures steps[y].lineage < y && (steps[y].lineage != 0 ==> steps[y].lineage in steps)
    {
      assert StepShape(steps, y);
    }
  }

  // ----- Writes that leave the graph alone

  /** A row rewritten from q to r with its graph columns kept; it may settle. */
  predicate SameBones(r: Step, q: Step) {
    && r.flow == q.flow && r.lineage == q.lineage && r.pred == q.pred && r.succ == q.succ
    && r.ordinal == q.ordinal && r.depth == q.depth && r.exitTask == q.exitTask && r.head == q.head
    && r.next == q.next && (q.settled ==> r.settled) && r.spawned == q.spawned
  }

  ghost predicate BonesKept(steps: map<nat, Step>, steps': map<nat, Step>) {
    steps'.Keys <= steps.Keys && forall y <- steps' :: SameBones(steps'[y], steps[y])
  }

  ghost predicate WholeFlows(steps: map<nat, Step>, steps': map<nat, Step>) {
    forall y, z | y in steps' && y in steps && z in steps && steps[z].flow == steps[y].flow :: z in steps'
  }

  lemma StepKept(steps: map<nat, Step>, steps': map<nat, Step>, y: nat)
    requires Shaped(steps) && BonesKept(steps, steps') && WholeFlows(steps, steps')
    requires y in steps' && y in steps && OwnOk(steps'[y])
    ensures StepShape(steps', y)
  {
    assert StepShape(steps, y);
    var r := steps[y];
    assert r.head != 0 ==> StepShape(steps, r.head);
    assert r.lineage != 0 ==> r.lineage in steps';
    assert r.pred != 0 ==> r.pred in steps';
    assert r.next != 0 ==> r.next in steps';
    if r.pred != 0 {
      assert StepShape(steps, r.pred);
      assert steps[r.pred].lineage != 0 ==> steps[r.pred].lineage in steps';
    }
    if r.head != 0 {
      assert r.lineage in steps' && steps[r.head].flow == r.flow && r.head in steps';
    }
  }

  /** Dropping whole flows, or rewriting status and counters, keeps the shape. */
  lemma ShapeKept(steps: map<nat, Step>, steps': map<nat, Step>)
    requires Shaped(steps) && BonesKept(steps, steps') && WholeFlows(steps, steps')
    requires forall y <- steps' :: OwnOk(steps'[y])
    ensures Shaped(steps')
  {
    forall y | y in steps' ensures StepShape(steps', y) { StepKept(steps, steps', y); }
    forall a, b | a in steps' && b in steps' && a < b && SameBranch(steps'[a], steps'[b])
      ensures Follows(steps'[a], steps'[b], b)
    { assert SameBranch(steps[a], steps[b]); }
    forall a, b | Siblings(steps', a, b) ensures steps'[a].ordinal != steps'[b].ordinal
    { assert Siblings(steps, a, b); }
  }

  // ----- Growing a branch

  /**
   `steps'` is `steps` with one step y added that continues the branch c is the end of, after step p: c itself,
   or a member of the cohort c spawned.
   */
  ghost predicate Grown(steps: map<nat, Step>, steps': map<nat, Step>, c: nat, p: nat, y: nat) {
    && c in steps && p in steps && y !in steps && steps'.Keys == steps.Keys + {y}
    && (p == c || steps[p].lineage == c)
    && (forall z <- steps :: OwnOk(steps'[z]) && GrownRow(steps[z], steps'[z]))
    && (forall z <- steps | z != c :: steps'[z].next == steps[z].next)
    && steps'[c].next == y && steps'[c].settled && steps'[p].settled
    && SameBranch(steps'[y], steps[c]) && steps'[y].pred == p && steps'[y].ordinal == steps[c].ordinal
    && steps[c].depth < steps'[y].depth && steps'[y].next == 0 && !steps'[y].spawned && OwnOk(steps'[y])
    && steps'[y].succ == 0 && (steps[c].lineage != 0 && steps[c].lineage in steps ==> steps[steps[c].lineage].next == 0)
    && (forall z <- steps :: LinkRule(steps[z], steps'[z], c, y))
  }

  /** Which successors the growth may write: c's own, and those of the members of the cohort c spawned. */
  predicate LinkRule(r: Step, q: Step, c: nat, y: nat) {
    && (q.succ == r.succ || (q.succ == y && (q.next == y || r.lineage == c)))
    && (r.lineage == c && r.exitTask && q.next == 0 && !r.spawned ==> q.succ == y)
    && q.exitTask == r.exitTask
  }

  predicate GrownRow(r: Step, q: Step) {
    && q.flow == r.flow && q.lineage == r.lineage && q.pred == r.pred && q.ordinal == r.ordinal
    && q.depth == r.depth && q.head == r.head && (r.settled ==> q.settled) && q.spawned == r.spawned
  }

  lemma GrowthKeepsSteps(steps: map<nat, Step>, steps': map<nat, Step>, c: nat, p: nat, y: nat, z: nat)
    requires Shaped(steps) && Grown(steps, steps', c, p, y) && steps[c].next == 0
    requires 0 !in steps && forall w <- steps :: w < y
    requires z in steps
    ensures LineageOk(steps', z) && PredOk(steps', z) && HeadOk(steps', z) && NextOk(steps', z) && OwnOk(steps'[z])
  {
    assert StepShape(steps, z);
    var r := steps[z];
    if r.pred != 0 {
      assert StepShape(steps, r.pred);
      if steps[r.pred].lineage in steps {
        assert steps[steps[r.pred].lineage].next == z ==> steps'[steps[r.pred].lineage].next == z;
      }
    }
    assert GrownRow(steps[z], steps'[z]);
    assert r.lineage != 0 ==> GrownRow(steps[r.lineage], steps'[r.lineage]);
    assert r.pred != 0 ==> GrownRow(steps[r.pred], steps'[r.pred]);
    assert r.head != 0 ==> GrownRow(steps[r.head], steps'[r.head]);
    assert r.next != 0 ==> GrownRow(steps[r.next], steps'[r.next]);
    assert StepShape(steps, c);
  }

  lemma GrowthKeepsLinks(steps: map<nat, Step>, steps': map<nat, Step>, c: nat, p: nat, y: nat, z: nat)
    requires Shaped(steps) && Grown(steps, steps', c, p, y) && steps[c].next == 0
    requires 0 !in steps && forall w <- steps :: w < y
    requires z in steps
    ensures SuccOk(steps', z) && ExitOk(steps', z)
  {
    assert StepShape(steps, z);
    assert GrownRow(steps[z], steps'[z]) && LinkRule(steps[z], steps'[z], c, y);
    var t := steps[z].lineage;
    if t != 0 {
      assert GrownRow(steps[t], steps'[t]);
      assert t != c ==> steps'[t].next == steps[t].next;
    }
  }

  lemma GrowthAddsStep(steps: map<nat, Step>, steps': map<nat, Step>, c: nat, p: nat, y: nat)
    requires Shaped(steps) && Grown(steps, steps', c, p, y) && steps[c].next == 0
    requires 0 !in steps && forall w <- steps :: w < y
    ensures StepShape(steps', y)
  {
    assert StepShape(steps, c);
    assert StepShape(steps, p);
    var q := steps[c];
    assert GrownRow(steps[c], steps'[c]) && GrownRow(steps[p], steps'[p]);
    if q.lineage != 0 {
      assert GrownRow(steps[q.lineage], steps'[q.lineage]);
      assert GrownRow(steps[q.head], steps'[q.head]);
    }
    if p != c {
      assert steps[p].lineage == c;
    }
  }

  lemma GrowthOrdered(steps: map<nat, Step>, steps': map<nat, Step>, c: nat, p: nat, y: nat, a: nat, b: nat)
    requires Shaped(steps) && Grown(steps, steps', c, p, y) && steps[c].next == 0
    requires 0 !in steps && forall w <- steps :: w < y
    requires a in steps' && b in steps' && a < b && SameBranch(steps'[a], steps'[b])
    ensures Follows(steps'[a], steps'[b], b)
  {
    assert a != y;
    assert GrownRow(steps[a], steps'[a]);
    assert GrownRow(steps[c], steps'[c]);
    if b == y {
      assert SameBranch(steps[a], steps[c]) && SameBranch(steps[c], steps[a]);
      assert a <= c;
    } else {
      assert GrownRow(steps[b], steps'[b]);
      assert SameBranch(steps[a], steps[b]);
    }
  }

  lemma GrowthHeads(steps: map<nat, Step>, steps': map<nat, Step>, c: nat, p: nat, y: nat, a: nat, b: nat)
    requires Shaped(steps) && Grown(steps, steps', c, p, y)
    requires forall w <- steps :: w < y
    requires Siblings(steps', a, b)
    ensures steps'[a].ordinal != steps'[b].ordinal
  {
    assert StepShape(steps, c);
    assert steps'[y].head != y;
    assert GrownRow(steps[a], steps'[a]) && GrownRow(steps[b], steps'[b]);
    assert Siblings(steps, a, b);
  }

  lemma ShapeGrown(steps: map<nat, Step>, steps': map<nat, Step>, c: nat, p: nat, y: nat)
    requires Shaped(steps) && Grown(steps, steps', c, p, y) && steps[c].next == 0
    requires 0 !in steps && forall w <- steps :: w < y
    ensures Shaped(steps')
  {
    assert forall z {:trigger StepShape(steps', z)} :: z in steps' ==> StepShape(steps', z) by {
      forall z <- steps' ensures StepShape(steps', z) {
        if z == y { GrowthAddsStep(steps, steps', c, p, y); }
        else { GrowthKeepsSteps(steps, steps', c, p, y, z); GrowthKeepsLinks(steps, steps', c, p, y, z); }
      }
    }
    assert BranchOrdered(steps') by {
      forall a, b | a in steps' && b in steps' && a < b && SameBranch(steps'[a], steps'[b])
        ensures Follows(steps'[a], steps'[b], b)
      { GrowthOrdered(steps, steps', c, p, y, a, b); }
    }
    assert HeadsDistinct(steps') by {
      forall a, b | Siblings(steps', a, b)
        ensures steps'[a].ordinal != steps'[b].ordinal
      { GrowthHeads(steps, steps', c, p, y, a, b); }
    }
  }

  // ----- Spawning a cohort

  /** `steps'` is `steps` with x settled as the spawn of the branches with ids from `base` up to `base + n`. */
  ghost predicate Spawned(steps: map<nat, Step>, steps': map<nat, Step>, x: nat, base: nat, n: nat) {
    && x in steps
    && (forall z :: z in steps' <==> z in steps || base <= z < base + n)
    && (forall z <- steps | z != x :: steps'[z] == steps[z])
    && OwnOk(steps'[x]) && steps'[x].spawned && !steps[x].spawned && steps'[x].next == steps[x].next == 0
    && GrownRow(steps[x].(spawned := true), steps'[x]) && steps'[x].exitTask == steps[x].exitTask
    && (steps'[x].succ == steps[x].succ || (n > 0 && steps'[x].succ == base))
    && (forall z | base <= z < base + n :: BranchHead(steps'[z], steps[x], x, z, z - base))
  }

  predicate BranchHead(q: Step, r: Step, x: nat, z: nat, i: nat) {
    && q.flow == r.flow && q.lineage == x && q.pred == x && q.head == z && q.ordinal == i
    && r.depth < q.depth && q.next == 0 && q.succ == 0 && !q.spawned && OwnOk(q)
  }

  /** A step that has not spawned heads no lineage. */
  lemma NoMembersYet(steps: map<nat, Step>, x: nat)
    requires Shaped(steps) && x in steps && x != 0 && !steps[x].spawned
    ensures forall z <- steps :: steps[z].lineage != x
  {
    forall z <- steps ensures steps[z].lineage != x { assert StepShape(steps, z); }
  }

  lemma SpawnOld(steps: map<nat, Step>, steps': map<nat, Step>, x: nat, base: nat, n: nat, z: nat)
    requires Shaped(steps) && Spawned(steps, steps', x, base, n)
    requires 0 !in steps && forall w <- steps :: w < base
    requires z in steps
    ensures LineageOk(steps', z) && PredOk(steps', z) && HeadOk(steps', z)
  {
    assert StepShape(steps, x) && StepShape(steps, z);
    var r := steps[z];
    if r.pred != 0 { assert StepShape(steps, r.pred); }
  }

  lemma SpawnOldLinks(steps: map<nat, Step>, steps': map<nat, Step>, x: nat, base: nat, n: nat, z: nat)
    requires Shaped(steps) && Spawned(steps, steps', x, base, n)
    requires 0 !in steps && forall w <- steps :: w < base
    requires z in steps
    ensures NextOk(steps', z) && OwnOk(steps'[z]) && SuccOk(steps', z) && ExitOk(steps', z)
  {
    assert StepShape(steps, x) && StepShape(steps, z);
    if steps'[z].succ != steps[z].succ { assert BranchHead(steps'[base], steps[x], x, base, 0); }
  }

  lemma SpawnStep(steps: map<nat, Step>, steps': map<nat, Step>, x: nat, base: nat, n: nat, z: nat)
    requires Shaped(steps) && Spawned(steps, steps', x, base, n)
    requires 0 !in steps && forall w <- steps :: w < base
    requires z in steps'
    ensures StepShape(steps', z)
  {
    if z in steps {
      SpawnOld(steps, steps', x, base, n, z);
      SpawnOldLinks(steps, steps', x, base, n, z);
    } else {
      assert BranchHead(steps'[z], steps[x], x, z, z - base);
      assert 0 < x < z;
    }
  }

  lemma SpawnOrdered(steps: map<nat, Step>, steps': map<nat, Step>, x: nat, base: nat, n: nat, a: nat, b: nat)
    requires Shaped(steps) && Spawned(steps, steps', x, base, n)
    requires 0 !in steps && forall w <- steps :: w < base
    requires a in steps' && b in steps' && a < b && SameBranch(steps'[a], steps'[b])
    ensures Follows(steps'[a], steps'[b], b)
  {
    NoMembersYet(steps, x);
    if b in steps && a in steps {
      assert SameBranch(steps[a], steps[b]);
    } else {
      assert false;
    }
  }

  lemma SpawnHeads(steps: map<nat, Step>, steps': map<nat, Step>, x: nat, base: nat, n: nat, a: nat, b: nat)
    requires Shaped(steps) && Spawned(steps, steps', x, base, n)
    requires 0 !in steps && forall w <- steps :: w < base
    requires Siblings(steps', a, b)
    ensures steps'[a].ordinal != steps'[b].ordinal
  {
    NoMembersYet(steps, x);
    assert a !in steps ==> BranchHead(steps'[a], steps[x], x, a, a - base);
    assert b !in steps ==> BranchHead(steps'[b], steps[x], x, b, b - base);
    assert a in steps <==> b in steps;
    assert a in steps ==> Siblings(steps, a, b);
  }

  lemma ShapeSpawned(steps: map<nat, Step>, steps': map<nat, Step>, x: nat, base: nat, n: nat)
    requires Shaped(steps) && Spawned(steps, steps', x, base, n)
    requires 0 !in steps && forall w <- steps :: w < base
    ensures Shaped(steps')
  {
    assert forall z {:trigger StepShape(steps', z)} :: z in steps' ==> StepShape(steps', z) by {
      forall z <- steps' ensures StepShape(steps', z) { SpawnStep(steps, steps', x, base, n, z); }
    }
    assert BranchOrdered(steps') by {
      forall a, b | a in steps' && b in steps' && a < b && SameBranch(steps'[a], steps'[b])
        ensures Follows(steps'[a], steps'[b], b)
      { SpawnOrdered(steps, steps', x, base, n, a, b); }
    }
    assert HeadsDistinct(steps') by {
      forall a, b | Siblings(steps', a, b)
        ensures steps'[a].ordinal != steps'[b].ordinal
      { SpawnHeads(steps, steps', x, base, n, a, b); }
    }
  }
}
