/**
 Reachability in the execution graph a flow's steps record. An edge leads from a step to the step its
 successor link names and to the steps that name it as predecessor; this module relates the steps reachable
 over such edges - what Fork prunes - to the nesting of cohorts.
 */
module Reach {
  import opened Rows
  import opened Transactions
  import opened Shape

  ghost predicate Edge(steps: map<nat, Step>, p: nat, z: nat) {
    p in steps && z in steps && (steps[z].pred == p || steps[p].succ == z)
  }

  /** z can be reached from x over one or more edges. (Edges lead to higher ids.) */
  ghost predicate Reaches(steps: map<nat, Step>, x: nat, z: nat)
    decreases z
  {
    exists p: nat :: Hop(steps, p, z) && p < z && (p == x || Reaches(steps, x, p))
  }

  ghost predicate Hop(steps: map<nat, Step>, p: nat, z: nat) {
    Edge(steps, p, z)
  }

  lemma {:induction false} ReachesUp(steps: map<nat, Step>, x: nat, z: nat)
    requires Shaped(steps) && Reaches(steps, x, z)
    ensures x < z && x in steps && z in steps && steps[x].flow == steps[z].flow
    decreases z
  {
    var p: nat :| Hop(steps, p, z) && p < z && (p == x || Reaches(steps, x, p));
    assert StepShape(steps, z) && StepShape(steps, p);
    if p != x { ReachesUp(steps, x, p); }
  }

  lemma {:induction false} ReachesOn(steps: map<nat, Step>, x: nat, y: nat, z: nat)
    requires Reaches(steps, x, y) && Reaches(steps, y, z)
    ensures Reaches(steps, x, z)
    decreases z
  {
    var p: nat :| Hop(steps, p, z) && p < z && (p == y || Reaches(steps, y, p));
    if p != y { ReachesOn(steps, x, y, p); }
    assert Hop(steps, p, z);
  }

  lemma OneHop(steps: map<nat, Step>, p: nat, z: nat)
    requires p < z && Edge(steps, p, z)
    ensures Reaches(steps, p, z)
  {
    assert Hop(steps, p, z);
  }

  /**
   The three kinds of edge: from a spawn to the head of a branch, from a step to its continuation, from a
   member to its cohort's fan-in.
   */
  ghost predicate Link(steps: map<nat, Step>, p: nat, z: nat) {
    && p in steps && z in steps && p < z && steps[p].flow == steps[z].flow
    && (|| (steps[z].lineage == p && steps[z].head == z)
        || steps[p].next == z
        || (steps[p].lineage != 0 && steps[p].lineage in steps && steps[steps[p].lineage].next == z))
  }

  lemma EdgesAreLinks(steps: map<nat, Step>, p: nat, z: nat)
    requires Shaped(steps) && 0 !in steps && Edge(steps, p, z)
    ensures Link(steps, p, z)
  {
    assert StepShape(steps, z) && StepShape(steps, p);
  }

  // ----- Nesting

  /** Step y lies inside the cohort of s, at any depth. */
  ghost predicate Within(steps: map<nat, Step>, y: nat, s: nat)
    decreases y
  {
    y in steps && 0 < steps[y].lineage < y && (steps[y].lineage == s || Within(steps, steps[y].lineage, s))
  }

  lemma {:induction false} WithinDown(steps: map<nat, Step>, y: nat, s: nat)
    requires Shaped(steps) && Within(steps, y, s)
    ensures 0 < s < y && s in steps && steps[s].flow == steps[y].flow && steps[s].spawned
    decreases y
  {
    assert StepShape(steps, y);
    if steps[y].lineage != s { WithinDown(steps, steps[y].lineage, s); }
  }

  lemma {:induction false} WithinOn(steps: map<nat, Step>, y: nat, s: nat, t: nat)
    requires Within(steps, y, s) && Within(steps, s, t)
    ensures Within(steps, y, t)
    decreases y
  {
    if steps[y].lineage != s { WithinOn(steps, steps[y].lineage, s, t); }
  }

  /** Two cohorts around one step: the one with the higher id lies inside the other. */
  lemma {:induction false} AroundOrdered(steps: map<nat, Step>, y: nat, s: nat, t: nat)
    requires Shaped(steps) && Within(steps, y, s) && Within(steps, y, t) && s < t
    ensures Within(steps, t, s)
    decreases y
  {
    var l := steps[y].lineage;
    if l == t {
    } else if l == s {
      WithinDown(steps, l, t);
      assert false;
    } else {
      AroundOrdered(steps, l, s, t);
    }
  }

  /** The member of s's cohort (of the trunk when s is 0) that y is, or lies inside of. */
  ghost function MemberOf(steps: map<nat, Step>, y: nat, s: nat): (m: nat)
    requires LineageDown(steps) && y in steps && (s == 0 || Within(steps, y, s))
    ensures m in steps && steps[m].lineage == s && (m == y || Within(steps, y, m))
    decreases y
  {
    if steps[y].lineage == s then y else MemberOf(steps, steps[y].lineage, s)
  }

  lemma {:induction false} MemberIs(steps: map<nat, Step>, y: nat, s: nat, m: nat)
    requires LineageDown(steps) && m in steps && steps[m].lineage == s && s != m && (m == y || Within(steps, y, m))
    ensures y in steps && (s == 0 || Within(steps, y, s)) && MemberOf(steps, y, s) == m
    decreases y
  {
    if m != y {
      if steps[y].lineage == s {
        if steps[y].lineage == m { assert false; }
        WithinLower(steps, steps[y].lineage, m);
        assert false;
      }
      MemberIs(steps, steps[y].lineage, s, m);
    }
  }

  lemma {:induction false} WithinLower(steps: map<nat, Step>, y: nat, s: nat)
    requires Within(steps, y, s)
    ensures s < y
    decreases y
  {
    if steps[y].lineage != s { WithinLower(steps, steps[y].lineage, s); }
  }

  /** The branch of s's cohort that holds y starts at h. */
  ghost predicate InBranch(steps: map<nat, Step>, y: nat, s: nat, h: nat) {
    LineageDown(steps) && Within(steps, y, s) && steps[MemberOf(steps, y, s)].head == h
  }

  // ----- Forward

  /** Steps of one branch reach one another in order, and a spawn reaches everything inside its cohort. */
  lemma {:induction false} BranchReaches(steps: map<nat, Step>, y: nat, z: nat)
    requires Shaped(steps) && 0 !in steps && y in steps && z in steps && y < z && SameBranch(steps[y], steps[z])
    ensures Reaches(steps, y, z)
    decreases z, 0
  {
    assert StepShape(steps, z) && StepShape(steps, y);
    var p := steps[z].pred;
    assert Follows(steps[y], steps[z], z);
    OneHop(steps, p, z);
    EdgesAreLinks(steps, p, z);
    if steps[z].lineage == p {
      assert false;
    } else if steps[p].next == z {
      assert StepShape(steps, p);
      if p < y {
        assert SameBranch(steps[p], steps[y]);
        assert false;
      } else if y < p {
        BranchReaches(steps, y, p);
        ReachesOn(steps, y, p, z);
      }
    } else {
      var c := steps[p].lineage;
      assert StepShape(steps, c) && StepShape(steps, p);
      if c < y {
        assert SameBranch(steps[c], steps[y]);
        assert false;
      }
      SpawnReaches(steps, c, p);
      ReachesOn(steps, c, p, z);
      if y < c {
        BranchReaches(steps, y, c);
        ReachesOn(steps, y, c, z);
      }
    }
  }

  lemma {:induction false} SpawnReaches(steps: map<nat, Step>, c: nat, y: nat)
    requires Shaped(steps) && 0 !in steps && y in steps && steps[y].lineage == c != 0
    ensures Reaches(steps, c, y)
    decreases y, 1
  {
    assert StepShape(steps, y);
    var h := steps[y].head;
    assert StepShape(steps, h);
    OneHop(steps, c, h);
    if h != y {
      BranchReaches(steps, h, y);
      ReachesOn(steps, c, h, y);
    }
  }
}
