/**
 Trees of flows. Every flow carries the id of its root beside the link to its parent, so that one scan finds a
 whole tree and a walk in memory finds any part of it. The denormalised root is always right, the walks find
 exactly the flows they are meant to, and removing trees or parts of trees never leaves a child behind.
 */
module FlowTrees {
  /** `parent` and `caller` are the surgraph links (flow and step), 0 for a root. */
  datatype Node = Node(parent: nat, caller: nat, root: nat, terminal: bool)

  /** The denormalised root agrees with the parent links, and a child is younger than its parent. */
  ghost predicate NodeOk(flows: map<nat, Node>, f: nat)
    requires f in flows
  {
    var n := flows[f];
    if n.parent == 0 then n.root == f
    else n.parent < f && n.parent in flows && n.root == flows[n.parent].root
  }

  ghost predicate Rooted(flows: map<nat, Node>) {
    0 !in flows && forall f {:trigger NodeOk(flows, f)} :: f in flows ==> NodeOk(flows, f)
  }

  /** The root, found by walking the parent links. */
  function Top(flows: map<nat, Node>, f: nat): nat
    decreases f
  {
    if f in flows && 0 != flows[f].parent < f then Top(flows, flows[f].parent) else f
  }

  /** root_flow_id is the root of the parent chain. */
  lemma {:induction false} RootIsTop(flows: map<nat, Node>, f: nat)
    requires Rooted(flows) && f in flows
    ensures flows[f].root == Top(flows, f) && Top(flows, f) in flows && flows[Top(flows, f)].parent == 0
    decreases f
  {
    assert NodeOk(flows, f);
    if flows[f].parent != 0 { RootIsTop(flows, flows[f].parent); }
  }

  // ----- Below and live below

  /** g lies below f: its parent chain passes f. With `live`, only over flows that have not stopped, g included. */
  predicate Below(flows: map<nat, Node>, g: nat, f: nat, live: bool)
    decreases g
  {
    g in flows && 0 < flows[g].parent < g && (live ==> !flows[g].terminal)
    && (flows[g].parent == f || Below(flows, flows[g].parent, f, live))
  }

  lemma {:induction false} BelowSameRoot(flows: map<nat, Node>, g: nat, f: nat, live: bool)
    requires Rooted(flows) && f in flows && Below(flows, g, f, live)
    ensures flows[g].root == flows[f].root && f < g
    decreases g
  {
    assert NodeOk(flows, g);
    if flows[g].parent != f { BelowSameRoot(flows, flows[g].parent, f, live); }
  }

  /** What a walk from f may collect: the children of f and of everything collected. */
  ghost predicate ClosedBelow(flows: map<nat, Node>, f: nat, live: bool, found: set<nat>) {
    forall g {:trigger flows[g].parent} :: g in flows ==>
      (flows[g].parent != 0 && (flows[g].parent == f || flows[g].parent in found) && (live ==> !flows[g].terminal) ==> g in found)
  }

  lemma {:induction false} ClosedHasAll(flows: map<nat, Node>, f: nat, live: bool, found: set<nat>, g: nat)
    requires ClosedBelow(flows, f, live, found) && Below(flows, g, f, live)
    ensures g in found
    decreases g
  {
    if flows[g].parent != f { ClosedHasAll(flows, f, live, found, flows[g].parent); }
  }

  /** The children of cur among the scanned rows (the flows of one tree), in row order. */
  method Children(flows: map<nat, Node>, rows: seq<nat>, cur: nat, live: bool) returns (kids: seq<nat>)
    requires (forall r <- rows :: r in flows) && forall i, j :: 0 <= i < j < |rows| ==> rows[i] != rows[j]
    requires cur != 0
    ensures forall k :: k in kids <==> k in rows && flows[k].parent == cur && (live ==> !flows[k].terminal)
    ensures forall i, j :: 0 <= i < j < |kids| ==> kids[i] != kids[j]
  {
    kids := [];
    for i := 0 to |rows|
      invariant forall k :: k in kids <==> k in rows[..i] && flows[k].parent == cur && (live ==> !flows[k].terminal)
      invariant forall a, b :: 0 <= a < b < |kids| ==> kids[a] != kids[b]
    {
      var r := rows[i];
      TakeMore(rows, i);
      if flows[r].parent == cur && (!live || !flows[r].terminal) { kids := kids + [r]; }
    }
    assert rows[..|rows|] == rows;
  }

  lemma TakeMore(rows: seq<nat>, i: nat)
    requires i < |rows| && forall a, b :: 0 <= a < b < |rows| ==> rows[a] != rows[b]
    ensures rows[..i + 1] == rows[..i] + [rows[i]] && rows[i] !in rows[..i] && rows[i] in rows
  {
  }

  /** Where a breadth-first walk stands: `queue` is to do, `done` is done, both below f and once each. */
  ghost predicate Walking(flows: map<nat, Node>, f: nat, live: bool, found: seq<nat>, queue: seq<nat>, done: set<nat>) {
    && (forall g <- found :: Below(flows, g, f, live))
    && (forall i, j :: 0 <= i < j < |found| ==> found[i] != found[j])
    && (forall q <- queue :: q !in done && (q == f || q in found))
    && (forall i, j :: 0 <= i < j < |queue| ==> queue[i] != queue[j])
    && (forall g :: g == f || g in found ==> g in done || g in queue)
    && (forall d <- done :: d == f || d in found)
    && (forall g <- found :: g in flows && flows[g].parent in done)
    && f !in found
  }

  /** No child of a done flow is missing. */
  ghost predicate KidsFound(flows: map<nat, Node>, live: bool, done: set<nat>, found: seq<nat>) {
    forall k {:trigger flows[k].parent} :: k in flows ==> (flows[k].parent in done && (live ==> !flows[k].terminal) ==> k in found)
  }

  lemma WalkOn(flows: map<nat, Node>, f: nat, live: bool, found: seq<nat>, queue: seq<nat>, done: set<nat>, kids: seq<nat>)
    requires Rooted(flows) && f in flows && queue != [] && Walking(flows, f, live, found, queue, done)
    requires forall k :: k in kids <==> k in flows && flows[k].parent == queue[0] && (live ==> !flows[k].terminal)
    requires forall i, j :: 0 <= i < j < |kids| ==> kids[i] != kids[j]
    ensures Walking(flows, f, live, found + kids, queue[1..] + kids, done + {queue[0]})
  {
    var cur := queue[0];
    assert cur in queue;
    forall k | k in kids ensures Below(flows, k, f, live) && k !in found && k !in queue && k !in done && k != f && k != cur {
      assert NodeOk(flows, k);
      assert flows[k].parent == cur;
      if cur != f { BelowSameRoot(flows, cur, f, live); }
    }
    forall q | q in queue[1..] ensures q in queue && q != cur {}
    Joined(found, kids);
    Joined(queue[1..], kids);
  }

  lemma KidsAdded(flows: map<nat, Node>, live: bool, done: set<nat>, found: seq<nat>, cur: nat, kids: seq<nat>)
    requires KidsFound(flows, live, done, found) && cur in flows && cur !in done
    requires forall k :: k in kids <==> k in flows && flows[k].parent == cur && (live ==> !flows[k].terminal)
    ensures KidsFound(flows, live, done + {cur}, found + kids)
    ensures |flows.Keys - (done + {cur})| < |flows.Keys - done|
  {
    assert flows.Keys - (done + {cur}) == flows.Keys - done - {cur};
  }

  lemma Joined(a: seq<nat>, b: seq<nat>)
    requires forall i, j :: 0 <= i < j < |a| ==> a[i] != a[j]
    requires forall i, j :: 0 <= i < j < |b| ==> b[i] != b[j]
    requires forall x <- b :: x !in a
    ensures forall i, j :: 0 <= i < j < |a + b| ==> (a + b)[i] != (a + b)[j]
  {
    forall i, j | 0 <= i < j < |a + b| ensures (a + b)[i] != (a + b)[j] {
      if i < |a| <= j { assert b[j - |a|] in b && a[i] in a; }
    }
  }

  /** The scan by root id misses no child. */
  lemma KidsInScan(flows: map<nat, Node>, rows: seq<nat>, f: nat, cur: nat, live: bool, kids: seq<nat>)
    requires Rooted(flows) && cur in flows && cur != 0 && f in flows && flows[cur].root == flows[f].root
    requires forall g :: g in rows <==> g in flows && flows[g].root == flows[f].root
    requires forall k :: k in kids <==> k in rows && flows[k].parent == cur && (live ==> !flows[k].terminal)
    ensures forall k :: k in kids <==> k in flows && flows[k].parent == cur && (live ==> !flows[k].terminal)
  {
    forall k | k in flows && flows[k].parent == cur ensures k in rows { assert NodeOk(flows, k); }
  }

  lemma WalkEnds(flows: map<nat, Node>, f: nat, live: bool, found: seq<nat>, done: set<nat>)
    requires Walking(flows, f, live, found, [], done)
    requires KidsFound(flows, live, done, found)
    ensures forall g :: g in found <==> Below(flows, g, f, live)
  {
    var all := set g | g in found;
    forall g | g in flows && flows[g].parent != 0 && (flows[g].parent == f || flows[g].parent in all) && (live ==> !flows[g].terminal)
      ensures g in all
    {
    }
    forall g | Below(flows, g, f, live) ensures g in found { ClosedHasAll(flows, f, live, all, g); }
  }

  /**
   allDescendantSubgraphFlows, and with `live` allSubgraphFlows: one scan by root id, then a breadth-first walk
   over the parent links. It finds exactly the flows below f (over live flows only), each once.
   */
  method Descendants(flows: map<nat, Node>, rows: seq<nat>, f: nat, live: bool) returns (found: seq<nat>)
    requires Rooted(flows) && f in flows
    requires (forall g :: g in rows <==> g in flows && flows[g].root == flows[f].root)
    requires forall i, j :: 0 <= i < j < |rows| ==> rows[i] != rows[j]
    ensures forall g :: g in found <==> Below(flows, g, f, live)
    ensures forall i, j :: 0 <= i < j < |found| ==> found[i] != found[j]
  {
    found := [];
    var queue := [f];
    ghost var done: set<nat> := {};
    while queue != []
      invariant Walking(flows, f, live, found, queue, done)
      invariant KidsFound(flows, live, done, found)
      decreases |flows.Keys - done|
    {
      var cur := queue[0];
      assert cur in queue;
      if cur != f { BelowSameRoot(flows, cur, f, live); }
      var kids := Children(flows, rows, cur, live);
      KidsInScan(flows, rows, f, cur, live, kids);
      WalkOn(flows, f, live, found, queue, done, kids);
      KidsAdded(flows, live, done, found, cur, kids);
      found := found + kids;
      queue := queue[1..] + kids;
      done := done + {cur};
    }
    WalkEnds(flows, f, live, found, done);
  }

  // ----- Removing trees

  /** Removing a set that holds every child of its members leaves no child without its parent. */
  lemma RemoveWhole(flows: map<nat, Node>, gone: set<nat>)
    requires Rooted(flows) && forall g {:trigger flows[g].parent} :: g in flows && flows[g].parent in gone ==> g in gone
    ensures Rooted(flows - gone)
  {
    var flows' := flows - gone;
    forall f | f in flows' ensures NodeOk(flows', f) { assert NodeOk(flows, f); }
  }

  class Forest {
    var flows: map<nat, Node>
    var nextFlow: nat

    ghost predicate Valid()
      reads this
    {
      Rooted(flows) && 0 < nextFlow && forall f <- flows :: f < nextFlow
    }

    constructor ()
      ensures Valid() && flows == map[]
    {
      flows, nextFlow := map[], 1;
    }

    /** insertFlowTx: a top-level flow is its own root, a child takes its parent's. */
    method Create(parent: nat, caller: nat) returns (f: nat)
      requires Valid() && (parent == 0 || parent in flows)
      modifies this
      ensures Valid() && f == old(nextFlow) && f !in old(flows)
      ensures flows.Keys == old(flows).Keys + {f} && (forall g <- old(flows) :: flows[g] == old(flows)[g])
      ensures flows[f].parent == parent && flows[f].root == if parent == 0 then f else old(flows)[parent].root
    {
      f := nextFlow;
      nextFlow := nextFlow + 1;
      var rootFlow := if parent == 0 then 0 else flows[parent].root;
      ghost var before := flows;
      flows := flows[f := Node(parent, caller, if rootFlow == 0 then f else rootFlow, false)];
      if parent != 0 { RootIsTop(before, parent); }
      forall g | g in flows ensures NodeOk(flows, g) {
        if g != f { assert NodeOk(before, g); }
      }
    }

    /** The reaper: trees go by their root id, in one statement. */
    method ReapTrees(roots: set<nat>)
      requires Valid() && forall r <- roots :: r in flows ==> flows[r].parent == 0
      modifies this
      ensures Valid()
      ensures forall g :: g in flows <==> g in old(flows) && Top(old(flows), g) !in roots
      ensures forall g <- flows :: flows[g] == old(flows)[g]
    {
      ghost var before := flows;
      var gone := set f | f in flows && flows[f].root in roots;
      forall g | g in flows && flows[g].parent in gone ensures g in gone {
        assert NodeOk(flows, g) && 0 !in flows;
      }
      RemoveWhole(flows, gone);
      flows := flows - gone;
      forall g | g in before ensures g in flows <==> Top(before, g) !in roots { RootIsTop(before, g); }
    }

    /** A caller's retry removes its earlier children, level by level, each with everything below it. */
    method DeleteSubgraphsOf(caller: nat)
      requires Valid()
      modifies this
      ensures Valid()
      ensures forall g :: g in flows <==> g in old(flows) && !UnderCaller(old(flows), g, caller)
      ensures forall g <- flows :: flows[g] == old(flows)[g]
    {
      ghost var before := flows;
      var rootChildren := set f | f in flows && flows[f].caller == caller;
      var all := CollectLevels(rootChildren, caller);
      forall g | g in flows && flows[g].parent in all ensures g in all {
        assert NodeOk(flows, g);
      }
      RemoveWhole(flows, all);
      flows := flows - all;
    }

    method CollectLevels(rootChildren: set<nat>, ghost caller: nat) returns (all: set<nat>)
      requires Valid() && rootChildren == set f | f in flows && flows[f].caller == caller
      ensures forall g :: g in all <==> UnderCaller(flows, g, caller)
    {
      all := rootChildren;
      var current := rootChildren;
      // A nested flow is younger than its parent, so the levels run out.
      ghost var low := 0;
      while current != {}
        invariant current <= all <= flows.Keys && forall c <- current :: low <= c
        invariant forall g <- all :: UnderCaller(flows, g, caller)
        invariant forall g <- flows | flows[g].caller == caller :: g in all
        invariant forall g <- flows | flows[g].parent in all - current :: g in all
        decreases nextFlow - low
      {
        var nested := set f | f in flows && flows[f].parent in current;
        forall g | g in nested ensures UnderCaller(flows, g, caller) && low < g { assert NodeOk(flows, g); }
        all := all + nested;
        current := nested;
        low := low + 1;
      }
      forall g | UnderCaller(flows, g, caller) ensures g in all { LevelsHaveAll(flows, caller, all, g); }
    }

    // ----- The orphan sweep

    /** terminateSubtree: f and the live flows below it stop. */
    method TerminateSubtree(f: nat)
      requires Valid() && f in flows
      modifies this`flows
      ensures Valid() && flows.Keys == old(flows).Keys
      ensures forall g <- flows :: flows[g] == old(flows)[g].(terminal := old(flows)[g].terminal || g == f || Below(old(flows), g, f, true))
    {
      ghost var before := flows;
      var rows := RowsOf(f);
      var descendants := Descendants(flows, rows, f, true);
      flows := map g | g in flows :: if g == f || g in descendants then flows[g].(terminal := true) else flows[g];
      forall g | g in flows ensures NodeOk(flows, g) { assert NodeOk(before, g); }
    }

    method RowsOf(f: nat) returns (rows: seq<nat>)
      requires f in flows
      ensures forall g :: g in rows <==> g in flows && flows[g].root == flows[f].root
      ensures forall i, j :: 0 <= i < j < |rows| ==> rows[i] != rows[j]
    {
      rows := [];
      var todo := set g | g in flows && flows[g].root == flows[f].root;
      ghost var all := todo;
      while todo != {}
        invariant todo <= all && forall g :: g in rows <==> g in all - todo
        invariant forall i, j :: 0 <= i < j < |rows| ==> rows[i] != rows[j]
      {
        var g :| g in todo;
        todo := todo - {g};
        rows := rows + [g];
      }
    }

    /** A pass over the children that outlived their parents, hit by hit. */
    method RecoverOrphans(hits: seq<nat>)
      requires Valid() && forall h :: h in hits <==> Orphan(flows, h)
      modifies this`flows
      ensures Valid() && flows.Keys == old(flows).Keys
      ensures forall g :: !Orphan(flows, g)
      ensures forall g <- flows :: flows[g] == old(flows)[g].(terminal := old(flows)[g].terminal || Caught(old(flows), hits, g))
    {
      ghost var first := flows;
      assert hits[..0] == [];
      for i := 0 to |hits|
        invariant Valid() && flows.Keys == first.Keys
        invariant forall g :: Orphan(flows, g) ==> g in hits[i..]
        invariant forall g <- flows :: flows[g] == first[g].(terminal := first[g].terminal || Caught(first, hits[..i], g))
      {
        var h := hits[i];
        assert hits[i..] == [h] + hits[i + 1..] && hits[..i + 1] == hits[..i] + [h];
        assert h in hits && Orphan(first, h);
        ghost var before := flows;
        if !flows[h].terminal {
          TerminateSubtree(h);
          forall g | Orphan(flows, g) ensures g in hits[i + 1..] { NoNewOrphan(before, flows, h, g); }
        }
        forall g | g in flows ensures flows[g] == first[g].(terminal := first[g].terminal || Caught(first, hits[..i + 1], g)) {
          CaughtMore(first, before, hits[..i], h, g);
        }
      }
      assert hits[..|hits|] == hits;
    }
  }

  /** g is one of the hits, or lies below one over live flows. */
  ghost predicate Caught(flows: map<nat, Node>, hits: seq<nat>, g: nat) {
    exists h :: h in hits && CaughtBy(flows, h, g)
  }

  predicate CaughtBy(flows: map<nat, Node>, h: nat, g: nat) {
    g == h || Below(flows, g, h, true)
  }

  lemma {:induction false} CaughtOn(flows: map<nat, Node>, g: nat, m: nat, h: nat)
    requires CaughtBy(flows, m, g) && CaughtBy(flows, h, m)
    ensures CaughtBy(flows, h, g)
    decreases g
  {
    if g != m && flows[g].parent != m { CaughtOn(flows, flows[g].parent, m, h); }
  }

  lemma CaughtDown(flows: map<nat, Node>, hits: seq<nat>, p: nat, g: nat)
    requires g in flows && !flows[g].terminal && 0 < flows[g].parent == p < g && Caught(flows, hits, p)
    ensures Caught(flows, hits, g)
  {
    var m :| m in hits && CaughtBy(flows, m, p);
    assert CaughtBy(flows, p, g);
    CaughtOn(flows, g, p, m);
  }

  /** A subtree that an earlier hit has thinned out is, with what that hit caught, the subtree it was. */
  lemma {:induction false} BelowThinned(first: map<nat, Node>, before: map<nat, Node>, done: seq<nat>, h: nat, g: nat)
    requires before.Keys == first.Keys && forall f <- before :: before[f] == first[f].(terminal := first[f].terminal || Caught(first, done, f))
    ensures Below(before, g, h, true) ==> Below(first, g, h, true)
    ensures Below(first, g, h, true) && g in before && !before[g].terminal ==> Below(before, g, h, true)
    decreases g
  {
    if g in first && 0 < first[g].parent < g {
      var p := first[g].parent;
      BelowThinned(first, before, done, h, p);
      if !first[g].terminal && Caught(first, done, p) { CaughtDown(first, done, p, g); }
      assert g in before && before[g].parent == p && before[g].terminal == (first[g].terminal || Caught(first, done, g));
      assert Below(first, p, h, true) ==> p in first && p in before && !first[p].terminal;
      assert p in first ==> before[p].terminal == (first[p].terminal || Caught(first, done, p));
    }
  }

  lemma CaughtMore(first: map<nat, Node>, before: map<nat, Node>, done: seq<nat>, h: nat, g: nat)
    requires before.Keys == first.Keys && forall f <- before :: before[f] == first[f].(terminal := first[f].terminal || Caught(first, done, f))
    requires g in first && h in first && !first[h].terminal
    ensures first[g].terminal || Caught(first, done + [h], g)
            <==> before[g].terminal || (!before[h].terminal && (g == h || Below(before, g, h, true)))
  {
    BelowThinned(first, before, done, h, g);
    if Caught(first, done + [h], g) {
      var m :| m in done + [h] && CaughtBy(first, m, g);
      if m in done {
        assert Caught(first, done, g);
      } else if before[h].terminal {
        var k :| k in done && CaughtBy(first, k, h);
        CaughtOn(first, g, h, k);
        assert Caught(first, done, g);
      }
    }
    if Caught(first, done, g) {
      var m :| m in done && CaughtBy(first, m, g);
      assert m in done + [h];
    }
    if g == h || Below(first, g, h, true) { assert h in done + [h] && CaughtBy(first, h, g); }
  }

  /** A flow created for this caller step, or below one. */
  predicate UnderCaller(flows: map<nat, Node>, g: nat, caller: nat)
    decreases g
  {
    g in flows && (flows[g].caller == caller || (0 < flows[g].parent < g && UnderCaller(flows, flows[g].parent, caller)))
  }

  lemma {:induction false} LevelsHaveAll(flows: map<nat, Node>, caller: nat, all: set<nat>, g: nat)
    requires UnderCaller(flows, g, caller)
    requires forall g <- flows | flows[g].caller == caller :: g in all
    requires forall g <- flows | flows[g].parent in all :: g in all
    ensures g in all
    decreases g
  {
    if flows[g].caller != caller { LevelsHaveAll(flows, caller, all, flows[g].parent); }
  }

  /** A live flow whose parent has stopped. */
  predicate Orphan(flows: map<nat, Node>, g: nat) {
    g in flows && !flows[g].terminal && flows[g].parent != 0 && flows[g].parent in flows && flows[flows[g].parent].terminal
  }

  /** Stopping a live subtree as a whole orphans nobody: whoever is an orphan afterwards was one before. */
  lemma NoNewOrphan(before: map<nat, Node>, after: map<nat, Node>, h: nat, g: nat)
    requires Rooted(before) && h in before && after.Keys == before.Keys && Orphan(after, g)
    requires forall f <- after :: after[f] == before[f].(terminal := before[f].terminal || f == h || Below(before, f, h, true))
    ensures g != h && Orphan(before, g)
  {
    assert NodeOk(before, g);
  }

  /** After a pass no live flow has a stopped flow anywhere above it. */
  lemma {:induction false} LiveAllTheWayUp(flows: map<nat, Node>, g: nat, a: nat)
    requires Rooted(flows) && (forall f :: !Orphan(flows, f)) && g in flows && !flows[g].terminal
    requires Below(flows, g, a, false) && a in flows
    ensures !flows[a].terminal
    decreases g
  {
    assert NodeOk(flows, g);
    assert !Orphan(flows, g);
    if flows[g].parent != a { LiveAllTheWayUp(flows, flows[g].parent, a); }
  }
}
