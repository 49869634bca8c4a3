/**
 Fork gives every row of its clone a new id, in the order of the old ones, and maps every link. A strictly
 increasing renaming changes neither the shape of the graph nor its ledger.
 */
module Renaming {
  import opened Rows
  import opened Transactions
  import opened Shape
  import opened Ledger

  /** The id map, defined for every row of t, keeps order and hands out non-zero ids. */
  ghost predicate Increasing(t: map<nat, Step>, m: map<nat, nat>) {
    && m.Keys == t.Keys && 0 !in t
    && (forall a {:trigger m[a]} :: a in m ==> 0 < m[a])
    && (forall a, b {:trigger m[a], m[b]} :: a in m && b in m && a < b ==> m[a] < m[b])
  }

  /** The new id of a row, 0 for a row that was not copied (and for no row). */
  function Id(m: map<nat, nat>, a: nat): nat {
    if a in m then m[a] else 0
  }

  function RenamedRow(r: Step, m: map<nat, nat>, g: nat): Step {
    r.(flow := g, lineage := Id(m, r.lineage), pred := Id(m, r.pred), succ := Id(m, r.succ),
       head := Id(m, r.head), next := Id(m, r.next))
  }

  /** t' holds t's rows under their new ids, and nothing else. */
  ghost predicate Renames(t: map<nat, Step>, t': map<nat, Step>, m: map<nat, nat>, g: nat) {
    && Increasing(t, m)
    && (forall y {:trigger m[y]} {:trigger t[y]} :: y in t ==> m[y] in t' && t'[m[y]] == RenamedRow(t[y], m, g))
    && forall z {:trigger z in t'} :: z in t' ==> exists y :: y in t && m[y] == z
  }

  ghost function Renamed(t: map<nat, Step>, m: map<nat, nat>, g: nat): (t': map<nat, Step>)
    requires Increasing(t, m)
    ensures Renames(t, t', m, g)
  {
    map y | y in t :: m[y] := RenamedRow(t[y], m, g)
  }

  lemma OldId(t: map<nat, Step>, t': map<nat, Step>, m: map<nat, nat>, g: nat, z: nat) returns (y: nat)
    requires Renames(t, t', m, g) && z in t'
    ensures y in t && m[y] == z
  {
    y :| y in t && m[y] == z;
  }

  /** Order and equality of new ids are those of the old ones. */
  lemma SameOrder(t: map<nat, Step>, m: map<nat, nat>, a: nat, b: nat)
    requires Increasing(t, m) && (a == 0 || a in t) && (b == 0 || b in t)
    ensures a < b <==> Id(m, a) < Id(m, b)
    ensures a == b <==> Id(m, a) == Id(m, b)
  {
  }

  /** Links of t stay inside t. */
  ghost predicate LinksInside(t: map<nat, Step>) {
    forall y {:trigger t[y].lineage} :: y in t ==>
      var r := t[y];
      && (r.lineage == 0 || r.lineage in t) && (r.pred == 0 || r.pred in t) && (r.head == 0 || r.head in t)
      && (r.next == 0 || r.next in t) && (r.succ == 0 || r.succ in t)
  }

  lemma ShapedLinksInside(t: map<nat, Step>)
    requires Shaped(t)
    ensures LinksInside(t)
  {
    forall y | y in t
      ensures var r := t[y];
              && (r.lineage == 0 || r.lineage in t) && (r.pred == 0 || r.pred in t) && (r.head == 0 || r.head in t)
              && (r.next == 0 || r.next in t) && (r.succ == 0 || r.succ in t)
    {
      assert StepShape(t, y);
    }
  }

  lemma RenamedLineage(t: map<nat, Step>, t': map<nat, Step>, m: map<nat, nat>, g: nat, y: nat)
    requires Renames(t, t', m, g) && y in t && StepShape(t, y)
    ensures LineageOk(t', m[y]) && OwnOk(t'[m[y]])
  {
    SameOrder(t, m, t[y].lineage, y);
  }

  lemma RenamedHead(t: map<nat, Step>, t': map<nat, Step>, m: map<nat, nat>, g: nat, y: nat)
    requires Renames(t, t', m, g) && y in t && StepShape(t, y)
    ensures HeadOk(t', m[y])
  {
    var r := t[y];
    assert t'[m[y]] == RenamedRow(r, m, g);
    HeadIds(t, m, r.head, y);
    HeadIds(t, m, r.pred, r.lineage);
    HeadIds(t, m, r.lineage, 0);
    HeadIds(t, m, r.head, 0);
    if r.head != 0 {
      assert t'[m[r.head]] == RenamedRow(t[r.head], m, g);
    }
  }

  lemma HeadIds(t: map<nat, Step>, m: map<nat, nat>, a: nat, b: nat)
    requires Increasing(t, m) && (a == 0 || a in t) && (b == 0 || b in t)
    ensures (a <= b <==> Id(m, a) <= Id(m, b)) && (a == b <==> Id(m, a) == Id(m, b)) && (Id(m, a) == 0 <==> a == 0)
    ensures a in t ==> Id(m, a) == m[a]
  {
  }

  lemma RenamedPred(t: map<nat, Step>, t': map<nat, Step>, m: map<nat, nat>, g: nat, y: nat)
    requires Renames(t, t', m, g) && y in t && StepShape(t, y) && (t[y].pred in t ==> StepShape(t, t[y].pred))
    ensures PredOk(t', m[y])
  {
    var p := t[y].pred;
    SameOrder(t, m, p, y);
    SameOrder(t, m, p, 0);
    if p != 0 {
      assert t'[m[p]] == RenamedRow(t[p], m, g) && t'[m[y]] == RenamedRow(t[y], m, g);
      if t[p].next != y && !(t[y].lineage == p && t[y].head == y) {
        assert t'[m[t[p].lineage]].next == m[y];
      }
    }
  }

  lemma RenamedNext(t: map<nat, Step>, t': map<nat, Step>, m: map<nat, nat>, g: nat, y: nat)
    requires Renames(t, t', m, g) && y in t && StepShape(t, y)
    ensures NextOk(t', m[y])
  {
    SameOrder(t, m, y, t[y].next);
  }

  lemma RenamedSucc(t: map<nat, Step>, t': map<nat, Step>, m: map<nat, nat>, g: nat, y: nat)
    requires Renames(t, t', m, g) && y in t && StepShape(t, y)
    ensures SuccOk(t', m[y])
  {
    var n := t[y].succ;
    SameOrder(t, m, y, n);
    if n != 0 {
      assert t'[m[n]] == RenamedRow(t[n], m, g) && t'[m[y]] == RenamedRow(t[y], m, g);
      if t[y].next != n && !(t[n].lineage == y && t[n].head == n) {
        assert t'[m[t[y].lineage]].next == m[n];
      }
    }
  }

  lemma RenamedExit(t: map<nat, Step>, t': map<nat, Step>, m: map<nat, nat>, g: nat, y: nat)
    requires Renames(t, t', m, g) && LinksInside(t) && y in t && StepShape(t, y)
    ensures ExitOk(t', m[y])
  {
    var r := t[y];
    SameOrder(t, m, r.next, 0);
    SameOrder(t, m, r.lineage, 0);
    if r.lineage != 0 {
      assert t[r.lineage].lineage == t[r.lineage].lineage;
      SameOrder(t, m, t[r.lineage].next, 0);
    }
  }

  lemma RenamedBranches(t: map<nat, Step>, t': map<nat, Step>, m: map<nat, nat>, g: nat, a: nat, b: nat)
    requires Renames(t, t', m, g) && Shaped(t) && LinksInside(t) && a in t && b in t && m[a] < m[b]
    requires forall y <- t :: t[y].flow == t[a].flow
    requires SameBranch(t'[m[a]], t'[m[b]])
    ensures Follows(t'[m[a]], t'[m[b]], m[b])
  {
    assert t[a].lineage == t[a].lineage && t[b].lineage == t[b].lineage;
    SameOrder(t, m, t[a].lineage, t[b].lineage);
    SameOrder(t, m, t[a].head, t[b].head);
    assert a < b;
    assert SameBranch(t[a], t[b]);
    assert Follows(t[a], t[b], b);
    SameOrder(t, m, t[a].next, b);
    SameOrder(t, m, 0, t[a].next);
    SameOrder(t, m, 0, t[b].pred);
  }

  lemma RenamedSiblings(t: map<nat, Step>, t': map<nat, Step>, m: map<nat, nat>, g: nat, a: nat, b: nat)
    requires Renames(t, t', m, g) && Shaped(t) && LinksInside(t) && a in t && b in t
    requires Siblings(t', m[a], m[b])
    ensures Siblings(t, a, b)
  {
    assert t[a].lineage == t[a].lineage && t[b].lineage == t[b].lineage;
    SameOrder(t, m, t[a].lineage, t[b].lineage);
    SameOrder(t, m, t[a].lineage, 0);
    SameOrder(t, m, t[a].head, a);
    SameOrder(t, m, t[b].head, b);
  }

  lemma RenamedStep(t: map<nat, Step>, t': map<nat, Step>, m: map<nat, nat>, g: nat, y: nat)
    requires Renames(t, t', m, g) && LinksInside(t) && y in t && StepShape(t, y)
    requires t[y].pred in t ==> StepShape(t, t[y].pred)
    ensures StepShape(t', m[y])
  {
    RenamedLineage(t, t', m, g, y);
    RenamedHead(t, t', m, g, y);
    RenamedPred(t, t', m, g, y);
    RenamedNext(t, t', m, g, y);
    RenamedSucc(t, t', m, g, y);
    RenamedExit(t, t', m, g, y);
  }

  lemma RenamedShaped(t: map<nat, Step>, t': map<nat, Step>, m: map<nat, nat>, f: nat, g: nat)
    requires Renames(t, t', m, g) && Shaped(t) && forall y <- t :: t[y].flow == f
    ensures Shaped(t')
  {
    ShapedLinksInside(t);
    forall z | z in t' ensures StepShape(t', z) {
      var y := OldId(t, t', m, g, z);
      RenamedStep(t, t', m, g, y);
    }
    RenamedOrder(t, t', m, f, g);
  }

  lemma RenamedOrder(t: map<nat, Step>, t': map<nat, Step>, m: map<nat, nat>, f: nat, g: nat)
    requires Renames(t, t', m, g) && Shaped(t) && LinksInside(t) && forall y <- t :: t[y].flow == f
    ensures BranchOrdered(t') && HeadsDistinct(t')
  {
    forall a, b | a in t' && b in t' && a < b && SameBranch(t'[a], t'[b]) ensures Follows(t'[a], t'[b], b) {
      var a0 := OldId(t, t', m, g, a);
      var b0 := OldId(t, t', m, g, b);
      RenamedBranches(t, t', m, g, a0, b0);
    }
    forall a, b | Siblings(t', a, b) ensures t'[a].ordinal != t'[b].ordinal {
      var a0 := OldId(t, t', m, g, a);
      var b0 := OldId(t, t', m, g, b);
      RenamedSiblings(t, t', m, g, a0, b0);
    }
  }

  // ----- The ledger

  lemma {:induction false} ImageSize(m: map<nat, nat>, ys: set<nat>, zs: set<nat>)
    requires forall y <- ys :: y in m && m[y] in zs
    requires forall z <- zs :: exists y :: y in ys && y in m && m[y] == z
    requires forall a, b {:trigger m[a], m[b]} :: a in ys && b in ys && a in m && b in m && m[a] == m[b] ==> a == b
    ensures |ys| == |zs|
    decreases ys
  {
    if ys == {} {
      assert zs == {};
    } else {
      var y :| y in ys;
      forall z | z in zs - {m[y]} ensures exists w :: w in ys - {y} && w in m && m[w] == z {
        var w :| w in ys && w in m && m[w] == z;
        assert w in ys - {y};
      }
      ImageSize(m, ys - {y}, zs - {m[y]});
    }
  }

  lemma RenamedCohort(t: map<nat, Step>, t': map<nat, Step>, m: map<nat, nat>, f: nat, g: nat, s: nat, y: nat)
    requires Renames(t, t', m, g) && (s == 0 || s in t) && y in t && t[y].flow == f && (t[y].lineage == 0 || t[y].lineage in t)
    ensures InCohort(RenamedRow(t[y], m, g), g, Id(m, s)) <==> InCohort(t[y], f, s)
  {
    SameOrder(t, m, t[y].lineage, s);
  }

  /** Renaming carries a set of rows picked out by their role to the set of their new ids. */
  lemma RenamedSet(t: map<nat, Step>, t': map<nat, Step>, m: map<nat, nat>, g: nat, ys: set<nat>, zs: set<nat>)
    requires Renames(t, t', m, g)
    requires forall y <- ys :: y in t
    requires forall z <- zs :: z in t'
    requires forall y <- t :: y in ys <==> m[y] in zs
    ensures |ys| == |zs|
  {
    forall z | z in zs ensures exists y :: y in ys && y in m && m[y] == z {
      var y := OldId(t, t', m, g, z);
      assert y in ys;
    }
    forall a, b | a in ys && b in ys && a in m && b in m && m[a] == m[b] ensures a == b { SameOrder(t, m, a, b); }
    ImageSize(m, ys, zs);
  }

  /** Renaming carries each of the three sets of a cohort to that of the renamed cohort. */
  lemma RenamedSets(t: map<nat, Step>, t': map<nat, Step>, m: map<nat, nat>, f: nat, g: nat, s: nat)
    requires Renames(t, t', m, g) && LinksInside(t) && (forall y <- t :: t[y].flow == f) && (s == 0 || s in t)
    ensures && |Tokens(t', g, Id(m, s))| == |Tokens(t, f, s)|
            && |Losses(t', g, Id(m, s))| == |Losses(t, f, s)|
            && |SoftLosses(t', g, Id(m, s))| == |SoftLosses(t, f, s)|
  {
    var s' := Id(m, s);
    forall y | y in t
      ensures y in Tokens(t, f, s) <==> m[y] in Tokens(t', g, s')
      ensures y in Losses(t, f, s) <==> m[y] in Losses(t', g, s')
      ensures y in SoftLosses(t, f, s) <==> m[y] in SoftLosses(t', g, s')
    {
      assert t[y].lineage == t[y].lineage;
      RenamedCohort(t, t', m, f, g, s, y);
      RenamedRole(t, t', f, g, s, s', y, m[y]);
    }
    RenamedCounts(t, t', m, f, g, s, s');
  }

  lemma RenamedCounts(t: map<nat, Step>, t': map<nat, Step>, m: map<nat, nat>, f: nat, g: nat, s: nat, s': nat)
    requires Renames(t, t', m, g)
    requires forall y <- t :: y in Tokens(t, f, s) <==> m[y] in Tokens(t', g, s')
    requires forall y <- t :: y in Losses(t, f, s) <==> m[y] in Losses(t', g, s')
    requires forall y <- t :: y in SoftLosses(t, f, s) <==> m[y] in SoftLosses(t', g, s')
    ensures |Tokens(t', g, s')| == |Tokens(t, f, s)|
    ensures |Losses(t', g, s')| == |Losses(t, f, s)|
    ensures |SoftLosses(t', g, s')| == |SoftLosses(t, f, s)|
  {
    RenamedSet(t, t', m, g, Tokens(t, f, s), Tokens(t', g, s'));
    RenamedSet(t, t', m, g, Losses(t, f, s), Losses(t', g, s'));
    RenamedSet(t, t', m, g, SoftLosses(t, f, s), SoftLosses(t', g, s'));
  }

  /** A row is in one of the sets of its cohort exactly when its renamed row is in the renamed one. */
  lemma RenamedRole(t: map<nat, Step>, t': map<nat, Step>, f: nat, g: nat, s: nat, s': nat, y: nat, y': nat)
    requires y in t && y' in t' && (InCohort(t'[y'], g, s') <==> InCohort(t[y], f, s))
    requires t'[y'].Token() == t[y].Token() && t'[y'].Lost() == t[y].Lost() && t'[y'].HardLost() == t[y].HardLost()
    ensures y in Tokens(t, f, s) <==> y' in Tokens(t', g, s')
    ensures y in Losses(t, f, s) <==> y' in Losses(t', g, s')
    ensures y in SoftLosses(t, f, s) <==> y' in SoftLosses(t', g, s')
  {
  }

  lemma RenamedInOrder(t: map<nat, Step>, t': map<nat, Step>, m: map<nat, nat>, f: nat, g: nat)
    requires Renames(t, t', m, g) && LinksInside(t) && (forall y <- t :: t[y].flow == f) && InOrder(t, f)
    ensures InOrder(t', g)
  {
    forall s | s in t' && t'[s].flow == g ensures Books(t', g, s, 0, false) {
      var y := OldId(t, t', m, g, s);
      RenamedSets(t, t', m, f, g, y);
      assert Books(t, f, y, 0, false);
    }
    RenamedSets(t, t', m, f, g, 0);
    assert |Losses(t, f, 0)| == 0;
  }
}
