/** A fork hands everything on to its clone: a cohort frozen in it is remembered, and nothing else needs to be. */
module HeritageFork {
  import opened Rows
  import opened Transactions
  import opened Shape
  import opened Ledger
  import opened Shaping
  import opened Reach
  import opened Pruning
  import opened Recount
  import opened ForkLedger
  import opened ForkShape
  import opened ForkExact
  import opened Renaming
  import opened Forking
  import opened ForkSafety
  import opened Machine
  import opened Leases
  import opened Quiet
  import opened Heritage

  // ----- The clone before its rows get new ids

  /** Cohorts inside a converged cohort of the clone are counted clean. */
  lemma InnerClean(steps: map<nat, Step>, f: nat, x: nat, caller: bool, y: nat)
    requires Forkable(steps, f, x) && y in Rewound(steps, f, x, caller) && Rewound(steps, f, x, caller)[y].spawned
    requires steps[y].lineage != 0 && steps[y].lineage in Rewound(steps, f, x, caller)
    requires Rewound(steps, f, x, caller)[steps[y].lineage].next != 0
    ensures Clean(Rewound(steps, f, x, caller)[y])
  {
    var s := steps[y].lineage;
    assert StepShape(steps, y);
    assert Within(steps, y, s);
    ConvergedOffPath(steps, f, x, caller, s);
    assert y != x;
    if Within(steps, x, y) { WithinOn(steps, x, y, s); }
    ArrivalsCounted(steps, f, x, y);
    NoneLost(steps, f, x, y, s);
  }

  lemma NoneLost(steps: map<nat, Step>, f: nat, x: nat, y: nat, s: nat)
    requires Forkable(steps, f, x) && Within(steps, y, s) && s in Kept(steps, f, x) && s != x
    requires steps[s].spawned && steps[s].next != 0 && !Within(steps, x, s)
    ensures LostHeads(steps, Kept(steps, f, x), x, y) == {}
  {
    var kept := Kept(steps, f, x);
    assert !HoldsLoss(steps, f, x, s);
    if h :| h in LostHeads(steps, kept, x, y) {
      var st := if BranchHolds(steps, kept, y, h, Failed) then Failed else Cancelled;
      var z :| z in kept && InBranch(steps, z, y, h) && steps[z].status == st;
      WithinOn(steps, z, y, s);
    }
  }

  lemma CloneHeads(steps: map<nat, Step>, f: nat, x: nat, caller: bool, s: nat)
    requires Forkable(steps, f, x) && s in Rewound(steps, f, x, caller) && Rewound(steps, f, x, caller)[s].spawned
    ensures var t := Rewound(steps, f, x, caller); |Heads(t, t.Keys, s)| == t[s].size
  {
    var t := Rewound(steps, f, x, caller);
    assert s != x && s in Kept(steps, f, x) && s != 0;
    AllHeadsKept(steps, f, x, s);
    RowsOfOne(steps, f, x, caller);
    SameHeadSet(steps, t, Kept(steps, f, x), s);
    assert steps[s].spawned && t[s].size == steps[s].size;
  }

  lemma RowsOfOne(steps: map<nat, Step>, f: nat, x: nat, caller: bool)
    ensures var t := Rewound(steps, f, x, caller);
            t.Keys == Kept(steps, f, x) && forall y <- t :: y in steps && t[y].lineage == steps[y].lineage && t[y].pred == steps[y].pred
  {
    var t := Rewound(steps, f, x, caller);
    assert t.Keys == Kept(steps, f, x);
  }

  lemma SameHeadSet(steps: map<nat, Step>, t: map<nat, Step>, kept: set<nat>, s: nat)
    requires t.Keys == kept && forall y <- t :: y in steps && t[y].lineage == steps[y].lineage && t[y].pred == steps[y].pred
    ensures Heads(t, t.Keys, s) == Heads(steps, kept, s)
  {
  }

  // ----- Under its new ids

  lemma {:induction false} OldIdsWithin(t: map<nat, Step>, t': map<nat, Step>, m: map<nat, nat>, g: nat, z: nat, s: nat) returns (a: nat)
    requires Renames(t, t', m, g) && LinksInside(t) && z in t && Within(t', m[z], s)
    ensures a in t && m[a] == s && Within(t, z, a)
    decreases z
  {
    var l := t[z].lineage;
    assert t'[m[z]] == RenamedRow(t[z], m, g);
    assert l != 0 && l in t;
    SameOrder(t, m, l, z);
    if m[l] == s { a := l; } else { a := OldIdsWithin(t, t', m, g, l, s); }
  }

  lemma RenamedMember(t: map<nat, Step>, t': map<nat, Step>, m: map<nat, nat>, g: nat, a: nat, y: nat)
    requires Renames(t, t', m, g) && ConvergedQuiet(t) && a in t && y in t && Within(t, y, a) && t'[m[a]].next != 0
    ensures !t'[m[y]].Loose()
  {
    assert t[a].next != 0;
  }

  lemma RenamedQuiet(t: map<nat, Step>, t': map<nat, Step>, m: map<nat, nat>, g: nat)
    requires Renames(t, t', m, g) && LinksInside(t) && ConvergedQuiet(t)
    ensures ConvergedQuiet(t')
  {
    forall s, z | Within(t', z, s) && s in t' && t'[s].next != 0 ensures !t'[z].Loose() {
      var y := OldId(t, t', m, g, z);
      var a := OldIdsWithin(t, t', m, g, y, s);
      RenamedMember(t, t', m, g, a, y);
    }
  }

  lemma RenamedHeads(t: map<nat, Step>, t': map<nat, Step>, m: map<nat, nat>, g: nat, s: nat)
    requires Renames(t, t', m, g) && LinksInside(t) && s in t
    ensures m[s] in t' && |Heads(t', t'.Keys, m[s])| == |Heads(t, t.Keys, s)|
  {
    forall y | y in t ensures y in Heads(t, t.Keys, s) <==> m[y] in Heads(t', t'.Keys, m[s]) {
      assert t[y].lineage == t[y].lineage;
      SameOrder(t, m, t[y].lineage, s);
      SameOrder(t, m, t[y].pred, s);
    }
    RenamedSet(t, t', m, g, Heads(t, t.Keys, s), Heads(t', t'.Keys, m[s]));
  }

  /** What the clone's own rows bring with them. */
  ghost predicate CloneHanded(added: map<nat, Step>, frozen: bool) {
    && ConvergedQuiet(added)
    && (forall s {:trigger added[s].spawned} :: s in added && added[s].spawned ==> |Heads(added, added.Keys, s)| == added[s].size)
    && (!frozen ==>
          && (forall y {:trigger Clean(added[y])} :: y in added && Clean(added[y]) ==> added[y].next != 0)
          && InnerFirst(added, {}))
  }

  lemma RenamedInner(t: map<nat, Step>, t': map<nat, Step>, m: map<nat, nat>, g: nat)
    requires Renames(t, t', m, g) && LinksInside(t) && !FrozenCohort(t)
    requires forall y {:trigger t[y].spawned} :: (y in t && t[y].spawned && t[y].lineage != 0 && t[y].lineage in t && t[t[y].lineage].next != 0) ==> Clean(t[y])
    ensures forall y {:trigger Clean(t'[y])} :: y in t' && Clean(t'[y]) ==> t'[y].next != 0
    ensures InnerFirst(t', {})
  {
    forall y | y in t' && Clean(t'[y]) ensures t'[y].next != 0 {
      var a := OldId(t, t', m, g, y);
      assert Clean(t[a]) && t[a].next != 0;
    }
    forall y | y in t' && t'[y].spawned && t'[y].lineage != 0 && t'[y].lineage in t' && t'[t'[y].lineage].next != 0 ensures t'[y].next != 0 {
      var a := OldId(t, t', m, g, y);
      var l := t[a].lineage;
      assert l != 0 && l in t && t[l].next != 0;
      assert Clean(t[a]) && Clean(t'[y]);
    }
  }

  lemma CloneBrings(steps: map<nat, Step>, f: nat, x: nat, caller: bool, t': map<nat, Step>, m: map<nat, nat>, g: nat)
    requires Forkable(steps, f, x) && Renames(Rewound(steps, f, x, caller), t', m, g)
    ensures CloneHanded(t', FrozenCohort(Rewound(steps, f, x, caller)))
  {
    var t := Rewound(steps, f, x, caller);
    ForkShaped(steps, f, x, caller);
    ShapedLinksInside(t);
    RestoredQuiet(steps, f, x, caller);
    RenamedQuiet(t, t', m, g);
    forall s | s in t' && t'[s].spawned ensures |Heads(t', t'.Keys, s)| == t'[s].size {
      var a := OldId(t, t', m, g, s);
      CloneHeads(steps, f, x, caller, a);
      RenamedHeads(t, t', m, g, a);
    }
    if !FrozenCohort(t) {
      forall y | y in t && t[y].spawned && t[y].lineage != 0 && t[y].lineage in t && t[t[y].lineage].next != 0 ensures Clean(t[y]) {
        InnerClean(steps, f, x, caller, y);
      }
      RenamedInner(t, t', m, g);
    }
  }

  // ----- Beside the origin

  lemma {:induction false} WithinAlongside(a: map<nat, Step>, b: map<nat, Step>, z: nat, s: nat)
    requires Shaped(a) && Shaped(b) && 0 !in a && 0 !in b && a.Keys !! b.Keys && Within(a + b, z, s)
    ensures (z in a && s in a && Within(a, z, s)) || (z in b && s in b && Within(b, z, s))
    decreases z
  {
    if z in b {
      assert StepShape(b, z);
      if b[z].lineage != s { WithinAlongside(a, b, b[z].lineage, s); }
    } else {
      assert z in a && StepShape(a, z);
      if a[z].lineage != s { WithinAlongside(a, b, a[z].lineage, s); }
    }
  }

  lemma QuietAlongside(a: map<nat, Step>, b: map<nat, Step>)
    requires Shaped(a) && Shaped(b) && 0 !in a && 0 !in b && a.Keys !! b.Keys && ConvergedQuiet(a) && ConvergedQuiet(b)
    ensures ConvergedQuiet(a + b)
  {
    forall s, z | Within(a + b, z, s) && s in a + b && (a + b)[s].next != 0 ensures !(a + b)[z].Loose() {
      WithinAlongside(a, b, z, s);
    }
  }

  lemma HeadsAlong(a: map<nat, Step>, b: map<nat, Step>, s: nat)
    requires Shaped(a) && Shaped(b) && 0 !in a && 0 !in b && a.Keys !! b.Keys
    ensures s in a ==> Heads(a + b, (a + b).Keys, s) == Heads(a, a.Keys, s)
    ensures s in b ==> Heads(a + b, (a + b).Keys, s) == Heads(b, b.Keys, s)
  {
    forall h | h in a ensures a[h].lineage == 0 || a[h].lineage in a { assert StepShape(a, h); }
    forall h | h in b ensures b[h].lineage == 0 || b[h].lineage in b { assert StepShape(b, h); }
  }

  lemma HeadedAlongside(a: map<nat, Step>, b: map<nat, Step>, direct: set<nat>)
    requires Shaped(a) && Shaped(b) && 0 !in a && 0 !in b && a.Keys !! b.Keys && Headed(a, direct)
    requires forall s {:trigger b[s].spawned} :: s in b && b[s].spawned ==> |Heads(b, b.Keys, s)| == b[s].size
    ensures Headed(a + b, direct)
  {
    forall s | s in a + b && (a + b)[s].spawned && (a + b)[s].flow !in direct
      ensures |Heads(a + b, (a + b).Keys, s)| == (a + b)[s].size
    {
      HeadsAlong(a, b, s);
      if s in b { assert b[s].spawned; } else { assert a[s].spawned; }
    }
  }

  lemma InnerAlongside(a: map<nat, Step>, b: map<nat, Step>, frozen: set<nat>, g: nat)
    requires Shaped(a) && Shaped(b) && 0 !in a && 0 !in b && a.Keys !! b.Keys && InnerFirst(a, frozen)
    requires (forall z <- b :: b[z].flow == g) && (g !in frozen ==> InnerFirst(b, {}))
    ensures InnerFirst(a + b, frozen)
  {
    var t := a + b;
    forall y | y in t && t[y].flow !in frozen && t[y].spawned && t[y].lineage != 0 && t[y].lineage in t && t[t[y].lineage].next != 0
      ensures t[y].next != 0
    {
      if y in b { assert StepShape(b, y) && b[y].spawned; } else { assert StepShape(a, y) && a[y].spawned; }
    }
  }

  lemma CleanAlongside(db: Db, db': Db, added: map<nat, Step>, top: nat, frozen: set<nat>)
    requires Ids(db) && AddedBy(db, db', added, top) && CleanConverge(db, frozen)
    requires db.nextFlow !in frozen ==> forall y {:trigger Clean(added[y])} :: y in added && Clean(added[y]) ==> added[y].next != 0
    ensures CleanConverge(db', frozen)
  {
    forall y | y in db'.steps && Clean(db'.steps[y]) && !FlowDone(db', db'.steps[y].flow) && db'.steps[y].flow !in frozen
      ensures db'.steps[y].next != 0
    {
      if y in added { assert Clean(added[y]); } else { assert Clean(db.steps[y]); }
    }
  }

  lemma RestAlongside(w: World, db': Db, added: map<nat, Step>, top: nat, reaped: set<nat>)
    requires Ids(w.db) && JobsOk(w) && AddedBy(w.db, db', added, top)
    requires Unharmed(w.db.steps, reaped) && EndedClosed(w.db) && JobsTold(w, reaped)
    ensures Unharmed(db'.steps, reaped) && EndedClosed(db') && JobsTold(w.(db := db'), reaped)
  {
    forall y | y in db'.steps && Ended(db', db'.steps[y].flow)
      ensures !db'.steps[y].Live() && (db'.flows[db'.steps[y].flow].status.Completed? ==> !db'.steps[y].Loose())
    {
      assert y !in added && !w.db.steps[y].Live();
    }
    forall x, g | (x, g) in w.jobs ensures JobTold(w.(db := db'), reaped, x, g) {
      assert JobTold(w, reaped, x, g) && JobOk(w, x, g);
    }
  }

  /** A new flow of rows that bring nothing amiss. */
  lemma AddedHanded(w: World, p: Past, p': Past, db': Db, added: map<nat, Step>, top: nat, frozen: bool)
    requires WellShaped(w.db) && JobsOk(w) && Handed(w, p) && AddedBy(w.db, db', added, top)
    requires Shaped(added) && 0 !in added && CloneHanded(added, frozen)
    requires p'.reaped == p.reaped && p'.direct == p.direct && p.frozen <= p'.frozen && (frozen ==> w.db.nextFlow in p'.frozen)
    ensures Handed(w.(db := db'), p')
  {
    QuietAlongside(w.db.steps, added);
    HeadedAlongside(w.db.steps, added, p.direct);
    InnerAlongside(w.db.steps, added, p'.frozen, w.db.nextFlow);
    CleanAlongside(w.db, db', added, top, p'.frozen);
    RestAlongside(w, db', added, top, p.reaped);
  }

  lemma AfterFork(w: World, p: Past, f: nat, x: nat, caller: bool, m: map<nat, nat>, top: nat)
    requires Enabled(w, AFork(f, x, caller, m, top))
    ensures var p' := After(w, p, AFork(f, x, caller, m, top));
            p'.reaped == p.reaped && p'.direct == p.direct && p.frozen <= p'.frozen
            && (FrozenCohort(Rewound(w.db.steps, f, x, caller)) ==> w.db.nextFlow in p'.frozen)
  {
  }

  lemma ForkedHanded(w: World, p: Past, p': Past, f: nat, x: nat, caller: bool, m: map<nat, nat>, top: nat)
    requires Inv(w) && Handed(w, p) && Forkable(w.db.steps, f, x) && NewIds(w.db, f, x, caller, m, top)
    requires p'.reaped == p.reaped && p'.direct == p.direct && p.frozen <= p'.frozen
    requires FrozenCohort(Rewound(w.db.steps, f, x, caller)) ==> w.db.nextFlow in p'.frozen
    ensures Handed(w.(db := Fork(w.db, f, x, caller, m, top)), p')
  {
    var added := Renamed(Rewound(w.db.steps, f, x, caller), m, w.db.nextFlow);
    ForkRows(w.db, f, x, caller, m, top);
    CloneGood(w.db.steps, f, x, caller, added, m, w.db.nextFlow);
    CloneBrings(w.db.steps, f, x, caller, added, m, w.db.nextFlow);
    AddedHanded(w, p, p', Fork(w.db, f, x, caller, m, top), added, top, FrozenCohort(Rewound(w.db.steps, f, x, caller)));
  }

  /** A fork. */
  lemma ForkHanded(w: World, p: Past, f: nat, x: nat, caller: bool, m: map<nat, nat>, top: nat)
    requires Inv(w) && LineageDown(w.db.steps) && Handed(w, p) && Enabled(w, AFork(f, x, caller, m, top))
    ensures Handed(Apply(w, AFork(f, x, caller, m, top)), After(w, p, AFork(f, x, caller, m, top)))
  {
    AfterFork(w, p, f, x, caller, m, top);
    ForkedHanded(w, p, After(w, p, AFork(f, x, caller, m, top)), f, x, caller, m, top);
  }
}
