/** A fork keeps the machine's invariant: its clone is a new running flow, in shape and in order. */
module ForkSafety {
  import opened Rows
  import opened Transactions
  import opened Shape
  import opened Ledger
  import opened Accounting
  import opened Shaping
  import opened Reach
  import opened Pruning
  import opened Recount
  import opened ForkLedger
  import opened ForkShape
  import opened Renaming
  import opened Forking
  import opened Machine
  import opened Leases
  import opened Cancel
  import opened Quiet

  /** The rows a fork adds. */
  ghost predicate AddedBy(db: Db, db': Db, added: map<nat, Step>, top: nat) {
    && db' == WithFlow(db, added, top) && db.nextStep <= top
    && (forall z {:trigger z in added} :: z in added ==>
          db.nextStep <= z < top && added[z].flow == db.nextFlow && !added[z].cancelling && added[z].Passed())
  }

  lemma RenamedAre(t: map<nat, Step>, t': map<nat, Step>, m: map<nat, nat>, g: nat, low: nat, top: nat)
    requires Renames(t, t', m, g) && forall a {:trigger m[a]} :: a in m ==> low <= m[a] < top
    requires forall y <- t :: t[y].Passed() && !t[y].cancelling
    ensures forall z {:trigger z in t'} :: z in t' ==> low <= z < top && t'[z].flow == g && !t'[z].cancelling && t'[z].Passed()
    ensures 0 < low ==> 0 !in t'
  {
    forall z | z in t' ensures low <= z < top && t'[z].flow == g && !t'[z].cancelling && t'[z].Passed() {
      var y := OldId(t, t', m, g, z);
      assert t[y].Passed();
    }
  }

  lemma RewoundRows(steps: map<nat, Step>, f: nat, x: nat, caller: bool)
    ensures forall y {:trigger Rewound(steps, f, x, caller)[y]} :: y in Rewound(steps, f, x, caller) ==>
              Rewound(steps, f, x, caller)[y].Passed() && !Rewound(steps, f, x, caller)[y].cancelling
  {
    forall y | y in Rewound(steps, f, x, caller)
      ensures Rewound(steps, f, x, caller)[y].Passed() && !Rewound(steps, f, x, caller)[y].cancelling
    {
      ForkPassed(steps, f, x, caller, y);
    }
  }

  lemma ForkRows(db: Db, f: nat, x: nat, caller: bool, m: map<nat, nat>, top: nat)
    requires NewIds(db, f, x, caller, m, top)
    ensures AddedBy(db, Fork(db, f, x, caller, m, top),
                    Renamed(Rewound(db.steps, f, x, caller), m, db.nextFlow), top)
    ensures 0 < db.nextStep ==> 0 !in Renamed(Rewound(db.steps, f, x, caller), m, db.nextFlow)
  {
    RewoundRows(db.steps, f, x, caller);
    RowsOfClone(db, Rewound(db.steps, f, x, caller), m, top);
  }

  lemma RowsOfClone(db: Db, t: map<nat, Step>, m: map<nat, nat>, top: nat)
    requires Increasing(t, m) && db.nextStep <= top
    requires forall a {:trigger m[a]} :: a in m ==> db.nextStep <= m[a] < top
    requires forall y <- t :: t[y].Passed() && !t[y].cancelling
    ensures AddedBy(db, WithFlow(db, Renamed(t, m, db.nextFlow), top), Renamed(t, m, db.nextFlow), top)
    ensures 0 < db.nextStep ==> 0 !in Renamed(t, m, db.nextFlow)
  {
    RenamedAre(t, Renamed(t, m, db.nextFlow), m, db.nextFlow, db.nextStep, top);
  }

  /** The clone on its own, under its new ids. */
  lemma CloneGood(steps: map<nat, Step>, f: nat, x: nat, caller: bool, t': map<nat, Step>, m: map<nat, nat>, g: nat)
    requires Forkable(steps, f, x) && Renames(Rewound(steps, f, x, caller), t', m, g)
    ensures Shaped(t') && InOrder(t', g)
  {
    var t := Rewound(steps, f, x, caller);
    forall y | y in t ensures t[y].flow == f { ForkPassed(steps, f, x, caller, y); }
    ForkShaped(steps, f, x, caller);
    ForkInOrder(steps, f, x, caller);
    RenamedGood(t, t', m, f, g);
  }

  lemma RenamedGood(t: map<nat, Step>, t': map<nat, Step>, m: map<nat, nat>, f: nat, g: nat)
    requires Renames(t, t', m, g) && Shaped(t) && InOrder(t, f) && forall y <- t :: t[y].flow == f
    ensures Shaped(t') && InOrder(t', g)
  {
    ShapedLinksInside(t);
    RenamedShaped(t, t', m, f, g);
    RenamedInOrder(t, t', m, f, g);
  }

  lemma AddedShape(db: Db, db': Db, added: map<nat, Step>, top: nat)
    requires WellShaped(db) && AddedBy(db, db', added, top) && Shaped(added) && 0 !in added
    ensures WellShaped(db')
  {
    ShapedAlongside(db.steps, added);
  }

  lemma AddedSound(db: Db, db': Db, added: map<nat, Step>, top: nat)
    requires Ids(db) && FlowsSound(db) && AddedBy(db, db', added, top) && InOrder(added, db.nextFlow)
    ensures FlowsSound(db')
  {
    forall f | f in db'.flows && !db'.flows[f].status.Terminal() ensures Sound(db', f) {
      if f == db.nextFlow {
        assert forall y <- db.steps :: db.steps[y].flow != f;
        OrderKept(added, db'.steps, f);
      } else {
        assert Sound(db, f);
        Bystander(db.steps, db'.steps, f);
      }
    }
  }

  lemma AddedMarks(db: Db, db': Db, added: map<nat, Step>, top: nat)
    requires WellShaped(db) && MarksOk(db) && AddedBy(db, db', added, top)
    ensures MarksOk(db')
  {
    forall z | z in db'.steps ensures MarkOk(db', z) {
      if z in added {
        assert FlowWatermark(db', db.nextFlow) == 0;
      } else {
        assert MarkOk(db, z) && StepShape(db.steps, z);
        var p := db.steps[z].pred;
        if p != 0 { assert p in db.steps && p !in added; }
      }
    }
  }

  lemma AddedOutside(w: World, db': Db, added: map<nat, Step>, top: nat)
    requires Inv(w) && AddedBy(w.db, db', added, top)
    ensures JobsOk(w.(db := db')) && LogOk(w.(db := db'))
  {
    OwnRows(w.db.steps);
    OutsideWrite(w, db');
  }

  lemma ForkInv(w: World, f: nat, x: nat, caller: bool, m: map<nat, nat>, top: nat)
    requires Inv(w) && x in w.db.steps && w.db.steps[x].flow == f && Fits(w.db.steps, f, x)
    requires NewIds(w.db, f, x, caller, m, top)
    ensures Inv(w.(db := Fork(w.db, f, x, caller, m, top)))
  {
    var added := Renamed(Rewound(w.db.steps, f, x, caller), m, w.db.nextFlow);
    var db' := Fork(w.db, f, x, caller, m, top);
    NestedFromShape(w.db.steps);
    ForkRows(w.db, f, x, caller, m, top);
    CloneGood(w.db.steps, f, x, caller, added, m, w.db.nextFlow);
    AddedShape(w.db, db', added, top);
    AddedSound(w.db, db', added, top);
    AddedMarks(w.db, db', added, top);
    AddedOutside(w, db', added, top);
  }
}
