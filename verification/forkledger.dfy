/**
 Fork puts its clone back inside the live engine's ledger: counted afresh by branches, every kept cohort has
 exactly the arrivals and losses the ledger demands, and the rewind step is the one thing left to do.
 */
module ForkLedger {
  import opened Rows
  import opened Transactions
  import opened Shape
  import opened Ledger
  import opened Reach
  import opened Pruning
  import opened Recount

  /** A kept step with this status is y or lies inside y's cohort. */
  ghost predicate Lossy(steps: map<nat, Step>, kept: set<nat>, y: nat, st: Status) {
    exists z :: z in kept && z in steps && (z == y || Within(steps, z, y)) && steps[z].status == st
  }

  /** For a spawn off the rewind path, what lies inside it shows up on one of its arrived branches. */
  lemma InsideIsOnABranch(steps: map<nat, Step>, f: nat, x: nat, y: nat, st: Status)
    requires Forkable(steps, f, x) && y in Kept(steps, f, x) && y != x && !Within(steps, x, y)
    ensures (exists z :: z in Kept(steps, f, x) && Within(steps, z, y) && steps[z].status == st)
            <==> exists h :: h in ArrivedHeads(steps, Kept(steps, f, x), x, y) && BranchHolds(steps, Kept(steps, f, x), y, h, st)
  {
    var kept := Kept(steps, f, x);
    if z :| z in kept && Within(steps, z, y) && steps[z].status == st {
      BranchHeadKept(steps, f, x, z, y);
      var h := steps[MemberOf(steps, z, y)].head;
      assert InBranch(steps, z, y, h);
      assert h in ArrivedHeads(steps, kept, x, y) && BranchHolds(steps, kept, y, h, st);
    }
    if h :| h in ArrivedHeads(steps, kept, x, y) && BranchHolds(steps, kept, y, h, st) {
      var z :| z in kept && InBranch(steps, z, y, h) && steps[z].status == st;
    }
  }

  lemma SoftBelowLost(steps: map<nat, Step>, kept: set<nat>, x: nat, y: nat)
    ensures SoftHeads(steps, kept, x, y) <= LostHeads(steps, kept, x, y)
    ensures |SoftHeads(steps, kept, x, y)| <= |LostHeads(steps, kept, x, y)|
    ensures |SoftHeads(steps, kept, x, y)| < |LostHeads(steps, kept, x, y)|
            <==> exists h :: h in ArrivedHeads(steps, kept, x, y) && BranchHolds(steps, kept, y, h, Failed)
  {
    var soft, lost := SoftHeads(steps, kept, x, y), LostHeads(steps, kept, x, y);
    Subset(soft, lost);
    if h :| h in ArrivedHeads(steps, kept, x, y) && BranchHolds(steps, kept, y, h, Failed) {
      assert h in lost;
      Subset(soft, lost - {h});
    } else {
      assert soft == lost;
    }
  }

  /** Which rows of the clone are open work: the rewind step and the cohorts around it. */
  lemma TokenRows(steps: map<nat, Step>, f: nat, x: nat, caller: bool, y: nat)
    requires Forkable(steps, f, x) && y in Kept(steps, f, x)
    ensures KeptRow(steps, Kept(steps, f, x), x, caller, y).Token() <==> y == x || Within(steps, x, y)
  {
    if y != x {
      if Within(steps, x, y) { WithinDown(steps, x, y); }
      if steps[y].spawned { ArrivalsCounted(steps, f, x, y); }
    }
  }

  /** Which rows of the clone are losses, and which of them hard. */
  lemma LostRows(steps: map<nat, Step>, f: nat, x: nat, caller: bool, y: nat)
    requires Forkable(steps, f, x) && y in Kept(steps, f, x)
    ensures var kept := Kept(steps, f, x);
            var q := KeptRow(steps, kept, x, caller, y);
            && (q.Lost() <==> y != x && !Within(steps, x, y) && (Lossy(steps, kept, y, Failed) || Lossy(steps, kept, y, Cancelled)))
            && (q.HardLost() <==> y != x && !Within(steps, x, y) && Lossy(steps, kept, y, Failed))
  {
    var kept := Kept(steps, f, x);
    if y != x {
      assert steps[y].Faulted() ==> !steps[y].spawned;
      assert StepShape(steps, y);
      if Within(steps, x, y) {
        WithinDown(steps, x, y);
        ArrivalsCounted(steps, f, x, y);
      } else {
        InsideIsOnABranch(steps, f, x, y, Failed);
        InsideIsOnABranch(steps, f, x, y, Cancelled);
        SoftBelowLost(steps, kept, x, y);
        LostWhenHeld(steps, kept, x, y);
        if steps[y].spawned {
          ArrivalsCounted(steps, f, x, y);
        } else {
          NothingWithin(steps, y);
        }
      }
    }
  }

  lemma LostWhenHeld(steps: map<nat, Step>, kept: set<nat>, x: nat, y: nat)
    ensures |LostHeads(steps, kept, x, y)| > 0
            <==> exists h :: h in ArrivedHeads(steps, kept, x, y)
                             && (BranchHolds(steps, kept, y, h, Failed) || BranchHolds(steps, kept, y, h, Cancelled))
  {
    if h :| h in ArrivedHeads(steps, kept, x, y) && (BranchHolds(steps, kept, y, h, Failed) || BranchHolds(steps, kept, y, h, Cancelled)) {
      assert h in LostHeads(steps, kept, x, y);
    }
    if |LostHeads(steps, kept, x, y)| > 0 {
      var h :| h in LostHeads(steps, kept, x, y);
    }
  }

  lemma NothingWithin(steps: map<nat, Step>, y: nat)
    requires Shaped(steps) && y in steps && !steps[y].spawned
    ensures forall z :: !Within(steps, z, y)
  {
    forall z ensures !Within(steps, z, y) {
      if Within(steps, z, y) { WithinDown(steps, z, y); }
    }
  }

  // ----- At most one loss a branch

  /** A loss ends its branch. */
  lemma LossEndsBranch(steps: map<nat, Step>, f: nat, x: nat, y: nat)
    requires Forkable(steps, f, x) && y in Kept(steps, f, x)
    requires y != x && !Within(steps, x, y)
    requires Lossy(steps, Kept(steps, f, x), y, Failed) || Lossy(steps, Kept(steps, f, x), y, Cancelled)
    ensures steps[y].next == 0
  {
    var z :| z in Kept(steps, f, x) && z in steps && (z == y || Within(steps, z, y)) && steps[z].Faulted();
    if z != y {
      WithinDown(steps, z, y);
      assert HoldsLoss(steps, f, x, y);
    }
  }

  /** A lost step is never on the branch (or trunk) that leads to the rewind step. */
  lemma LossBesidePath(steps: map<nat, Step>, f: nat, x: nat, caller: bool, y: nat)
    requires Forkable(steps, f, x) && y in Kept(steps, f, x) && KeptRow(steps, Kept(steps, f, x), x, caller, y).Lost()
    requires steps[y].lineage == 0 || Within(steps, x, steps[y].lineage)
    ensures !SameBranch(steps[y], steps[MemberOf(steps, x, steps[y].lineage)])
  {
    var c := MemberOf(steps, x, steps[y].lineage);
    LostRows(steps, f, x, caller, y);
    LossEndsBranch(steps, f, x, y);
    if SameBranch(steps[y], steps[c]) {
      assert SameBranch(steps[c], steps[y]);
      assert y != c;
      assert c < y;
      if c == x {
        PrunedOnward(steps, f, x, x, y);
      } else {
        assert Within(steps, x, c);
        assert Follows(steps[c], steps[y], y);
        assert StepShape(steps, c);
        var n := steps[c].next;
        if n != y { PrunedOnward(steps, f, x, n, y); }
      }
    }
  }

  lemma {:induction false} SameSize(steps: map<nat, Step>, ys: set<nat>, hs: set<nat>)
    requires forall y <- ys :: y in steps && steps[y].head in hs
    requires forall h <- hs :: exists y :: y in ys && y in steps && steps[y].head == h
    requires forall y, z {:trigger steps[y], steps[z]} | y in ys && z in ys && y in steps && z in steps && steps[y].head == steps[z].head :: y == z
    ensures |ys| == |hs|
    decreases ys
  {
    if ys == {} {
      assert hs == {};
    } else {
      var y :| y in ys;
      var h := steps[y].head;
      forall g | g in hs - {h} ensures exists z :: z in ys - {y} && z in steps && steps[z].head == g {
        var z :| z in ys && z in steps && steps[z].head == g;
        assert z in ys - {y};
      }
      SameSize(steps, ys - {y}, hs - {h});
    }
  }

  /** Losses of one cohort lie on different branches. */
  lemma LossesApart(steps: map<nat, Step>, f: nat, x: nat, caller: bool, y: nat, z: nat)
    requires Forkable(steps, f, x) && y in Kept(steps, f, x) && z in Kept(steps, f, x)
    requires KeptRow(steps, Kept(steps, f, x), x, caller, y).Lost() && KeptRow(steps, Kept(steps, f, x), x, caller, z).Lost()
    requires SameBranch(steps[y], steps[z])
    ensures y == z
  {
    LostRows(steps, f, x, caller, y);
    LostRows(steps, f, x, caller, z);
    LossEndsBranch(steps, f, x, y);
    LossEndsBranch(steps, f, x, z);
    assert SameBranch(steps[z], steps[y]);
  }

  /** The branch a lost member ends is a branch counted as arrived and lost. */
  lemma LossOnBranch(steps: map<nat, Step>, f: nat, x: nat, caller: bool, y: nat)
    requires Forkable(steps, f, x) && y in Kept(steps, f, x) && KeptRow(steps, Kept(steps, f, x), x, caller, y).Lost()
    requires steps[y].lineage != 0
    ensures var kept := Kept(steps, f, x);
            var s := steps[y].lineage;
            && steps[y].head in LostHeads(steps, kept, x, s)
            && (KeptRow(steps, kept, x, caller, y).HardLost() ==> BranchHolds(steps, kept, s, steps[y].head, Failed))
  {
    var kept := Kept(steps, f, x);
    var s, h := steps[y].lineage, steps[y].head;
    LostRows(steps, f, x, caller, y);
    assert StepShape(steps, y);
    assert Within(steps, y, s) && MemberOf(steps, y, s) == y;
    BranchHeadKept(steps, f, x, y, s);
    if InBranch(steps, x, s, h) {
      WithinDown(steps, x, s);
      assert StepShape(steps, MemberOf(steps, x, s));
      LossBesidePath(steps, f, x, caller, y);
    }
    LossyHolds(steps, f, x, y, Failed);
    LossyHolds(steps, f, x, y, Cancelled);
  }

  lemma LossyHolds(steps: map<nat, Step>, f: nat, x: nat, y: nat, st: Status)
    requires Rewinds(steps, f, x) && y in Kept(steps, f, x) && steps[y].lineage != 0
    requires Within(steps, y, steps[y].lineage)
    ensures Lossy(steps, Kept(steps, f, x), y, st) ==> BranchHolds(steps, Kept(steps, f, x), steps[y].lineage, steps[y].head, st)
  {
    var kept, s := Kept(steps, f, x), steps[y].lineage;
    if z :| z in kept && z in steps && (z == y || Within(steps, z, y)) && steps[z].status == st {
      MemberIs(steps, z, s, y);
      assert InBranch(steps, z, s, steps[y].head);
    }
  }

  /** A branch that holds a lost step, and not the rewind step, ends in a lost member. */
  lemma BranchLoss(steps: map<nat, Step>, f: nat, x: nat, caller: bool, s: nat, h: nat, st: Status) returns (y: nat)
    requires Forkable(steps, f, x) && h in ArrivedHeads(steps, Kept(steps, f, x), x, s)
    requires BranchHolds(steps, Kept(steps, f, x), s, h, st) && (st.Failed? || st.Cancelled?)
    ensures y in Kept(steps, f, x) && steps[y].lineage == s && steps[y].head == h
    ensures KeptRow(steps, Kept(steps, f, x), x, caller, y).Lost()
    ensures st.Failed? ==> KeptRow(steps, Kept(steps, f, x), x, caller, y).HardLost()
  {
    var kept := Kept(steps, f, x);
    var z :| z in kept && InBranch(steps, z, s, h) && steps[z].status == st;
    y := MemberOf(steps, z, s);
    MemberKept(steps, f, x, z, s);
    assert Lossy(steps, kept, y, st);
    WithinDown(steps, z, s);
    if y == x || Within(steps, x, y) { MemberIs(steps, x, s, y); }
    LostRows(steps, f, x, caller, y);
  }

  // ----- The books of one cohort

  lemma LossCount(steps: map<nat, Step>, f: nat, x: nat, caller: bool, s: nat)
    requires Forkable(steps, f, x) && s in Kept(steps, f, x) && s != x
    ensures |Losses(Rewound(steps, f, x, caller), f, s)| == |LostHeads(steps, Kept(steps, f, x), x, s)|
  {
    var kept := Kept(steps, f, x);
    var t := Rewound(steps, f, x, caller);
    var losses := Losses(t, f, s);
    assert s != 0;
    forall y | y in losses ensures y in steps && steps[y].head in LostHeads(steps, kept, x, s) {
      LossOnBranch(steps, f, x, caller, y);
    }
    forall h | h in LostHeads(steps, kept, x, s) ensures exists y :: y in losses && y in steps && steps[y].head == h {
      var y := BranchLoss(steps, f, x, caller, s, h, if BranchHolds(steps, kept, s, h, Failed) then Failed else Cancelled);
      assert t[y] == KeptRow(steps, kept, x, caller, y);
      assert y in losses;
    }
    forall y, z | y in losses && z in losses && y in steps && z in steps && steps[y].head == steps[z].head ensures y == z {
      LossesApart(steps, f, x, caller, y, z);
    }
    SameSize(steps, losses, LostHeads(steps, kept, x, s));
  }

  lemma SoftHead(steps: map<nat, Step>, f: nat, x: nat, caller: bool, s: nat, y: nat)
    requires Forkable(steps, f, x) && s in Kept(steps, f, x) && s != x
    requires y in SoftLosses(Rewound(steps, f, x, caller), f, s)
    ensures y in steps && steps[y].head in SoftHeads(steps, Kept(steps, f, x), x, s)
  {
    assert s != 0;
    LossOnBranch(steps, f, x, caller, y);
    if BranchHolds(steps, Kept(steps, f, x), s, steps[y].head, Failed) {
      var z := BranchLoss(steps, f, x, caller, s, steps[y].head, Failed);
      LossesApart(steps, f, x, caller, y, z);
    }
  }

  lemma SoftCount(steps: map<nat, Step>, f: nat, x: nat, caller: bool, s: nat)
    requires Forkable(steps, f, x) && s in Kept(steps, f, x) && s != x
    ensures |SoftLosses(Rewound(steps, f, x, caller), f, s)| == |SoftHeads(steps, Kept(steps, f, x), x, s)|
  {
    var kept := Kept(steps, f, x);
    var t := Rewound(steps, f, x, caller);
    var losses := SoftLosses(t, f, s);
    assert s != 0;
    forall y | y in losses ensures y in steps && steps[y].head in SoftHeads(steps, kept, x, s) { SoftHead(steps, f, x, caller, s, y); }
    forall h | h in SoftHeads(steps, kept, x, s) ensures exists y :: y in losses && y in steps && steps[y].head == h {
      var y := BranchLoss(steps, f, x, caller, s, h, Cancelled);
      assert t[y] == KeptRow(steps, kept, x, caller, y);
      LossOnBranch(steps, f, x, caller, y);
      assert y in losses;
    }
    forall y, z | y in losses && z in losses && y in steps && z in steps && steps[y].head == steps[z].head ensures y == z {
      LossesApart(steps, f, x, caller, y, z);
    }
    SameSize(steps, losses, SoftHeads(steps, kept, x, s));
  }

  /** The open work of a kept cohort: the one member the rewind step is, or lies inside of. */
  lemma TokensLeft(steps: map<nat, Step>, f: nat, x: nat, caller: bool, s: nat)
    requires Forkable(steps, f, x) && (s == 0 || (s in Kept(steps, f, x) && s != x))
    ensures Tokens(Rewound(steps, f, x, caller), f, s)
            == if s == 0 || Within(steps, x, s) then {MemberOf(steps, x, s)} else {}
  {
    var t := Rewound(steps, f, x, caller);
    var inside := s == 0 || Within(steps, x, s);
    forall y | y in Tokens(t, f, s) ensures inside && y == MemberOf(steps, x, s) {
      TokenRows(steps, f, x, caller, y);
      assert StepShape(steps, y);
      MemberIs(steps, x, s, y);
    }
    if inside {
      var m := MemberOf(steps, x, s);
      RewindKept(steps, f, x);
      MemberKept(steps, f, x, x, s);
      TokenRows(steps, f, x, caller, m);
      assert m in Tokens(t, f, s);
    }
  }

  lemma RewindKept(steps: map<nat, Step>, f: nat, x: nat)
    requires Rewinds(steps, f, x)
    ensures x in Kept(steps, f, x)
  {
    if Reaches(steps, x, x) { ReachesUp(steps, x, x); }
  }

  lemma RewoundBooks(steps: map<nat, Step>, f: nat, x: nat, caller: bool, s: nat)
    requires Forkable(steps, f, x) && s in Kept(steps, f, x)
    ensures Books(Rewound(steps, f, x, caller), f, s, 0, false)
  {
    var t := Rewound(steps, f, x, caller);
    if s == x {
      forall y | y in t ensures t[y].lineage != x {
        KeptClosed(steps, f, x, y);
        assert x != 0;
      }
      assert Losses(t, f, x) == {} && SoftLosses(t, f, x) == {};
    } else {
      LossCount(steps, f, x, caller, s);
      SoftCount(steps, f, x, caller, s);
      TokensLeft(steps, f, x, caller, s);
      if steps[s].spawned { ArrivalsCounted(steps, f, x, s); }
      if Within(steps, x, s) { WithinDown(steps, x, s); }
    }
  }

  /** Fork's recount restores the ledger: the clone is a running flow in order. */
  lemma NoTrunkLoss(steps: map<nat, Step>, f: nat, x: nat, caller: bool)
    requires Forkable(steps, f, x)
    ensures Losses(Rewound(steps, f, x, caller), f, 0) == {}
  {
    if y :| y in Losses(Rewound(steps, f, x, caller), f, 0) {
      var c := MemberOf(steps, x, 0);
      assert StepShape(steps, y) && StepShape(steps, c);
      if c != x { WithinDown(steps, x, c); }
      LossBesidePath(steps, f, x, caller, y);
    }
  }

  lemma ForkInOrder(steps: map<nat, Step>, f: nat, x: nat, caller: bool)
    requires Forkable(steps, f, x)
    ensures InOrder(Rewound(steps, f, x, caller), f)
  {
    var t := Rewound(steps, f, x, caller);
    forall s | s in t && t[s].flow == f ensures Books(t, f, s, 0, false) { RewoundBooks(steps, f, x, caller, s); }
    TokensLeft(steps, f, x, caller, 0);
    NoTrunkLoss(steps, f, x, caller);
  }
}
