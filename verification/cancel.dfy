/**
 Cancel by watermark. A Cancel writes the flow's watermark, later marks the open steps at or below it, and
 leaves the rest to inheritance: the statement that inserts a successor decides whether it starts marked.
 Along any line of succession exactly one step carries the cancellation.
 */
module Cancel {
  import opened Rows
  import opened Transactions
  import opened Shape

  function FlowWatermark(db: Db, f: nat): nat {
    if f in db.flows then db.flows[f].watermark else 0
  }

  /** The rule that fixes a step's mark, given its flow's watermark w and its predecessor's row. */
  ghost predicate MarkOk(db: Db, z: nat)
    requires z in db.steps
  {
    var r := db.steps[z];
    var w := FlowWatermark(db, r.flow);
    && (w == 0 ==> !r.cancelling)
    && (w > 0 && r.pred == 0 ==> z <= w)
    && (w > 0 && r.pred != 0 && r.pred in db.steps ==>
          var p := db.steps[r.pred];
          && (z <= w ==> !p.cancelling)
          && (z > w ==> (r.cancelling <==> r.pred <= w && !p.cancelling)))
  }

  ghost predicate MarksOk(db: Db) {
    && (forall z {:trigger MarkOk(db, z)} :: z in db.steps ==> MarkOk(db, z))
    && (forall f <- db.flows :: db.flows[f].watermark < db.nextStep)
  }

  // ----- Which writes keep the rule

  /** Writes that touch no mark, no predecessor and no watermark; new steps come above every watermark. */
  ghost predicate MarksKept(db: Db, db': Db) {
    && (forall z {:trigger db'.steps[z].cancelling} :: z in db'.steps && z in db.steps ==>
          db'.steps[z].cancelling == db.steps[z].cancelling && db'.steps[z].pred == db.steps[z].pred
          && db'.steps[z].flow == db.steps[z].flow)
    && (forall f {:trigger db'.flows[f].watermark} :: f in db'.flows && f in db.flows ==>
          db'.flows[f].watermark == db.flows[f].watermark)
    && (forall f :: f in db'.flows && f !in db.flows ==> db'.flows[f].watermark == 0 && f >= db.nextFlow)
    && (forall z :: z in db'.steps && z in db.steps && db.steps[z].flow in db.flows ==> db.steps[z].flow in db'.flows)
    && db'.nextStep >= db.nextStep
  }

  /** A new step y, inserted after p by a source whose own coverage the insert knew. */
  ghost predicate InsertedRight(db: Db, db': Db, y: nat)
    requires y in db'.steps
  {
    var r := db'.steps[y];
    && r.flow in db'.flows
    && (if r.pred == 0 then r.flow !in db.flows && !r.cancelling
        else r.pred in db.steps && r.pred in db'.steps && r.flow in db.flows
             && (r.cancelling <==> !db.steps[r.pred].cancelling && r.pred <= FlowWatermark(db, r.flow)))
  }

  lemma MarksAfter(db: Db, db': Db)
    requires WellShaped(db) && WellShaped(db') && MarksOk(db) && MarksKept(db, db')
    requires forall y | y in db'.steps && y !in db.steps :: y >= db.nextStep && InsertedRight(db, db', y)
    ensures MarksOk(db')
  {
    forall z | z in db'.steps ensures MarkOk(db', z) {
      assert StepShape(db'.steps, z);
      if z in db.steps {
        assert MarkOk(db, z) && StepShape(db.steps, z);
        var p := db'.steps[z].pred;
        if p != 0 { assert db'.steps[p].cancelling == db.steps[p].cancelling; }
      } else {
        assert InsertedRight(db, db', z);
        var p := db'.steps[z].pred;
        if p != 0 { assert db'.steps[p].cancelling == db.steps[p].cancelling; }
      }
    }
  }

  /** Cancel's first write. */
  lemma MarksAfterWatermark(db: Db, fs: set<nat>)
    requires WellShaped(db) && MarksOk(db)
    ensures MarksOk(Watermark(db, fs))
  {
    var db' := Watermark(db, fs);
    forall z | z in db'.steps ensures MarkOk(db', z) {
      assert MarkOk(db, z) && StepShape(db.steps, z);
      var p := db.steps[z].pred;
      if p != 0 { assert MarkOk(db, p); }
      assert z <= LastStep(db.steps, db.steps[z].flow);
    }
  }

  /** Cancel's second write: a step that has a successor is no longer open, so no predecessor is ever marked. */
  lemma MarksAfterMark(db: Db, fs: set<nat>)
    requires WellShaped(db) && MarksOk(db)
    ensures MarksOk(Mark(db, fs))
  {
    var db' := Mark(db, fs);
    forall z | z in db'.steps ensures MarkOk(db', z) {
      assert MarkOk(db, z) && StepShape(db.steps, z);
      var p := db.steps[z].pred;
      if p != 0 {
        assert StepShape(db.steps, p);
        assert db'.steps[p] == db.steps[p];
      }
    }
  }

  // ----- What the rule means along a line of succession

  /** Step a precedes step b: b was reached from a over one or more successions. */
  ghost predicate Precedes(steps: map<nat, Step>, a: nat, b: nat)
    decreases b
  {
    && b in steps && steps[b].pred < b && steps[b].pred != 0
    && (steps[b].pred == a || Precedes(steps, a, steps[b].pred))
  }

  /** At or below the watermark, nothing before a step was ever marked. */
  lemma {:induction false} NothingBelowMarked(db: Db, a: nat, b: nat)
    requires WellShaped(db) && MarksOk(db) && Precedes(db.steps, a, b)
    requires b <= FlowWatermark(db, db.steps[b].flow)
    ensures a in db.steps && !db.steps[a].cancelling
    decreases b
  {
    assert StepShape(db.steps, b) && MarkOk(db, b);
    var p := db.steps[b].pred;
    if p != a { NothingBelowMarked(db, a, p); }
  }

  /** A marked step: no step before it on its line of succession is marked. Cancel never strikes a line twice. */
  lemma MarkedOnce(db: Db, a: nat, b: nat)
    requires WellShaped(db) && MarksOk(db) && Precedes(db.steps, a, b) && db.steps[b].cancelling
    ensures a in db.steps && !db.steps[a].cancelling
  {
    assert StepShape(db.steps, b) && MarkOk(db, b);
    var p := db.steps[b].pred;
    if b <= FlowWatermark(db, db.steps[b].flow) {
      NothingBelowMarked(db, a, b);
    } else if p != a {
      NothingBelowMarked(db, a, p);
    }
  }

  /** The line of succession that leads to b, b included. */
  ghost predicate OnLine(steps: map<nat, Step>, a: nat, b: nat) {
    a in steps && (a == b || Precedes(steps, a, b))
  }

  lemma {:induction false} LineExtends(steps: map<nat, Step>, a: nat, p: nat, b: nat)
    requires b in steps && steps[b].pred == p && p != 0 && p < b && OnLine(steps, a, p)
    ensures OnLine(steps, a, b)
  {
  }

  /** A step inserted after the Cancel has exactly one marked step on the line that led to it. */
  lemma {:induction false} ReachedOnce(db: Db, b: nat) returns (m: nat)
    requires WellShaped(db) && MarksOk(db) && b in db.steps
    requires 0 < FlowWatermark(db, db.steps[b].flow) < b
    ensures OnLine(db.steps, m, b) && db.steps[m].cancelling
    ensures forall a :: OnLine(db.steps, a, b) && db.steps[a].cancelling ==> a == m
    decreases b
  {
    assert StepShape(db.steps, b) && MarkOk(db, b);
    var w := FlowWatermark(db, db.steps[b].flow);
    var p := db.steps[b].pred;
    if p > w {
      m := ReachedOnce(db, p);
      LineExtends(db.steps, m, p, b);
    } else if db.steps[p].cancelling {
      m := p;
      assert OnLine(db.steps, p, b);
    } else {
      m := b;
    }
    forall a | OnLine(db.steps, a, b) && db.steps[a].cancelling ensures a == m {
      OnlyOne(db, a, m, b);
    }
  }

  /** Two marked steps of one line are the same step. */
  lemma {:induction false} OnlyOne(db: Db, a: nat, m: nat, b: nat)
    requires WellShaped(db) && MarksOk(db) && OnLine(db.steps, a, b) && OnLine(db.steps, m, b)
    requires db.steps[a].cancelling && db.steps[m].cancelling
    ensures a == m
    decreases b
  {
    if a == b {
      if m != b { MarkedOnce(db, m, b); }
    } else if m == b {
      MarkedOnce(db, a, b);
    } else {
      OnlyOne(db, a, m, db.steps[b].pred);
    }
  }

  /**
   After the mark, every open step of a cancelled flow is either marked itself or led to by exactly one marked
   step; a step that finished before the mark and has still to move on is unmarked, and so passes it on.
   */
  lemma MarkReaches(db: Db, fs: set<nat>, b: nat) returns (m: nat)
    requires WellShaped(db) && MarksOk(db) && b in db.steps && db.steps[b].flow in fs
    requires db.steps[b].status.Open() && 0 < FlowWatermark(db, db.steps[b].flow)
    ensures OnLine(Mark(db, fs).steps, m, b) && Mark(db, fs).steps[m].cancelling
    ensures forall a :: OnLine(Mark(db, fs).steps, a, b) && Mark(db, fs).steps[a].cancelling ==> a == m
  {
    var db' := Mark(db, fs);
    MarksAfterMark(db, fs);
    MarkShape(db, fs);
    if b > FlowWatermark(db, db.steps[b].flow) {
      m := ReachedOnce(db', b);
    } else {
      m := b;
      forall a | OnLine(db'.steps, a, b) && db'.steps[a].cancelling ensures a == m {
        OnlyOne(db', a, m, b);
      }
    }
  }

  lemma MarkShape(db: Db, fs: set<nat>)
    requires WellShaped(db)
    ensures WellShaped(Mark(db, fs))
  {
    var db' := Mark(db, fs);
    forall y | y in db'.steps ensures OwnOk(db'.steps[y]) { assert StepShape(db.steps, y); }
    ShapeKept(db.steps, db'.steps);
  }

  /** A successor inserted after the watermark by a step at or below it is marked exactly when its source is not. */
  lemma PassedOn(db: Db, b: nat)
    requires WellShaped(db) && MarksOk(db) && b in db.steps && db.steps[b].pred != 0
    requires db.steps[b].pred <= FlowWatermark(db, db.steps[b].flow) < b
    ensures db.steps[b].pred in db.steps
    ensures db.steps[b].cancelling <==> !db.steps[db.steps[b].pred].cancelling
  {
    assert StepShape(db.steps, b) && MarkOk(db, b);
  }
}
