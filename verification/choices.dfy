/**
 Where a step goes next, said of the edges of the graph one by one: which goto is granted, which switch edge decides,
 what every ordinary edge brings and at what place, and exactly when the choice fails.
 */
module Choices {
  import opened Evaluation

  // ----- Goto

  predicate GrantsGoto(t: Transition, task: string, target: string) {
    t.from == task && t.withGoto && t.to == target
  }

  lemma {:induction false} GotoFound(ts: seq<Transition>, task: string, target: string)
    ensures (exists t <- ts :: GrantsGoto(t, task, target)) ==> FirstGoto(ts, task, target) == Ok(target)
    ensures (forall t <- ts :: !GrantsGoto(t, task, target)) ==> FirstGoto(ts, task, target) == Error
    decreases |ts|
  {
    if ts != [] {
      GotoFound(ts[1..], task, target);
      assert ts[0] in ts;
      forall t | t in ts[1..] ensures t in ts {}
      forall t | t in ts ensures t == ts[0] || t in ts[1..] {}
    }
  }

  /** A requested goto leads to its target alone if a goto edge from where the step stands allows it, and fails otherwise, whatever else the graph holds. */
  lemma GotoGranted<V>(ts: seq<Transition>, task: string, o: Outcome<V>)
    requires o.goto != ""
    ensures Chosen(ts, task, o) == Ok([Plain(o.goto)]) <==> exists t <- ts :: GrantsGoto(t, task, o.goto)
    ensures Chosen(ts, task, o).Error? <==> forall t <- ts :: !GrantsGoto(t, task, o.goto)
  {
    GotoFound(ts, task, o.goto);
  }

  // ----- Switch

  predicate SwitchEdge(t: Transition, task: string) { t.from == task && t.switch }

  /** Edge j is the first switch edge from here whose condition is not plainly false. */
  ghost predicate Decides<V>(ts: seq<Transition>, task: string, o: Outcome<V>, j: nat) {
    && j < |ts| && SwitchEdge(ts[j], task) && o.eval(ts[j].when) != Ok(false)
    && forall i :: 0 <= i < j && SwitchEdge(ts[i], task) ==> o.eval(ts[i].when) == Ok(false)
  }

  ghost predicate NoneDecides<V>(ts: seq<Transition>, task: string, o: Outcome<V>) {
    forall t <- ts | SwitchEdge(t, task) :: o.eval(t.when) == Ok(false)
  }

  lemma {:induction false} MatchIs<V>(ts: seq<Transition>, task: string, o: Outcome<V>)
    ensures forall j: nat :: Decides(ts, task, o, j) ==>
              FirstMatch(ts, task, o) == if o.eval(ts[j].when).Error? then Error else Ok([Plain(ts[j].to)])
    ensures NoneDecides(ts, task, o) ==> FirstMatch(ts, task, o) == Ok([])
    ensures NoneDecides(ts, task, o) || exists j: nat :: Decides(ts, task, o, j)
    decreases |ts|
  {
    if ts != [] {
      var rest := ts[1..];
      MatchIs(rest, task, o);
      if SwitchEdge(ts[0], task) && o.eval(ts[0].when) != Ok(false) {
        assert Decides(ts, task, o, 0);
      } else {
        forall j: nat ensures Decides(ts, task, o, j + 1) <==> Decides(rest, task, o, j) {
          if Decides(rest, task, o, j) {
            forall i | 0 <= i < j + 1 && SwitchEdge(ts[i], task) ensures o.eval(ts[i].when) == Ok(false) {
              if i > 0 { assert ts[i] == rest[i - 1]; }
            }
          }
          if Decides(ts, task, o, j + 1) {
            forall i | 0 <= i < j && SwitchEdge(rest[i], task) ensures o.eval(rest[i].when) == Ok(false) { assert rest[i] == ts[i + 1]; }
          }
        }
        forall j: nat | Decides(ts, task, o, j) ensures j > 0 && Decides(rest, task, o, j - 1) {
          assert j > 0;
          assert Decides(ts, task, o, j - 1 + 1);
        }
        if NoneDecides(rest, task, o) {
          forall t | t in ts && SwitchEdge(t, task) ensures o.eval(t.when) == Ok(false) { if t != ts[0] { assert t in rest; } }
        } else {
          var j: nat :| Decides(rest, task, o, j);
          assert Decides(ts, task, o, j + 1);
        }
        forall t | t in rest ensures t in ts {}
      }
    }
  }

  lemma TrueOrFalse(v: Result<bool>)
    ensures v == Error || v == Ok(true) || v == Ok(false)
  {
    match v
    case Error =>
    case Ok(b) =>
      if b { assert v == Ok(true); } else { assert v == Ok(false); }
  }

  /**
   A task with switch edges goes to the target of the first one whose condition holds, every one before it being false;
   nowhere exactly if all are false; and it fails exactly if the first that is not false cannot be evaluated.
   */
  lemma SwitchDecides<V>(ts: seq<Transition>, task: string, o: Outcome<V>, to: string)
    requires o.goto == "" && exists t <- ts :: SwitchEdge(t, task)
    ensures Chosen(ts, task, o) == Ok([Plain(to)])
            <==> exists j: nat :: Decides(ts, task, o, j) && o.eval(ts[j].when) == Ok(true) && ts[j].to == to
    ensures Chosen(ts, task, o) == Ok([]) <==> NoneDecides(ts, task, o)
    ensures Chosen(ts, task, o).Error? <==> exists j: nat :: Decides(ts, task, o, j) && o.eval(ts[j].when).Error?
  {
    MatchIs(ts, task, o);
    if NoneDecides(ts, task, o) {
      forall j: nat | j < |ts| && SwitchEdge(ts[j], task) ensures o.eval(ts[j].when) == Ok(false) { assert ts[j] in ts; }
    }
    assert Switches(ts, task) by { var t :| t in ts && SwitchEdge(t, task); }
    var c := Chosen(ts, task, o);
    assert c == FirstMatch(ts, task, o);
    if c == Ok([Plain(to)]) {
      assert !NoneDecides(ts, task, o);
      var j: nat :| Decides(ts, task, o, j);
      assert c == Ok([Plain(ts[j].to)]);
      assert c.value[0] == Plain(ts[j].to) && c.value[0] == Plain(to);
      TrueOrFalse(o.eval(ts[j].when));
    }
    if j: nat :| Decides(ts, task, o, j) && o.eval(ts[j].when) == Ok(true) && ts[j].to == to {
      assert c == Ok([Plain(ts[j].to)]);
    }
  }

  // ----- Ordinary edges

  /** An ordinary edge from here: not a goto, not an error route. */
  predicate Follows(t: Transition, task: string) { t.from == task && !t.withGoto && !t.onError }

  predicate Holds<V>(t: Transition, o: Outcome<V>) { t.when == "" || o.eval(t.when) == Ok(true) }

  /** The edge cannot be followed or ruled out: its condition fails, or it holds and its source field is no array. */
  predicate Breaks<V>(t: Transition, task: string, o: Outcome<V>) {
    Follows(t, task)
    && ((t.when != "" && o.eval(t.when).Error?) || (Holds(t, o) && t.forEach != "" && (o.field(t.forEach).NotArray? || o.field(t.forEach).Unreadable?)))
  }

  /** What the edge brings: one candidate for a plain edge, one for each element of a forEach's array, in its order. */
  ghost predicate Brings<V>(t: Transition, task: string, o: Outcome<V>, c: seq<Candidate<V>>) {
    if !Follows(t, task) || !Holds(t, o) then c == []
    else if t.forEach == "" then c == [Plain(t.to)]
    else
      match o.field(t.forEach)
      case Items(items) =>
        |c| == |items| && ElementsAt(c, 0, t, items)
        // Every element goes by the name the edge gives it, "item" when it gives none.
        && forall e <- c :: e.Element? && e.itemKey == if t.asKey != "" then t.asKey else "item"
      case _ => c == []
  }

  lemma ExpandBrings<V>(t: Transition, task: string, o: Outcome<V>)
    ensures Expand(t, task, o).Error? <==> Breaks(t, task, o)
    ensures Expand(t, task, o).Ok? ==> Brings(t, task, o, Expand(t, task, o).value)
  {
  }

  /** The j-th edge's candidates lie from one cut to the next. */
  ghost predicate Piece<V>(t: Transition, task: string, o: Outcome<V>, all: seq<Candidate<V>>, cuts: seq<nat>, j: nat) {
    j + 1 < |cuts| && cuts[j] <= cuts[j + 1] <= |all| && Brings(t, task, o, all[cuts[j]..cuts[j + 1]])
  }

  /** Where each edge's candidates begin, and behind the last where all end. */
  ghost predicate Cut<V>(ts: seq<Transition>, task: string, o: Outcome<V>, all: seq<Candidate<V>>, cuts: seq<nat>) {
    && |cuts| == |ts| + 1 && cuts[0] == 0 && cuts[|ts|] == |all|
    && forall j :: 0 <= j < |ts| ==> Piece(ts[j], task, o, all, cuts, j)
  }

  lemma PieceStays<V>(t: Transition, task: string, o: Outcome<V>, before: seq<Candidate<V>>, cuts: seq<nat>, last: seq<Candidate<V>>, end: nat, j: nat)
    requires Piece(t, task, o, before, cuts, j)
    ensures Piece(t, task, o, before + last, cuts + [end], j)
  {
    var all, cuts' := before + last, cuts + [end];
    assert cuts'[j] == cuts[j] && cuts'[j + 1] == cuts[j + 1];
    assert all[cuts[j]..cuts[j + 1]] == before[cuts[j]..cuts[j + 1]];
  }

  lemma LastPiece<V>(t: Transition, task: string, o: Outcome<V>, before: seq<Candidate<V>>, cuts: seq<nat>, last: seq<Candidate<V>>)
    requires |cuts| > 0 && cuts[|cuts| - 1] == |before| && Brings(t, task, o, last)
    ensures Piece(t, task, o, before + last, cuts + [|before| + |last|], |cuts| - 1)
  {
    assert (before + last)[|before|..|before| + |last|] == last;
  }

  lemma CutMore<V>(ts: seq<Transition>, task: string, o: Outcome<V>, before: seq<Candidate<V>>, cuts: seq<nat>, last: seq<Candidate<V>>)
    requires |ts| > 0 && Cut(ts[..|ts| - 1], task, o, before, cuts) && Brings(ts[|ts| - 1], task, o, last)
    ensures Cut(ts, task, o, before + last, cuts + [|before| + |last|])
  {
    var n := |ts| - 1;
    forall j | 0 <= j < |ts| ensures Piece(ts[j], task, o, before + last, cuts + [|before| + |last|], j) {
      if j < n {
        assert ts[..n][j] == ts[j];
        PieceStays(ts[j], task, o, before, cuts, last, |before| + |last|, j);
      } else {
        LastPiece(ts[n], task, o, before, cuts, last);
      }
    }
  }

  lemma {:induction false} AllCut<V>(ts: seq<Transition>, task: string, o: Outcome<V>) returns (cuts: seq<nat>)
    ensures ExpandAll(ts, task, o).Error? <==> exists t <- ts :: Breaks(t, task, o)
    ensures ExpandAll(ts, task, o).Ok? ==> Cut(ts, task, o, ExpandAll(ts, task, o).value, cuts)
    decreases |ts|
  {
    if ts == [] {
      cuts := [0];
    } else {
      var n := |ts| - 1;
      assert ts == ts[..n] + [ts[n]];
      cuts := AllCut(ts[..n], task, o);
      ExpandMore(ts[..n], ts[n], task, o);
      ExpandBrings(ts[n], task, o);
      forall t | t in ts[..n] ensures t in ts {}
      if ExpandAll(ts, task, o).Ok? {
        CutMore(ts, task, o, ExpandAll(ts[..n], task, o).value, cuts, Expand(ts[n], task, o).value);
        cuts := cuts + [|ExpandAll(ts, task, o).value|];
      }
    }
  }

  /**
   Without goto and switch every ordinary edge whose condition holds is followed: the candidates are those of the first
   such edge, then those of the second, and so on, with nothing between, before or behind them. The choice fails
   exactly if some edge can neither be followed nor ruled out.
   */
  lemma EdgesInOrder<V>(ts: seq<Transition>, task: string, o: Outcome<V>) returns (cuts: seq<nat>)
    requires o.goto == "" && forall t <- ts :: !SwitchEdge(t, task)
    ensures Chosen(ts, task, o).Error? <==> exists t <- ts :: Breaks(t, task, o)
    ensures Chosen(ts, task, o).Ok? ==> Cut(ts, task, o, Chosen(ts, task, o).value, cuts)
  {
    cuts := AllCut(ts, task, o);
    assert !Switches(ts, task);
  }
}
