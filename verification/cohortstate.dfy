/** The state of a whole cohort, converged or lost, and why it does not depend on the order of completion. */
module CohortState {
  import opened Merging
  import Rows
  import opened Shape

  /** One row of the cohort scan. */
  datatype Member<V> = Member(id: nat, ordinal: nat, depth: nat, completed: bool, changes: Delta<V>)

  /** The scan's order: by branch, then by depth, then by id. */
  predicate Before<V>(a: Member<V>, b: Member<V>) {
    || a.ordinal < b.ordinal
    || (a.ordinal == b.ordinal && a.depth < b.depth)
    || (a.ordinal == b.ordinal && a.depth == b.depth && a.id < b.id)
  }

  predicate InScanOrder<V>(rows: seq<Member<V>>) {
    forall i, j :: 0 <= i < j < |rows| ==> Before(rows[i], rows[j])
  }

  /** Ordinal and depth tell the rows apart. */
  predicate Apart<V>(rows: seq<Member<V>>) {
    forall i, j :: 0 <= i < j < |rows| ==> rows[i].ordinal != rows[j].ordinal || rows[i].depth != rows[j].depth
  }

  /** Within one cohort no two members share both: a branch has one ordinal, and grows in depth. */
  lemma OrdinalAndDepthApart(steps: map<nat, Rows.Step>, y: nat, z: nat)
    requires Shaped(steps) && y in steps && z in steps && y != z
    requires steps[y].lineage == steps[z].lineage != 0
    ensures steps[y].ordinal != steps[z].ordinal || steps[y].depth != steps[z].depth
  {
    assert StepShape(steps, y) && StepShape(steps, z);
    if steps[y].head == steps[z].head {
      assert SameBranch(steps[y], steps[z]) && SameBranch(steps[z], steps[y]);
    } else {
      assert StepShape(steps, steps[y].head) && StepShape(steps, steps[z].head);
      assert Siblings(steps, steps[y].head, steps[z].head);
    }
  }

  /** The deltas that count: those of completed members, in scan order. */
  function Deltas<V>(rows: seq<Member<V>>): seq<Delta<V>> {
    if rows == [] then []
    else (if rows[0].completed then [rows[0].changes] else []) + Deltas(rows[1..])
  }

  /** A row without its id: what it contributes, and where. */
  function Content<V>(m: Member<V>): Member<V> { m.(id := 0) }

  ghost predicate Has<V>(rows: seq<Member<V>>, c: Member<V>) {
    exists i :: 0 <= i < |rows| && Content(rows[i]) == c
  }

  ghost predicate SameContents<V(!new)>(a: seq<Member<V>>, b: seq<Member<V>>) {
    forall c {:trigger Has(a, c)} {:trigger Has(b, c)} :: Has(a, c) <==> Has(b, c)
  }

  lemma IsAt<V>(rows: seq<Member<V>>, c: Member<V>) returns (i: nat)
    requires Has(rows, c)
    ensures i < |rows| && Content(rows[i]) == c
  {
    i :| 0 <= i < |rows| && Content(rows[i]) == c;
  }

  /** The rows of one place: first means nothing comes before. */
  lemma FirstIs<V>(rows: seq<Member<V>>, i: nat)
    requires InScanOrder(rows) && i < |rows|
    ensures rows[0].ordinal < rows[i].ordinal || (rows[0].ordinal == rows[i].ordinal && rows[0].depth <= rows[i].depth)
  {
    if i > 0 { assert Before(rows[0], rows[i]); }
  }

  lemma FirstAlike<V(!new)>(a: seq<Member<V>>, b: seq<Member<V>>)
    requires InScanOrder(a) && InScanOrder(b) && Apart(a) && Apart(b) && SameContents(a, b) && a != []
    ensures b != [] && Content(a[0]) == Content(b[0])
  {
    assert Has(a, Content(a[0]));
    var j := IsAt(b, Content(a[0]));
    assert Has(b, Content(b[0]));
    var i := IsAt(a, Content(b[0]));
    FirstIs(a, i);
    FirstIs(b, j);
  }

  lemma HasTail<V>(rows: seq<Member<V>>, c: Member<V>)
    requires Apart(rows) && rows != []
    ensures Has(rows[1..], c) <==> Has(rows, c) && c != Content(rows[0])
  {
    if Has(rows[1..], c) {
      var i := IsAt(rows[1..], c);
      assert rows[i + 1] == rows[1..][i];
      assert Content(rows[i + 1]) == c;
    }
    if Has(rows, c) && c != Content(rows[0]) {
      var i := IsAt(rows, c);
      assert rows[1..][i - 1] == rows[i];
    }
  }

  lemma RestAlike<V(!new)>(a: seq<Member<V>>, b: seq<Member<V>>)
    requires Apart(a) && Apart(b) && SameContents(a, b) && a != [] && b != [] && Content(a[0]) == Content(b[0])
    ensures SameContents(a[1..], b[1..])
  {
    forall c ensures Has(a[1..], c) <==> Has(b[1..], c) {
      HasTail(a, c);
      HasTail(b, c);
    }
  }

  lemma OrderedRest<V>(rows: seq<Member<V>>)
    requires InScanOrder(rows) && Apart(rows) && rows != []
    ensures InScanOrder(rows[1..]) && Apart(rows[1..])
  {
  }

  /**
   Schedule independence: two runs that gave a cohort the same contents at the same places - whatever ids the
   rows got, and so whatever order the branches ran and finished in - fold the same deltas in the same order.
   */
  lemma {:induction false} SameDeltas<V(!new)>(a: seq<Member<V>>, b: seq<Member<V>>)
    requires InScanOrder(a) && InScanOrder(b) && Apart(a) && Apart(b) && SameContents(a, b)
    ensures Deltas(a) == Deltas(b)
    decreases |a|
  {
    if a == [] {
      if b != [] {
        assert Has(b, Content(b[0]));
        var i := IsAt(a, Content(b[0]));
      }
    } else {
      FirstAlike(a, b);
      RestAlike(a, b);
      OrderedRest(a);
      OrderedRest(b);
      SameDeltas(a[1..], b[1..]);
      assert Content(a[0]).completed == a[0].completed && Content(a[0]).changes == a[0].changes;
    }
  }

  // ----- The two merges

  /** A field of the cohort's state: the spawn's value, its own delta, then the members'. None when a fold fails. */
  function CohortField<V, D>(rules: Rules<V, D>, k: string, state: Delta<V>, changes: Delta<V>, rows: seq<Member<V>>): Option<Option<V>> {
    var base := Field(rules, state, k, changes);
    if base.None? then None
    else
      var acc := AccFields(rules, k, Stored(base.value), Deltas(rows));
      if acc.None? then None
      else
        var v := Settle(rules, acc.value);
        if v.None? then None
        // DelNils: a cleared field is materialized as absent.
        else if v.value.Some? && rules.cleared(v.value.value) then Some(None) else v
  }

  method DelNils<V, D>(rules: Rules<V, D>, s: Delta<V>) returns (r: Delta<V>)
    ensures forall k :: At(r, k) == if k in s && rules.cleared(s[k]) then None else At(s, k)
  {
    r := map k | k in s && !rules.cleared(s[k]) :: s[k];
  }

  /** The scan over the cohort: only completed members contribute. */
  method CollectDeltas<V>(rows: seq<Member<V>>) returns (deltas: seq<Delta<V>>)
    ensures deltas == Deltas(rows)
  {
    deltas := [];
    for i := 0 to |rows|
      invariant deltas + Deltas(rows[i..]) == Deltas(rows)
    {
      assert rows[i..][0] == rows[i] && rows[i..][1..] == rows[i + 1..];
      if !rows[i].completed { continue; }
      deltas := deltas + [rows[i].changes];
    }
  }

  /** mergeCohortState: a failure of a reducer is an error. */
  method MergeCohortState<V(!new), D(!new)>(rules: Rules<V, D>, state: Delta<V>, changes: Delta<V>, rows: seq<Member<V>>)
    returns (ok: bool, merged: Delta<V>)
    ensures ok ==> forall k :: Some(At(merged, k)) == CohortField(rules, k, state, changes, rows)
    ensures !ok ==> exists k :: CohortField(rules, k, state, changes, rows).None?
  {
    ok, merged := MergeReduce(rules, state, changes);
    if !ok {
      var k :| k in changes && Field(rules, state, k, changes).None?;
      assert CohortField(rules, k, state, changes, rows).None?;
      return;
    }
    ghost var base := merged;
    var deltas := CollectDeltas(rows);
    ok, merged := MergeReduceAll(rules, merged, deltas);
    if !ok {
      ghost var k :| AccFields(rules, k, Stored(At(base, k)), deltas).None?
                     || Settle(rules, AccFields(rules, k, Stored(At(base, k)), deltas).value).None?;
      assert Some(At(base, k)) == Field(rules, state, k, changes);
      assert CohortField(rules, k, state, changes, rows).None?;
      return;
    }
    merged := DelNils(rules, merged);
  }

  /** insertFanInStep's merge: the same fold, with reducer failures passed over. */
  method FanInState<V(!new), D(!new)>(rules: Rules<V, D>, state: Delta<V>, changes: Delta<V>, rows: seq<Member<V>>)
    returns (merged: Delta<V>)
    ensures (forall k :: CohortField(rules, k, state, changes, rows).Some?)
            ==> forall k :: Some(At(merged, k)) == CohortField(rules, k, state, changes, rows)
  {
    var ok;
    ok, merged := MergeReduce(rules, state, changes);
    ghost var base, ok1 := merged, ok;
    var deltas := CollectDeltas(rows);
    ok, merged := MergeReduceAll(rules, merged, deltas);
    ghost var folded := merged;
    merged := DelNils(rules, merged);
    if forall k :: CohortField(rules, k, state, changes, rows).Some? {
      forall k | k in changes ensures Field(rules, state, k, changes).Some? {
        assert CohortField(rules, k, state, changes, rows).Some?;
      }
      assert ok1;
      forall k ensures AccFields(rules, k, Stored(At(base, k)), deltas).Some?
                       && Settle(rules, AccFields(rules, k, Stored(At(base, k)), deltas).value).Some? {
        assert CohortField(rules, k, state, changes, rows).Some?;
        assert Some(At(base, k)) == Field(rules, state, k, changes);
      }
      forall k ensures Some(At(merged, k)) == CohortField(rules, k, state, changes, rows) {
        assert Some(At(base, k)) == Field(rules, state, k, changes);
      }
    }
  }

  /** The state a cohort converges with is the same for every schedule. */
  lemma CohortStateIsScheduleFree<V(!new), D(!new)>(rules: Rules<V, D>, state: Delta<V>, changes: Delta<V>,
                                                   a: seq<Member<V>>, b: seq<Member<V>>, k: string)
    requires InScanOrder(a) && InScanOrder(b) && Apart(a) && Apart(b) && SameContents(a, b)
    ensures CohortField(rules, k, state, changes, a) == CohortField(rules, k, state, changes, b)
  {
    SameDeltas(a, b);
  }
}
