/**
 The fan-in's fold, read off the tables: whatever order branches ran and finished in, the deltas are folded branch
 by branch in the order of the fan-out's input array, and within a branch in the order its steps followed each other.
 */
module CohortOrder {
  import opened Rows
  import opened Transactions
  import opened Shape
  import opened Accounting
  import opened Merging
  import opened CohortState
  import Evaluation

  /** The rows the query over the cohort of s gives: its members, each once, in scan order. */
  ghost predicate ScanOf<V>(steps: map<nat, Step>, s: nat, changes: map<nat, Delta<V>>, rows: seq<Member<V>>) {
    && InScanOrder(rows)
    && (forall i {:trigger rows[i]} :: 0 <= i < |rows| ==> RowOf(steps, s, changes, rows[i]))
    && (forall y {:trigger steps[y].lineage} :: y in steps && steps[y].lineage == s ==> exists i :: 0 <= i < |rows| && rows[i].id == y)
  }

  ghost predicate RowOf<V>(steps: map<nat, Step>, s: nat, changes: map<nat, Delta<V>>, m: Member<V>) {
    && m.id in steps && m.id in changes && steps[m.id].lineage == s && m.changes == changes[m.id]
    && m.ordinal == steps[m.id].ordinal && m.depth == steps[m.id].depth && m.completed == steps[m.id].status.Completed?
  }

  /** In well-shaped tables no two rows of a scan share their place. */
  lemma ScanApart<V>(steps: map<nat, Step>, s: nat, changes: map<nat, Delta<V>>, rows: seq<Member<V>>)
    requires Shaped(steps) && s != 0 && ScanOf(steps, s, changes, rows)
    ensures Apart(rows)
  {
    forall i, j | 0 <= i < j < |rows| ensures rows[i].ordinal != rows[j].ordinal || rows[i].depth != rows[j].depth {
      assert RowOf(steps, s, changes, rows[i]) && RowOf(steps, s, changes, rows[j]) && Before(rows[i], rows[j]);
      if rows[i].id != rows[j].id { OrdinalAndDepthApart(steps, rows[i].id, rows[j].id); }
    }
  }

  /**
   Two schedules of one fan-out, in tables of their own: if their branches did the same at the same places, whatever
   ids the steps got, the cohort's state is the same.
   */
  lemma SchedulesAgree<V(!new), D(!new)>(a: map<nat, Step>, sa: nat, b: map<nat, Step>, sb: nat, done: map<nat, Delta<V>>, did: map<nat, Delta<V>>,
                                        rows: seq<Member<V>>, others: seq<Member<V>>,
                                        rules: Rules<V, D>, state: Delta<V>, changes: Delta<V>, k: string)
    requires Shaped(a) && Shaped(b) && sa != 0 && sb != 0
    requires ScanOf(a, sa, done, rows) && ScanOf(b, sb, did, others) && SameContents(rows, others)
    ensures CohortField(rules, k, state, changes, rows) == CohortField(rules, k, state, changes, others)
  {
    ScanApart(a, sa, done, rows);
    ScanApart(b, sb, did, others);
    CohortStateIsScheduleFree(rules, state, changes, rows, others, k);
  }

  // ----- In the order of the input array

  /** The i-th branch x spawned: its head has ordinal i. */
  ghost predicate BranchAt(steps: map<nat, Step>, x: nat, base: nat, i: nat) {
    base + i in steps && steps[base + i].lineage == x && steps[base + i].head == base + i && steps[base + i].ordinal == i
  }

  ghost predicate BranchesOf(steps: map<nat, Step>, x: nat, base: nat, n: nat) {
    forall i {:trigger BranchAt(steps, x, base, i)} :: 0 <= i < n ==> BranchAt(steps, x, base, i)
  }

  /** The spawn loop inserts them so. */
  lemma SpawnNumbers(db: Db, x: nat, inherit: bool, tasks: seq<bool>, direct: nat, e: bool)
    requires x in db.steps && x < db.nextStep && !FlowDone(db, db.steps[x].flow) && |tasks| > 0 && Moving(db.steps, db.steps[x].flow, x)
    ensures BranchesOf(Push(db, x, inherit, tasks, direct, e).steps, x, db.nextStep, |tasks|)
  {
    PushRows(db, db.steps[x].flow, x, inherit, tasks, direct, e);
    RowsNumbered(db, db.steps[x := PushedRow(db, x, |tasks|, direct)], x, inherit, tasks);
  }

  lemma RowsNumbered(db: Db, steps: map<nat, Step>, x: nat, inherit: bool, tasks: seq<bool>)
    requires x in db.steps && db.steps[x].flow in db.flows
    ensures BranchesOf(steps + Branches(db, x, inherit, tasks, |tasks|), x, db.nextStep, |tasks|)
  {
    var rows := Branches(db, x, inherit, tasks, |tasks|);
    forall i | 0 <= i < |tasks| ensures BranchAt(steps + rows, x, db.nextStep, i) {
      assert rows[db.nextStep + i] == Branch(db, x, inherit, tasks, i);
    }
  }

  /** Every member with the ordinal of a branch is on that branch. */
  lemma MemberOnBranch(steps: map<nat, Step>, x: nat, base: nat, n: nat, y: nat)
    requires Shaped(steps) && x != 0 && BranchesOf(steps, x, base, n) && y in steps && steps[y].lineage == x && steps[y].ordinal < n
    ensures steps[y].head == base + steps[y].ordinal
  {
    assert StepShape(steps, y);
    var h, i := steps[y].head, steps[y].ordinal;
    assert BranchAt(steps, x, base, i);
    if h != base + i { assert Siblings(steps, h, base + i); }
  }

  /** The rows of one branch. */
  function OfBranch<V>(rows: seq<Member<V>>, i: nat): seq<Member<V>> {
    if rows == [] then []
    else OfBranch(rows[..|rows| - 1], i) + (if rows[|rows| - 1].ordinal == i then [rows[|rows| - 1]] else [])
  }

  /** The deltas of the first n branches, branch after branch. */
  function ByBranch<V>(rows: seq<Member<V>>, n: nat): seq<Delta<V>> {
    if n == 0 then [] else ByBranch(rows, n - 1) + Deltas(OfBranch(rows, n - 1))
  }

  lemma {:induction false} DeltasJoin<V>(a: seq<Member<V>>, b: seq<Member<V>>)
    ensures Deltas(a + b) == Deltas(a) + Deltas(b)
    decreases |a|
  {
    if a == [] {
      assert a + b == b;
    } else {
      assert (a + b)[1..] == a[1..] + b;
      DeltasJoin(a[1..], b);
      Associates(if a[0].completed then [a[0].changes] else [], Deltas(a[1..]), Deltas(b));
    }
  }

  lemma Associates<V>(a: seq<V>, b: seq<V>, c: seq<V>)
    ensures a + (b + c) == a + b + c
  {
  }

  lemma {:induction false} NoneOfBranch<V>(rows: seq<Member<V>>, i: nat)
    requires forall r <- rows :: r.ordinal < i
    ensures OfBranch(rows, i) == []
    decreases |rows|
  {
    if rows != [] {
      assert rows[|rows| - 1] in rows;
      forall r | r in rows[..|rows| - 1] ensures r in rows {}
      NoneOfBranch(rows[..|rows| - 1], i);
    }
  }

  lemma OfBranchMore<V>(before: seq<Member<V>>, last: Member<V>, i: nat)
    ensures OfBranch(before + [last], i) == OfBranch(before, i) + (if last.ordinal == i then [last] else [])
  {
    var rows := before + [last];
    assert rows[..|rows| - 1] == before && rows[|rows| - 1] == last;
  }

  lemma OneMoreDelta<V>(before: seq<Member<V>>, last: Member<V>, i: nat, one: seq<Delta<V>>)
    requires one == Deltas([last]) && forall r <- before :: r.ordinal <= last.ordinal
    ensures Deltas(OfBranch(before + [last], i)) == Deltas(OfBranch(before, i)) + (if last.ordinal == i then one else [])
    ensures last.ordinal < i ==> Deltas(OfBranch(before, i)) == []
  {
    OfBranchMore(before, last, i);
    if last.ordinal == i { DeltasJoin(OfBranch(before, i), [last]); }
    if last.ordinal < i { NoneOfBranch(before, i); }
    if last.ordinal != i { assert OfBranch(before, i) + [] == OfBranch(before, i); }
  }

  lemma {:induction false} OneMoreRow<V>(before: seq<Member<V>>, last: Member<V>, n: nat, one: seq<Delta<V>>)
    requires one == Deltas([last]) && forall r <- before :: r.ordinal <= last.ordinal
    ensures ByBranch(before + [last], n) == ByBranch(before, n) + (if last.ordinal < n then one else [])
    decreases n
  {
    if n > 0 {
      OneMoreRow(before, last, n - 1, one);
      OneMoreDelta(before, last, n - 1, one);
      Regroup(ByBranch(before, n - 1), Deltas(OfBranch(before, n - 1)), one, last.ordinal, n - 1);
    }
  }

  lemma Regroup<V>(a: seq<Delta<V>>, b: seq<Delta<V>>, one: seq<Delta<V>>, o: nat, i: nat)
    requires o < i ==> b == []
    ensures (a + (if o < i then one else [])) + (b + (if o == i then one else [])) == (a + b) + (if o < i + 1 then one else [])
  {
  }

  /** Scan order is branch after branch. */
  lemma {:induction false} ScanByBranch<V>(rows: seq<Member<V>>, n: nat)
    requires InScanOrder(rows) && forall r <- rows :: r.ordinal < n
    ensures Deltas(rows) == ByBranch(rows, n)
    decreases |rows|
  {
    if rows == [] {
      NothingByBranch<V>(n);
    } else {
      var before, last := rows[..|rows| - 1], rows[|rows| - 1];
      assert rows == before + [last] && last in rows;
      forall r | r in before ensures r in rows && r.ordinal <= last.ordinal {
        var i :| 0 <= i < |before| && before[i] == r;
        assert Before(rows[i], rows[|rows| - 1]);
      }
      forall i, j | 0 <= i < j < |before| ensures Before(before[i], before[j]) { assert Before(rows[i], rows[j]); }
      ScanByBranch(before, n);
      DeltasJoin(before, [last]);
      OneMoreRow(before, last, n, Deltas([last]));
    }
  }

  lemma {:induction false} NothingByBranch<V>(n: nat)
    ensures ByBranch<V>([], n) == []
    decreases n
  {
    if n > 0 { NothingByBranch<V>(n - 1); }
  }

  /**
   The deltas of a cohort come in the order of the input array: those of the branch of its first element, then those
   of the second, and so on - each branch's being the steps on the branch that was spawned for that element.
   */
  lemma FoldFollowsArray<V, W>(steps: map<nat, Step>, x: nat, base: nat, changes: map<nat, Delta<V>>, rows: seq<Member<V>>,
                               candidates: seq<Evaluation.Candidate<W>>, t: Evaluation.Transition, items: seq<W>)
    requires Shaped(steps) && x != 0 && ScanOf(steps, x, changes, rows)
    requires |candidates| == |items| && BranchesOf(steps, x, base, |candidates|) && forall r <- rows :: r.ordinal < |candidates|
    requires Evaluation.ElementsAt(candidates, 0, t, items)
    ensures Deltas(rows) == ByBranch(rows, |items|)
    ensures forall r <- rows :: steps[r.id].head == base + r.ordinal && candidates[r.ordinal].Element?
                                && candidates[r.ordinal].item == items[r.ordinal] && candidates[r.ordinal].index == r.ordinal
  {
    ScanByBranch(rows, |items|);
    forall r | r in rows
      ensures r.id in steps && steps[r.id].head == base + r.ordinal
      ensures candidates[r.ordinal] == Evaluation.Element(t.to, items[r.ordinal], Evaluation.ItemKey(t), r.ordinal, |items|)
    {
      var i :| 0 <= i < |rows| && rows[i] == r;
      assert RowOf(steps, x, changes, rows[i]);
      MemberOnBranch(steps, x, base, |candidates|, r.id);
      assert candidates[0 + r.ordinal] == candidates[r.ordinal];
    }
  }
}
