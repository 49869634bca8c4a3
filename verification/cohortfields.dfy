/**
 What a field of a cohort's state ends up as: lost branches bring nothing, a replaced field holds what the last branch
 that wrote it wrote, and an appended one holds what every branch brought, one after the other.
 */
module CohortFields {
  import Rows
  import opened Merging
  import opened CohortState
  import opened CohortOrder

  // ----- Who contributes

  lemma {:induction false} DeltasSplit<V>(rows: seq<Member<V>>, i: nat)
    requires i < |rows|
    ensures Deltas(rows) == Deltas(rows[..i]) + (if rows[i].completed then [rows[i].changes] else []) + Deltas(rows[i + 1..])
  {
    assert rows == rows[..i] + rows[i..] && rows[i..] == [rows[i]] + rows[i + 1..];
    DeltasJoin(rows[..i], rows[i..]);
    assert rows[i..][1..] == rows[i + 1..];
    Associates(Deltas(rows[..i]), if rows[i].completed then [rows[i].changes] else [], Deltas(rows[i + 1..]));
  }

  /** A member that did not complete leaves no trace: the state is the same whatever it had written, and as if it were not there. */
  lemma LossesBringNothing<V(!new), D(!new)>(rules: Rules<V, D>, k: string, state: Delta<V>, changes: Delta<V>,
                                            rows: seq<Member<V>>, i: nat, other: Delta<V>)
    requires i < |rows| && !rows[i].completed
    ensures CohortField(rules, k, state, changes, rows[i := rows[i].(changes := other)]) == CohortField(rules, k, state, changes, rows)
    ensures CohortField(rules, k, state, changes, rows[..i] + rows[i + 1..]) == CohortField(rules, k, state, changes, rows)
  {
    var changed := rows[i := rows[i].(changes := other)];
    DeltasSplit(rows, i);
    DeltasSplit(changed, i);
    assert changed[..i] == rows[..i] && changed[i + 1..] == rows[i + 1..];
    DeltasJoin(rows[..i], rows[i + 1..]);
    assert Deltas(rows[..i]) + [] == Deltas(rows[..i]);
  }

  /** On the tables: what a step that is anything but completed has written makes no difference to the cohort it belongs to. */
  lemma LostStepsBringNothing<V(!new), D(!new)>(rules: Rules<V, D>, k: string, state: Delta<V>, changes: Delta<V>, steps: map<nat, Rows.Step>,
                                               s: nat, wrote: map<nat, Delta<V>>, rows: seq<Member<V>>, i: nat, other: Delta<V>)
    requires ScanOf(steps, s, wrote, rows) && i < |rows| && rows[i].id in steps && !steps[rows[i].id].status.Completed?
    ensures var changed := rows[i := rows[i].(changes := other)];
            && ScanOf(steps, s, wrote[rows[i].id := other], changed)
            && CohortField(rules, k, state, changes, changed) == CohortField(rules, k, state, changes, rows)
  {
    var changed := rows[i := rows[i].(changes := other)];
    assert RowOf(steps, s, wrote, rows[i]);
    LossesBringNothing(rules, k, state, changes, rows, i, other);
    Rescanned(steps, s, wrote, rows, i, other);
  }

  lemma Rescanned<V>(steps: map<nat, Rows.Step>, s: nat, wrote: map<nat, Delta<V>>, rows: seq<Member<V>>, i: nat, other: Delta<V>)
    requires ScanOf(steps, s, wrote, rows) && i < |rows|
    ensures ScanOf(steps, s, wrote[rows[i].id := other], rows[i := rows[i].(changes := other)])
  {
    var changed, now := rows[i := rows[i].(changes := other)], wrote[rows[i].id := other];
    forall j | 0 <= j < |changed| ensures RowOf(steps, s, now, changed[j]) {
      assert RowOf(steps, s, wrote, rows[j]) && RowOf(steps, s, wrote, rows[i]);
      if j < i { assert Before(rows[j], rows[i]); } else if i < j { assert Before(rows[i], rows[j]); }
    }
    forall a, b | 0 <= a < b < |changed| ensures Before(changed[a], changed[b]) { assert Before(rows[a], rows[b]); }
    forall y {:trigger steps[y].lineage} | y in steps && steps[y].lineage == s ensures exists j :: 0 <= j < |changed| && changed[j].id == y {
      var j :| 0 <= j < |rows| && rows[j].id == y;
      assert changed[j].id == y;
    }
  }

  /** Where every member completed, every member contributes, at its own place. */
  lemma {:induction false} AllContribute<V>(rows: seq<Member<V>>)
    requires forall r <- rows :: r.completed
    ensures |Deltas(rows)| == |rows| && forall i :: 0 <= i < |rows| ==> Deltas(rows)[i] == rows[i].changes
    decreases |rows|
  {
    if rows != [] {
      assert rows[0] in rows;
      forall r | r in rows[1..] ensures r in rows {}
      AllContribute(rows[1..]);
      forall i | 0 <= i < |rows| ensures Deltas(rows)[i] == rows[i].changes {
        if i > 0 { assert rows[i] == rows[1..][i - 1]; }
      }
    }
  }

  // ----- A replaced field

  /** Row i is the last completed one that carries the field. */
  ghost predicate WritesLast<V>(rows: seq<Member<V>>, k: string, i: nat) {
    && i < |rows| && rows[i].completed && k in rows[i].changes
    && forall j :: i < j < |rows| ==> !(rows[j].completed && k in rows[j].changes)
  }

  /** A value as a reader of the state sees it: a cleared one is absent. */
  function Seen<V, D>(rules: Rules<V, D>, v: Option<V>): Option<V> {
    if v.Some? && rules.cleared(v.value) then None else v
  }

  lemma {:induction false} ReplacedBy<V, D>(rules: Rules<V, D>, k: string, base: Option<V>, rows: seq<Member<V>>)
    requires !rules.combines(k)
    ensures forall i: nat :: WritesLast(rows, k, i) ==> AccFields(rules, k, Stored(base), Deltas(rows)) == Some(Stored(Some(rows[i].changes[k])))
    ensures (forall i: nat :: !WritesLast(rows, k, i)) ==> AccFields(rules, k, Stored(base), Deltas(rows)) == Some(Stored(base))
    decreases |rows|
  {
    if rows == [] {
    } else {
      var n := |rows| - 1;
      var before, last := rows[..n], rows[n];
      assert rows == before + [last];
      ReplacedBy(rules, k, base, before);
      DeltasJoin(before, [last]);
      assert [last][1..] == [];
      if last.completed {
        OneMore(rules, k, Stored(base), Deltas(before), last.changes);
        assert Deltas([last]) == [last.changes];
      } else {
        assert Deltas(before) + [] == Deltas(before);
      }
      if last.completed && k in last.changes {
        assert WritesLast(rows, k, n);
        Overwritten(rules, k, base, before);
      } else {
        forall i: nat ensures WritesLast(rows, k, i) <==> WritesLast(before, k, i) {}
      }
    }
  }

  /** The fold of a replaced field cannot fail. */
  lemma {:induction false} Overwritten<V, D>(rules: Rules<V, D>, k: string, base: Option<V>, rows: seq<Member<V>>)
    requires !rules.combines(k)
    ensures var r := AccFields(rules, k, Stored(base), Deltas(rows)); r.Some? && r.value.Stored?
    decreases |rows|
  {
    if rows != [] {
      var rest := rows[1..];
      if rows[0].completed {
        assert Deltas(rows) == [rows[0].changes] + Deltas(rest);
        assert Deltas(rows)[1..] == Deltas(rest);
        Overwritten(rules, k, if k in rows[0].changes then Some(rows[0].changes[k]) else base, rest);
      } else {
        assert Deltas(rows) == Deltas(rest);
        Overwritten(rules, k, base, rest);
      }
    }
  }

  /**
   A field without a reducer: the last completed member in scan order that wrote it decides; if none did, the spawn's
   own write; if it did not either, the field stays as it was. Whoever decides by clearing the field makes it absent.
   */
  lemma LastWriteWins<V(!new), D(!new)>(rules: Rules<V, D>, k: string, state: Delta<V>, changes: Delta<V>, rows: seq<Member<V>>)
    requires !rules.combines(k)
    ensures forall i: nat :: WritesLast(rows, k, i) ==> CohortField(rules, k, state, changes, rows) == Some(Seen(rules, Some(rows[i].changes[k])))
    ensures (forall i: nat :: !WritesLast(rows, k, i)) ==>
              CohortField(rules, k, state, changes, rows) == Some(Seen(rules, if k in changes then At(changes, k) else At(state, k)))
  {
    ReplacedBy(rules, k, if k in changes then At(changes, k) else At(state, k), rows);
  }

  // ----- A combined field

  lemma {:induction false} FoldOn<V, D>(rules: Rules<V, D>, k: string, acc: Acc<V, D>, a: seq<Delta<V>>, b: seq<Delta<V>>)
    ensures AccFields(rules, k, acc, a + b)
            == var r := AccFields(rules, k, acc, a); if r.None? then None else AccFields(rules, k, r.value, b)
    decreases |a|
  {
    if a == [] {
      assert a + b == b;
    } else {
      assert (a + b)[1..] == a[1..] + b;
      var next := AccField(rules, k, acc, At(a[0], k));
      if next.Some? { FoldOn(rules, k, next.value, a[1..], b); }
    }
  }

  /** A branch that clears a combined field takes nothing away: the state is as if it had not written the field. */
  lemma ClearingAddsNothing<V(!new), D(!new)>(rules: Rules<V, D>, k: string, state: Delta<V>, changes: Delta<V>, rows: seq<Member<V>>, i: nat)
    requires rules.combines(k) && i < |rows| && k in rows[i].changes && rules.cleared(rows[i].changes[k])
    ensures CohortField(rules, k, state, changes, rows)
            == CohortField(rules, k, state, changes, rows[i := rows[i].(changes := rows[i].changes - {k})])
  {
    var without := rows[i].(changes := rows[i].changes - {k});
    var other := rows[i := without];
    DeltasSplit(rows, i);
    DeltasSplit(other, i);
    assert other[..i] == rows[..i] && other[i + 1..] == rows[i + 1..];
    var base := Field(rules, state, k, changes);
    if base.Some? && rows[i].completed {
      var a, c := Deltas(rows[..i]), Deltas(rows[i + 1..]);
      FoldsAlike(rules, k, Stored(base.value), a, rows[i].changes, without.changes, c);
    }
  }

  lemma FoldsAlike<V, D>(rules: Rules<V, D>, k: string, acc: Acc<V, D>, a: seq<Delta<V>>, d: Delta<V>, e: Delta<V>, c: seq<Delta<V>>)
    requires forall m :: AccField(rules, k, m, At(d, k)) == AccField(rules, k, m, At(e, k))
    ensures AccFields(rules, k, acc, a + [d] + c) == AccFields(rules, k, acc, a + [e] + c)
  {
    FoldOn(rules, k, acc, a + [d], c);
    FoldOn(rules, k, acc, a + [e], c);
    OneMore(rules, k, acc, a, d);
    OneMore(rules, k, acc, a, e);
    var r := AccFields(rules, k, acc, a);
    if r.Some? { assert AccField(rules, k, r.value, At(d, k)) == AccField(rules, k, r.value, At(e, k)); }
    assert AccFields(rules, k, acc, a + [d]) == AccFields(rules, k, acc, a + [e]);
  }

  /** Lists that are appended to each other, the reducer of a field that collects results. */
  function Appends<T>(): Rules<seq<T>, seq<T>> {
    Rules((k: string) => true, (v: seq<T>) => false, (v: Option<seq<T>>) => Some(if v.None? then [] else v.value),
          (d: seq<T>) => Some(d), (k: string, a: seq<T>, b: seq<T>) => Some(a + b))
  }

  function Listed<T>(v: Option<seq<T>>): seq<T> { if v.None? then [] else v.value }

  /** What the completed members brought to the field, one after the other. */
  function Brought<T>(rows: seq<Member<seq<T>>>, k: string): seq<T> {
    if rows == [] then []
    else Brought(rows[..|rows| - 1], k) + (var m := rows[|rows| - 1]; if m.completed && k in m.changes then m.changes[k] else [])
  }

  function Held<T>(acc: Acc<seq<T>, seq<T>>): seq<T> {
    match acc case Stored(v) => Listed(v) case Decoded(d) => d
  }

  lemma AppendsOne<T>(k: string, acc: Acc<seq<T>, seq<T>>, m: Delta<seq<T>>)
    ensures var r := AccField(Appends(), k, acc, At(m, k));
            r.Some? && Held(r.value) == Held(acc) + (if k in m then m[k] else [])
  {
    assert Held(acc) + [] == Held(acc);
  }

  lemma {:induction false} AppendsAll<T>(k: string, base: Option<seq<T>>, rows: seq<Member<seq<T>>>)
    ensures var r := AccFields(Appends(), k, Stored(base), Deltas(rows)); r.Some? && Held(r.value) == Listed(base) + Brought(rows, k)
    decreases |rows|
  {
    if rows == [] {
      assert Listed(base) + [] == Listed(base);
    } else {
      var n := |rows| - 1;
      AppendsAll(k, base, rows[..n]);
      AppendsLast(k, base, rows[..n], rows[n]);
      assert rows == rows[..n] + [rows[n]];
    }
  }

  lemma BroughtMore<T>(before: seq<Member<seq<T>>>, last: Member<seq<T>>, k: string)
    ensures Brought(before + [last], k) == Brought(before, k) + (if last.completed && k in last.changes then last.changes[k] else [])
    ensures Deltas(before + [last]) == Deltas(before) + (if last.completed then [last.changes] else [])
  {
    var rows := before + [last];
    assert rows[..|rows| - 1] == before && [last][1..] == [];
    DeltasJoin(before, [last]);
    if last.completed { assert Deltas([last]) == [last.changes]; }
  }

  lemma AppendsLast<T>(k: string, base: Option<seq<T>>, before: seq<Member<seq<T>>>, last: Member<seq<T>>)
    requires var r := AccFields(Appends(), k, Stored(base), Deltas(before)); r.Some? && Held(r.value) == Listed(base) + Brought(before, k)
    ensures var r := AccFields(Appends(), k, Stored(base), Deltas(before + [last]));
            r.Some? && Held(r.value) == Listed(base) + Brought(before + [last], k)
  {
    var acc := AccFields(Appends(), k, Stored(base), Deltas(before)).value;
    BroughtMore(before, last, k);
    if last.completed {
      OneMore(Appends(), k, Stored(base), Deltas(before), last.changes);
      AppendsOne(k, acc, last.changes);
      Associates(Listed(base), Brought(before, k), if k in last.changes then last.changes[k] else []);
    } else {
      assert Deltas(before) + [] == Deltas(before) && Brought(before, k) + [] == Brought(before, k);
    }
  }

  lemma SpawnAppends<T>(k: string, state: Delta<seq<T>>, changes: Delta<seq<T>>)
    ensures var base := Field(Appends<T>(), state, k, changes); base.Some? && Listed(base.value) == Listed(At(state, k)) + Listed(At(changes, k))
  {
    assert Listed(At(state, k)) + [] == Listed(At(state, k));
  }

  lemma AppendSettles<T>(acc: Acc<seq<T>, seq<T>>)
    ensures var v := Settle(Appends<T>(), acc); v.Some? && Listed(v.value) == Held(acc)
  {
  }

  /**
   A field whose reducer appends ends up as what it was, then what the spawn brought, then what each completed member
   brought, in scan order - and so, by the order of the scan, in the order of the fan-out's input array.
   */
  lemma AppendedInOrder<T(!new)>(k: string, state: Delta<seq<T>>, changes: Delta<seq<T>>, rows: seq<Member<seq<T>>>)
    ensures var r := CohortField(Appends(), k, state, changes, rows);
            r.Some? && Listed(r.value) == Listed(At(state, k)) + Listed(At(changes, k)) + Brought(rows, k)
  {
    SpawnAppends(k, state, changes);
    var base := Field(Appends<T>(), state, k, changes).value;
    AppendsAll(k, base, rows);
    AppendSettles(AccFields(Appends<T>(), k, Stored(base), Deltas(rows)).value);
  }
}
