/**
 The state a cohort converges with: the spawn's state, its own delta, then every completed member's delta,
 folded through the graph's reducers in (ordinal, depth, id) order. The fold is done for all members in one
 pass, and its order does not depend on which branch finished first.
 */
module Merging {
  datatype Option<+T> = None | Some(value: T)

  /**
   How a field combines. `V` is a stored (encoded) value, `D` a decoded one. Fields without a reducer are
   replaced. Decoding and reducing can fail.
   */
  datatype Rules<!V, !D> = Rules(
    combines: string -> bool,
    cleared: V -> bool,
    decode: Option<V> -> Option<D>,
    encode: D -> Option<V>,
    reduce: (string, D, D) -> Option<D>)

  /** A result that was encoded decodes to itself: what the one-pass fold relies on. */
  ghost predicate RoundTrips<V(!new), D(!new)>(rules: Rules<V, D>) {
    forall d, v :: rules.encode(d) == Some(v) ==> rules.decode(Some(v)) == Some(d)
  }

  type Delta<V> = map<string, V>

  function At<V>(s: Delta<V>, k: string): Option<V> {
    if k in s then Some(s[k]) else None
  }

  // ----- One member at a time

  /** One field of one delta folded onto the stored value; None when the reducer (or a codec) fails. */
  function FoldField<V, D>(rules: Rules<V, D>, k: string, base: Option<V>, inc: Option<V>): Option<Option<V>> {
    if inc.None? then Some(base)
    else if !rules.combines(k) then Some(inc)
    else if rules.cleared(inc.value) then Some(base)
    else
      var b := rules.decode(base);
      var i := rules.decode(inc);
      if b.None? || i.None? then None
      else
        var r := rules.reduce(k, b.value, i.value);
        if r.None? then None
        else
          var e := rules.encode(r.value);
          if e.None? then None else Some(e)
  }

  /** One field after a sequence of deltas folded one by one. */
  function FoldFields<V, D>(rules: Rules<V, D>, k: string, base: Option<V>, deltas: seq<Delta<V>>): Option<Option<V>>
    decreases |deltas|
  {
    if deltas == [] then Some(base)
    else
      var next := FoldField(rules, k, base, At(deltas[0], k));
      if next.None? then None else FoldFields(rules, k, next.value, deltas[1..])
  }

  function Field<V, D>(rules: Rules<V, D>, s: Delta<V>, k: string, delta: Delta<V>): Option<Option<V>> {
    FoldField(rules, k, At(s, k), At(delta, k))
  }

  /** MergeReduce: every field of the delta folded onto s; a failure leaves what was folded before it. */
  method MergeReduce<V, D>(rules: Rules<V, D>, s: Delta<V>, delta: Delta<V>) returns (ok: bool, merged: Delta<V>)
    ensures ok <==> forall k <- delta :: Field(rules, s, k, delta).Some?
    ensures ok ==> forall k :: Some(At(merged, k)) == Field(rules, s, k, delta)
  {
    merged := s;
    var fields := delta.Keys;
    while fields != {}
      invariant fields <= delta.Keys
      invariant forall k :: k in delta && k !in fields ==> Some(At(merged, k)) == Field(rules, s, k, delta)
      invariant forall k :: k !in delta || k in fields ==> At(merged, k) == At(s, k)
    {
      var k :| k in fields;
      fields := fields - {k};
      var folded := FoldField(rules, k, At(merged, k), Some(delta[k]));
      if folded.None? { return false, merged; }
      if folded.value.Some? { merged := merged[k := folded.value.value]; }
    }
    ok := true;
  }

  // ----- A whole cohort in one pass

  /** The accumulator of a combined field: its decoded value once some member touched it. */
  datatype Acc<V, D> = Stored(v: Option<V>) | Decoded(d: D)

  function AccField<V, D>(rules: Rules<V, D>, k: string, acc: Acc<V, D>, inc: Option<V>): Option<Acc<V, D>> {
    if inc.None? then Some(acc)
    else if !rules.combines(k) then Some(Stored(inc))
    else if rules.cleared(inc.value) then Some(acc)
    else
      var b := match acc case Stored(v) => rules.decode(v) case Decoded(d) => Some(d);
      var i := rules.decode(inc);
      if b.None? || i.None? then None
      else
        var r := rules.reduce(k, b.value, i.value);
        if r.None? then None else Some(Decoded(r.value))
  }

  function AccFields<V, D>(rules: Rules<V, D>, k: string, acc: Acc<V, D>, deltas: seq<Delta<V>>): Option<Acc<V, D>>
    decreases |deltas|
  {
    if deltas == [] then Some(acc)
    else
      var next := AccField(rules, k, acc, At(deltas[0], k));
      if next.None? then None else AccFields(rules, k, next.value, deltas[1..])
  }

  /** What the accumulator stores at the end of the pass. */
  function Settle<V, D>(rules: Rules<V, D>, acc: Acc<V, D>): Option<Option<V>> {
    match acc
    case Stored(v) => Some(v)
    case Decoded(d) => var e := rules.encode(d); if e.None? then None else Some(e)
  }

  /** The two folds of one field stand in step: the stored value is the encoding of the decoded one. */
  ghost predicate InStep<V, D>(rules: Rules<V, D>, stored: Option<V>, acc: Acc<V, D>) {
    match acc
    case Stored(v) => stored == v
    case Decoded(d) => stored.Some? && rules.encode(d) == stored && rules.decode(stored) == Some(d)
  }

  /** Whatever the pass holds between two members could have been stored there. */
  ghost predicate AlwaysStorable<V, D>(rules: Rules<V, D>, k: string, acc: Acc<V, D>, deltas: seq<Delta<V>>)
    decreases |deltas|
  {
    deltas == []
    || (var next := AccField(rules, k, acc, At(deltas[0], k));
        next.Some? ==> Settle(rules, next.value).Some? && AlwaysStorable(rules, k, next.value, deltas[1..]))
  }

  lemma OneMember<V(!new), D(!new)>(rules: Rules<V, D>, k: string, stored: Option<V>, acc: Acc<V, D>, inc: Option<V>)
    requires RoundTrips(rules) && InStep(rules, stored, acc)
    ensures FoldField(rules, k, stored, inc).Some?
            <==> AccField(rules, k, acc, inc).Some? && Settle(rules, AccField(rules, k, acc, inc).value).Some?
    ensures FoldField(rules, k, stored, inc).Some? ==> InStep(rules, FoldField(rules, k, stored, inc).value, AccField(rules, k, acc, inc).value)
  {
  }

  /**
   Folding the members one by one succeeds exactly when folding them in one pass does and never has to hold
   something that could not have been stored in between; and then both give the same value.
   */
  lemma {:induction false} OnePass<V(!new), D(!new)>(rules: Rules<V, D>, k: string, stored: Option<V>, acc: Acc<V, D>, deltas: seq<Delta<V>>)
    requires RoundTrips(rules) && InStep(rules, stored, acc)
    ensures FoldFields(rules, k, stored, deltas).Some?
            <==> AccFields(rules, k, acc, deltas).Some? && AlwaysStorable(rules, k, acc, deltas)
    ensures FoldFields(rules, k, stored, deltas).Some?
            ==> Settle(rules, AccFields(rules, k, acc, deltas).value) == FoldFields(rules, k, stored, deltas)
    decreases |deltas|
  {
    if deltas != [] {
      var inc := At(deltas[0], k);
      OneMember(rules, k, stored, acc, inc);
      if FoldField(rules, k, stored, inc).Some? {
        OnePass(rules, k, FoldField(rules, k, stored, inc).value, AccField(rules, k, acc, inc).value, deltas[1..]);
      }
    }
  }

  /** Sums of integers. 13 cannot be added, and 5 cannot be encoded. */
  function Sums(): Rules<int, int> {
    Rules((k: string) => true, (v: int) => false, (v: Option<int>) => Some(if v.None? then 0 else v.value),
          (d: int) => if d == 5 then None else Some(d), (k: string, a: int, b: int) => if b == 13 then None else Some(a + b))
  }

  /** Where the two folds part: a sum that passes through what cannot be encoded. */
  lemma FoldsPart()
    ensures RoundTrips(Sums())
    ensures FoldFields(Sums(), "a", Some(1), [map["a" := 4], map["a" := 2]]).None?
    ensures AccFields(Sums(), "a", Stored(Some(1)), [map["a" := 4], map["a" := 2]]) == Some(Decoded(7))
  {
    var deltas: seq<Delta<int>> := [map["a" := 4], map["a" := 2]];
    assert deltas[1..] == [map["a" := 2]] && |deltas[1..][1..]| == 0;
  }

  /**
   MergeReduceAll: one pass over the whole cohort. Replaced fields are written through; combined ones are held
   decoded, and written back at the end - so a failure on the way leaves every combined field as it was.
   */
  method MergeReduceAll<V(!new), D(!new)>(rules: Rules<V, D>, s: Delta<V>, deltas: seq<Delta<V>>) returns (ok: bool, merged: Delta<V>)
    ensures ok <==> forall k :: AccFields(rules, k, Stored(At(s, k)), deltas).Some?
                                && Settle(rules, AccFields(rules, k, Stored(At(s, k)), deltas).value).Some?
    ensures ok ==> forall k :: Some(At(merged, k)) == Settle(rules, AccFields(rules, k, Stored(At(s, k)), deltas).value)
    ensures (exists k :: AccFields(rules, k, Stored(At(s, k)), deltas).None?)
            ==> forall k | rules.combines(k) :: At(merged, k) == At(s, k)
  {
    merged := s;
    var accs: map<string, D> := map[];
    for i := 0 to |deltas|
      invariant forall k :: AccFields(rules, k, Stored(At(s, k)), deltas[..i])
                            == Some(Held((accs, merged), k))
      invariant forall k <- accs :: rules.combines(k)
      invariant forall k | rules.combines(k) :: At(merged, k) == At(s, k)
    {
      var delta := deltas[i];
      assert deltas[..i + 1] == deltas[..i] + [delta];
      ghost var before := (accs, merged);
      var fields := delta.Keys;
      while fields != {}
        invariant fields <= delta.Keys && forall k <- accs :: rules.combines(k)
        invariant forall k | rules.combines(k) :: At(merged, k) == At(s, k)
        invariant forall k :: k in delta && k !in fields ==>
          AccField(rules, k, Held(before, k), At(delta, k)) == Some(Held((accs, merged), k))
        invariant forall k :: k !in delta || k in fields ==> Held((accs, merged), k) == Held(before, k)
      {
        var k :| k in fields;
        fields := fields - {k};
        var held := Held((accs, merged), k);
        var next := AccField(rules, k, held, Some(delta[k]));
        if next.None? {
          OneMore(rules, k, Stored(At(s, k)), deltas[..i], delta);
          Fails(rules, k, Stored(At(s, k)), deltas, i + 1);
          return false, merged;
        }
        match next.value
        case Stored(v) => if v.Some? { merged := merged[k := v.value]; }
        case Decoded(d) => accs := accs[k := d];
      }
      forall k ensures AccFields(rules, k, Stored(At(s, k)), deltas[..i + 1]) == Some(Held((accs, merged), k)) {
        OneMore(rules, k, Stored(At(s, k)), deltas[..i], delta);
      }
    }
    assert deltas[..|deltas|] == deltas;
    ghost var end := (accs, merged);
    ok, merged := WriteBack(rules, merged, accs);
    forall k ensures AccFields(rules, k, Stored(At(s, k)), deltas) == Some(Held(end, k)) {}
  }

  /** A reducer that fails on the second member takes back what the first one brought: 1 stays, where folding gave 3. */
  method FailedFold() returns (ok: bool, merged: Delta<int>)
    ensures !ok && At(merged, "a") == Some(1)
    ensures FoldFields(Sums(), "a", Some(1), [map["a" := 2]]) == Some(Some(3))
  {
    var deltas: seq<Delta<int>> := [map["a" := 2], map["a" := 13]];
    assert deltas[1..] == [map["a" := 13]] && |deltas[1..][1..]| == 0;
    assert AccFields(Sums(), "a", Stored(Some(1)), deltas).None?;
    var s: Delta<int> := map["a" := 1];
    ok, merged := MergeReduceAll(Sums(), s, deltas);
    assert Sums().combines("a") && At(merged, "a") == At(s, "a");
  }

  /** The combined fields encoded back into the state. */
  method WriteBack<V, D>(rules: Rules<V, D>, s: Delta<V>, accs: map<string, D>) returns (ok: bool, merged: Delta<V>)
    ensures ok <==> forall k :: Settle(rules, Held((accs, s), k)).Some?
    ensures ok ==> forall k :: Some(At(merged, k)) == Settle(rules, Held((accs, s), k))
  {
    merged := s;
    var fields := accs.Keys;
    while fields != {}
      invariant fields <= accs.Keys
      invariant forall k :: k in accs && k !in fields ==> Some(At(merged, k)) == Settle(rules, Held((accs, s), k))
      invariant forall k :: k !in accs || k in fields ==> At(merged, k) == At(s, k)
    {
      var k :| k in fields;
      fields := fields - {k};
      var encoded := rules.encode(accs[k]);
      if encoded.None? {
        assert Settle(rules, Held((accs, s), k)).None?;
        return false, merged;
      }
      merged := merged[k := encoded.value];
    }
    ok := true;
    forall k ensures Settle(rules, Held((accs, s), k)).Some? {
      if k in accs { assert Some(At(merged, k)) == Settle(rules, Held((accs, s), k)); }
    }
  }

  function Held<V, D>(state: (map<string, D>, Delta<V>), k: string): Acc<V, D> {
    if k in state.0 then Decoded(state.0[k]) else Stored(At(state.1, k))
  }

  lemma {:induction false} OneMore<V, D>(rules: Rules<V, D>, k: string, acc: Acc<V, D>, deltas: seq<Delta<V>>, delta: Delta<V>)
    ensures AccFields(rules, k, acc, deltas + [delta])
            == var a := AccFields(rules, k, acc, deltas); if a.None? then None else AccField(rules, k, a.value, At(delta, k))
    decreases |deltas|
  {
    if deltas == [] {
      assert ([delta])[1..] == [];
    } else {
      assert (deltas + [delta])[1..] == deltas[1..] + [delta];
      var next := AccField(rules, k, acc, At(deltas[0], k));
      if next.Some? { OneMore(rules, k, next.value, deltas[1..], delta); }
    }
  }

  lemma {:induction false} Fails<V, D>(rules: Rules<V, D>, k: string, acc: Acc<V, D>, deltas: seq<Delta<V>>, i: nat)
    requires i <= |deltas| && AccFields(rules, k, acc, deltas[..i]).None?
    ensures AccFields(rules, k, acc, deltas).None?
    decreases |deltas|
  {
    if i > 0 {
      assert deltas[..i][1..] == deltas[1..][..i - 1];
      var next := AccField(rules, k, acc, At(deltas[0], k));
      if next.Some? { Fails(rules, k, next.value, deltas[1..], i - 1); }
    }
  }
}
