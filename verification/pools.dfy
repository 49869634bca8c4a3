/**
 The fleet's connection budget on one shard. Replicas agree, from one reading of who may dispatch, on how many
 of them do; each dispatcher takes its share of a budget that depends on the shard's size and distance, and
 everyone else holds a small pool. The sum stays within the budget, up to half a connection a dispatcher.
 */
module Pools {
  const BUCKETS: seq<real> := [0.25, 0.5, 1.0, 1.5, 2.0]

  /** Connections per vCPU by distance, one row per measured size. */
  const T1: seq<real> := [3.0, 5.0, 7.0, 9.0, 11.0]
  const T2: seq<real> := [3.0, 6.0, 7.0, 10.0, 11.0]
  const T4: seq<real> := [3.0, 6.0, 6.0, 8.0, 10.0]
  const T8: seq<real> := [5.0, 8.0, 8.0, 11.0, 11.0]
  const T16: seq<real> := [5.0, 7.0, 7.0, 9.0, 9.0]
  const T32: seq<real> := [3.75, 4.7, 5.6, 8.1, 8.75]
  const T64: seq<real> := [2.25, 3.5, 5.0, 6.0, 6.0]

  const SAFETY_MARGIN: real := 1.2
  const MIN_DISPATCHER_POOL: real := 12.0
  const DEFAULT_RTT: real := 0.3
  const READER_OPEN: nat := 2

  /** A size the table answers without blending: a measured one, or one beyond the largest. */
  predicate Tabulated(vcpus: nat) {
    vcpus in {1, 2, 4, 8, 16, 32} || vcpus >= 64
  }

  function RowFor(vcpus: nat): seq<real>
    requires Tabulated(vcpus)
  {
    if vcpus == 1 then T1 else if vcpus == 2 then T2 else if vcpus == 4 then T4 else if vcpus == 8 then T8
    else if vcpus == 16 then T16 else if vcpus == 32 then T32 else T64
  }

  /** A row of five ratios that do not fall with distance. */
  predicate Rising(row: seq<real>) {
    |row| == 5 && 0.0 <= row[0] <= row[1] <= row[2] <= row[3] <= row[4]
  }

  lemma RowsRise(vcpus: nat)
    requires Tabulated(vcpus)
    ensures Rising(RowFor(vcpus))
  {
  }

  function Max(a: int, b: int): int { if a > b then a else b }
  function Min(a: int, b: int): int { if a < b then a else b }

  /** math.Round, for what is not negative. */
  function Round(x: real): int { (x + 0.5).Floor }

  // ----- The ratio at a distance

  /** The stretch of the table between two neighbouring columns. */
  function Between(row: seq<real>, i: nat, rtt: real): real
    requires Rising(row) && 1 <= i < 5
  {
    row[i - 1] + (rtt - BUCKETS[i - 1]) / (BUCKETS[i] - BUCKETS[i - 1]) * (row[i] - row[i - 1])
  }

  function RatioFrom(row: seq<real>, i: nat, rtt: real): real
    requires Rising(row) && 1 <= i <= 5
    decreases 5 - i
  {
    if i == 5 then row[4] else if rtt <= BUCKETS[i] then Between(row, i, rtt) else RatioFrom(row, i + 1, rtt)
  }

  /** Piecewise linear in the distance, flat at both ends. */
  function Ratio(row: seq<real>, rtt: real): real
    requires Rising(row)
  {
    if rtt <= BUCKETS[0] then row[0] else RatioFrom(row, 1, rtt)
  }

  method RatioAtRTT(row: seq<real>, rtt: real) returns (r: real)
    requires Rising(row)
    ensures r == Ratio(row, rtt)
  {
    if rtt <= BUCKETS[0] { return row[0]; }
    for i := 1 to 5
      invariant RatioFrom(row, 1, rtt) == RatioFrom(row, i, rtt)
    {
      if rtt <= BUCKETS[i] { return Between(row, i, rtt); }
    }
    return row[4];
  }

  /** A fraction of a rise lies within it, and grows with the fraction. */
  lemma Fraction(f: real, g: real, rise: real)
    requires 0.0 <= f <= g <= 1.0 && rise >= 0.0
    ensures 0.0 <= f * rise <= g * rise <= rise
  {
    assert (g - f) * rise >= 0.0;
    assert (1.0 - g) * rise >= 0.0;
    assert f * rise >= 0.0;
  }

  lemma BetweenRises(row: seq<real>, i: nat, a: real, b: real)
    requires Rising(row) && 1 <= i < 5 && BUCKETS[i - 1] <= a <= b <= BUCKETS[i]
    ensures row[i - 1] <= Between(row, i, a) <= Between(row, i, b) <= row[i]
  {
    SlopeRises(BUCKETS[i - 1], BUCKETS[i] - BUCKETS[i - 1], row[i - 1], row[i], a, b);
  }

  /** Along one straight stretch. */
  lemma SlopeRises(lo: real, span: real, r0: real, r1: real, a: real, b: real)
    requires span > 0.0 && lo <= a <= b <= lo + span && r0 <= r1
    ensures r0 <= r0 + (a - lo) / span * (r1 - r0) <= r0 + (b - lo) / span * (r1 - r0) <= r1
  {
    Quotient(a - lo, span);
    Quotient(b - lo, span);
    Quotient(b - a, span);
    assert (b - lo) / span == (a - lo) / span + (b - a) / span;
    Fraction((a - lo) / span, (b - lo) / span, r1 - r0);
  }

  lemma Quotient(x: real, span: real)
    requires 0.0 <= x <= span && span > 0.0
    ensures 0.0 <= x / span <= 1.0
  {
    assert x / span * span == x;
  }

  lemma {:induction false} FromRises(row: seq<real>, i: nat, a: real, b: real)
    requires Rising(row) && 1 <= i <= 5 && BUCKETS[i - 1] <= a <= b
    ensures row[i - 1] <= RatioFrom(row, i, a) <= RatioFrom(row, i, b) <= row[4]
    decreases 5 - i
  {
    if i < 5 {
      if b <= BUCKETS[i] {
        BetweenRises(row, i, a, b);
      } else if a <= BUCKETS[i] {
        BetweenRises(row, i, a, BUCKETS[i]);
        FromRises(row, i + 1, BUCKETS[i], b);
      } else {
        FromRises(row, i + 1, a, b);
      }
    }
  }

  /** The ratio never falls as the database moves away. */
  lemma RatioRises(row: seq<real>, a: real, b: real)
    requires Rising(row) && a <= b
    ensures row[0] <= Ratio(row, a) <= Ratio(row, b) <= row[4]
  {
    if BUCKETS[0] < b { FromRises(row, 1, if a < BUCKETS[0] then BUCKETS[0] else a, b); }
  }

  lemma {:induction false} FromIn(row: seq<real>, k: nat, i: nat, rtt: real)
    requires Rising(row) && 1 <= k <= i < 5 && BUCKETS[i - 1] < rtt <= BUCKETS[i]
    ensures RatioFrom(row, k, rtt) == Between(row, i, rtt)
    decreases i - k
  {
    if k < i { FromIn(row, k + 1, i, rtt); }
  }

  lemma InStretch(row: seq<real>, i: nat, rtt: real)
    requires Rising(row) && 1 <= i < 5 && BUCKETS[i - 1] <= rtt <= BUCKETS[i]
    ensures Ratio(row, rtt) == Between(row, i, rtt)
  {
    if BUCKETS[i - 1] < rtt {
      FromIn(row, 1, i, rtt);
    } else if i > 1 {
      FromIn(row, 1, i - 1, rtt);
    }
  }

  /** At a measured distance the ratio is the measured one, and beyond the table's ends that of the end. */
  lemma RatioMeasured(row: seq<real>, i: nat, rtt: real)
    requires Rising(row) && i < 5
    ensures Ratio(row, BUCKETS[i]) == row[i]
    ensures rtt <= BUCKETS[0] ==> Ratio(row, rtt) == row[0]
    ensures rtt >= BUCKETS[4] ==> Ratio(row, rtt) == row[4]
  {
    if i > 0 { InStretch(row, i, BUCKETS[i]); }
    InStretch(row, 4, BUCKETS[4]);
  }

  /** Between two measured distances it rises in proportion to the distance. */
  lemma RatioInProportion(row: seq<real>, i: nat, a: real, b: real)
    requires Rising(row) && 1 <= i < 5 && BUCKETS[i - 1] <= a <= b <= BUCKETS[i]
    ensures (Ratio(row, b) - Ratio(row, a)) * (BUCKETS[i] - BUCKETS[i - 1]) == (b - a) * (row[i] - row[i - 1])
  {
    InStretch(row, i, a);
    InStretch(row, i, b);
    Proportion(a - BUCKETS[i - 1], b - BUCKETS[i - 1], BUCKETS[i] - BUCKETS[i - 1], row[i] - row[i - 1]);
  }

  lemma Proportion(a: real, b: real, span: real, rise: real)
    requires span > 0.0
    ensures (b / span * rise - a / span * rise) * span == (b - a) * rise
  {
    assert b / span * rise * span == b * rise;
    assert a / span * rise * span == a * rise;
  }

  // ----- Budget, slots and pools

  /** The ratio scaled up to the whole shard, with its margin. */
  function Connections(ratio: real, vcpus: nat): int { (ratio * SAFETY_MARGIN * vcpus as real).Floor }

  /** shardBudget, from the row of the table that applies. */
  function RowBudget(row: seq<real>, vcpus: nat, rtt: real): int
    requires Rising(row)
  {
    Max(2, Connections(Ratio(row, rtt), vcpus))
  }

  function Budget(vcpus: nat, rtt: real): int
    requires Tabulated(vcpus)
  {
    RowsRise(vcpus);
    RowBudget(RowFor(vcpus), vcpus, rtt)
  }

  /** dispatcherSlots. */
  function Slots(vcpus: nat, candidates: int): int
    requires Tabulated(vcpus)
  {
    var c := Max(1, candidates);
    var want := Round(Budget(vcpus, DEFAULT_RTT) as real / MIN_DISPATCHER_POOL);
    Min(c, Max(want, Min(2, c)))
  }

  /** shardPool's open connections, without an override. */
  function Open(vcpus: nat, slots: int, rtt: real): int
    requires Tabulated(vcpus)
  {
    if slots <= 0 then READER_OPEN else Max(2, Round(Budget(vcpus, rtt) as real / slots as real))
  }

  /** slotsOn: a replica's role. Rank -1 is a replica that may not dispatch. */
  function Role(vcpus: nat, rank: int, candidates: int): int
    requires Tabulated(vcpus)
  {
    if rank < 0 then 0
    else
      var slots := Slots(vcpus, candidates);
      if rank >= slots then 0 else slots
  }

  lemma SlotsFit(vcpus: nat, candidates: int)
    requires Tabulated(vcpus) && candidates >= 1
    ensures 1 <= Slots(vcpus, candidates) <= candidates
    ensures candidates >= 2 ==> Slots(vcpus, candidates) >= 2
  {
  }

  lemma Scaled(a: real, b: real, v: nat)
    requires 0.0 <= a <= b
    ensures a * v as real <= b * v as real && 0.0 <= a * v as real
  {
    assert (b - a) * v as real >= 0.0;
    assert a * v as real >= 0.0;
  }

  /** The budget never falls with distance. */
  lemma BudgetRises(vcpus: nat, a: real, b: real)
    requires Tabulated(vcpus) && a <= b
    ensures 2 <= Budget(vcpus, a) <= Budget(vcpus, b)
  {
    RowsRise(vcpus);
    BudgetIs(vcpus, a);
    BudgetIs(vcpus, b);
    RaisedBudget(RowFor(vcpus), vcpus, a, b);
  }

  lemma RaisedBudget(row: seq<real>, vcpus: nat, a: real, b: real)
    requires Rising(row) && a <= b
    ensures 2 <= RowBudget(row, vcpus, a) <= RowBudget(row, vcpus, b)
  {
    RatioRises(row, a, b);
    RaisedRatio(row, vcpus, a, b);
  }

  lemma RaisedRatio(row: seq<real>, vcpus: nat, a: real, b: real)
    requires Rising(row) && 0.0 <= Ratio(row, a) <= Ratio(row, b)
    ensures 2 <= RowBudget(row, vcpus, a) <= RowBudget(row, vcpus, b)
  {
    FloorRises(Ratio(row, a), Ratio(row, b), vcpus);
    MaxRises(Connections(Ratio(row, a), vcpus), Connections(Ratio(row, b), vcpus));
  }

  lemma MaxRises(a: int, b: int)
    requires a <= b
    ensures 2 <= Max(2, a) <= Max(2, b)
  {
  }

  lemma BudgetIs(vcpus: nat, rtt: real)
    requires Tabulated(vcpus) && Rising(RowFor(vcpus))
    ensures Budget(vcpus, rtt) == RowBudget(RowFor(vcpus), vcpus, rtt)
  {
  }

  lemma FloorRises(a: real, b: real, vcpus: nat)
    requires 0.0 <= a <= b
    ensures Connections(a, vcpus) <= Connections(b, vcpus)
  {
    Scaled(a * SAFETY_MARGIN, b * SAFETY_MARGIN, vcpus);
    FloorsOrdered(a * SAFETY_MARGIN * vcpus as real, b * SAFETY_MARGIN * vcpus as real);
  }

  lemma FloorsOrdered(x: real, y: real)
    requires x <= y
    ensures x.Floor <= y.Floor
  {
  }

  lemma NearBudget(vcpus: nat, rtt: real)
    requires Tabulated(vcpus)
    ensures Budget(vcpus, rtt) >= Budget(vcpus, 0.0)
  {
    if rtt >= 0.0 {
      BudgetRises(vcpus, 0.0, rtt);
    } else {
      RowsRise(vcpus);
    }
  }

  /** Even next to the database, a dispatcher's share is at least one and a half connections. */
  lemma ShareBigEnough(vcpus: nat, candidates: int)
    requires Tabulated(vcpus) && candidates >= 1
    ensures 2 * Budget(vcpus, 0.0) >= 3 * Slots(vcpus, candidates)
  {
    var row := RowFor(vcpus);
    RowsRise(vcpus);
    assert Ratio(row, DEFAULT_RTT) == row[0] + 0.2 * (row[1] - row[0]);
    assert Ratio(row, 0.0) == row[0];
    if vcpus >= 64 { LargeShare(vcpus, candidates); }
  }

  lemma LargeShare(vcpus: nat, candidates: int)
    requires vcpus >= 64 && candidates >= 1
    requires Ratio(T64, DEFAULT_RTT) == 2.5 && Ratio(T64, 0.0) == 2.25
    ensures 2 * Budget(vcpus, 0.0) >= 3 * Slots(vcpus, candidates)
  {
    var near, far := Budget(vcpus, 0.0), Budget(vcpus, DEFAULT_RTT);
    assert 2.25 * SAFETY_MARGIN * vcpus as real == 2.7 * vcpus as real;
    assert 2.5 * SAFETY_MARGIN * vcpus as real == 3.0 * vcpus as real;
    assert near as real > 2.7 * vcpus as real - 1.0;
    assert far as real <= 3.0 * vcpus as real;
    var want := Round(far as real / MIN_DISPATCHER_POOL);
    assert want as real <= far as real / 12.0 + 0.5;
    assert want as real <= 0.25 * vcpus as real + 0.5;
    assert Slots(vcpus, candidates) <= Max(want, 2);
  }

  /** The dispatchers' pools together stay within half a connection each of the budget. */
  lemma DispatchersFit(vcpus: nat, candidates: int, rtt: real)
    requires Tabulated(vcpus) && candidates >= 1
    ensures var s := Slots(vcpus, candidates);
            2 * s * Open(vcpus, s, rtt) <= 2 * Budget(vcpus, rtt) + s
  {
    var s, b := Slots(vcpus, candidates), Budget(vcpus, rtt);
    SlotsFit(vcpus, candidates);
    NearBudget(vcpus, rtt);
    ShareBigEnough(vcpus, candidates);
    ShareOf(b, s);
  }

  /**
   When one more dispatcher is admitted: while there are candidates, the first two always, and every further one as long
   as the budget has twelve connections for each, give or take half a share.
   */
  lemma SlotAdmitted(vcpus: nat, candidates: int, n: int)
    requires Tabulated(vcpus) && candidates >= 1 && n >= 1
    ensures n <= Slots(vcpus, candidates) <==> n <= candidates && (n <= 2 || Budget(vcpus, DEFAULT_RTT) >= 12 * n - 6)
  {
    var b := Budget(vcpus, DEFAULT_RTT);
    RoundAtLeast(b, n);
  }

  lemma RoundAtLeast(b: int, n: int)
    ensures Round(b as real / MIN_DISPATCHER_POOL) >= n <==> b >= 12 * n - 6
  {
    var x := b as real / 12.0;
    assert x * 12.0 == b as real;
    if b >= 12 * n - 6 {
      assert b as real >= (12 * n - 6) as real;
      assert x + 0.5 >= n as real;
    } else {
      assert b as real <= (12 * n - 7) as real;
      assert x + 0.5 < n as real;
    }
  }

  /** A dispatcher's pool is the whole number nearest to its share of the budget. */
  lemma NearestShare(vcpus: nat, candidates: int, rtt: real)
    requires Tabulated(vcpus) && candidates >= 1
    ensures var s := Slots(vcpus, candidates);
            2 * Budget(vcpus, rtt) - s < 2 * s * Open(vcpus, s, rtt) <= 2 * Budget(vcpus, rtt) + s
  {
    DispatchersFit(vcpus, candidates, rtt);
    SlotsFit(vcpus, candidates);
    OpenAtLeast(vcpus, Slots(vcpus, candidates), rtt);
  }

  lemma OpenAtLeast(vcpus: nat, s: int, rtt: real)
    requires Tabulated(vcpus) && s >= 1
    ensures 2 * s * Open(vcpus, s, rtt) > 2 * Budget(vcpus, rtt) - s
  {
    var b := Budget(vcpus, rtt);
    ShareNotLess(b, s);
    Bigger(s, Round(b as real / s as real), Open(vcpus, s, rtt));
  }

  lemma Bigger(s: int, a: int, b: int)
    requires s >= 1 && a <= b
    ensures 2 * s * a <= 2 * s * b
  {
    assert s * (b - a) >= 0;
  }

  lemma ShareNotLess(b: int, s: int)
    requires s >= 1
    ensures 2 * s * Round(b as real / s as real) > 2 * b - s
  {
    var share := b as real / s as real;
    assert share * s as real == b as real;
    RoundNear(share);
    MoreThanShare(b, s, share, Round(share));
  }

  lemma MoreThanShare(b: int, s: int, share: real, r: int)
    requires s >= 1 && share * s as real == b as real && share - 0.5 < r as real
    ensures 2 * s * r > 2 * b - s
  {
    var d := r as real - (share - 0.5);
    assert d * s as real > 0.0;
    assert r as real * s as real == share * s as real - 0.5 * s as real + d * s as real;
    assert (r * s) as real == r as real * s as real;
    assert (2 * (r * s)) as real > (2 * b - s) as real;
    assert 2 * s * r == 2 * (r * s);
  }

  /** From the third dispatcher on, each holds a pool worth running workers on: ten connections at least, at the usual distance and beyond. */
  lemma PoolWorthRunning(vcpus: nat, candidates: int, rtt: real)
    requires Tabulated(vcpus) && candidates >= 1 && Slots(vcpus, candidates) >= 3 && rtt >= DEFAULT_RTT
    ensures Open(vcpus, Slots(vcpus, candidates), rtt) >= 10
  {
    var s := Slots(vcpus, candidates);
    SlotAdmitted(vcpus, candidates, s);
    BudgetRises(vcpus, DEFAULT_RTT, rtt);
    NearestShare(vcpus, candidates, rtt);
    TenEach(s, Open(vcpus, s, rtt), Budget(vcpus, rtt));
  }

  lemma TenEach(s: int, open: int, b: int)
    requires s >= 3 && b >= 12 * s - 6 && 2 * b - s < 2 * s * open
    ensures open >= 10
  {
    AtMostNine(s, open);
  }

  lemma AtMostNine(s: int, open: int)
    requires s >= 0
    ensures open <= 9 ==> 2 * s * open <= 18 * s
  {
    if open <= 9 { assert s * (9 - open) >= 0; }
  }

  lemma RoundNear(x: real)
    ensures x - 0.5 < Round(x) as real <= x + 0.5
  {
  }

  lemma ShareOf(b: int, s: int)
    requires s >= 1 && 2 * b >= 3 * s
    ensures Round(b as real / s as real) >= 2
    ensures 2 * s * Round(b as real / s as real) <= 2 * b + s
  {
    ShareRounds(b, s, b as real / s as real, Round(b as real / s as real));
  }

  lemma ShareRounds(b: int, s: int, share: real, r: int)
    requires s >= 1 && 2 * b >= 3 * s && share * s as real == b as real && r == Round(share)
    ensures r >= 2 && 2 * s * r <= 2 * b + s
  {
    RoundNear(share);
    HalfAgain(b, s);
    ShareOfReals(b as real, s as real, share, r as real);
    WholeTotal(b, s, r);
  }

  lemma HalfAgain(b: int, s: int)
    requires 2 * b >= 3 * s
    ensures 2.0 * b as real >= 3.0 * s as real
  {
    assert (2 * b) as real >= (3 * s) as real;
  }

  lemma ShareOfReals(b: real, s: real, share: real, r: real)
    requires s >= 1.0 && 2.0 * b >= 3.0 * s && share * s == b && share - 0.5 < r <= share + 0.5
    ensures r > 1.0 && 2.0 * (r * s) <= 2.0 * b + s
  {
    AtLeast(share, s, 1.5);
    Times(r, share + 0.5, s);
    assert (share + 0.5) * s == share * s + 0.5 * s;
  }

  lemma WholeTotal(b: int, s: int, r: int)
    requires 2.0 * (r as real * s as real) <= 2.0 * b as real + s as real
    ensures 2 * s * r <= 2 * b + s
  {
    assert (r * s) as real == r as real * s as real;
    assert (2 * (r * s)) as real <= (2 * b + s) as real;
    assert 2 * s * r == 2 * (r * s);
  }

  lemma AtLeast(q: real, s: real, k: real)
    requires s > 0.0 && q * s >= k * s
    ensures q >= k
  {
  }

  lemma Times(a: real, b: real, s: real)
    requires a <= b && s >= 0.0
    ensures a * s <= b * s
  {
    assert (b - a) * s >= 0.0;
  }

  // ----- The fleet

  /** One reading of the registry: the candidates hold the ranks 0 to C - 1, everybody else holds none. */
  ghost predicate OneReading(ranks: seq<int>, candidates: nat) {
    && (forall i :: 0 <= i < |ranks| ==> -1 <= ranks[i] < candidates)
    && (forall i, j :: 0 <= i < j < |ranks| && ranks[i] >= 0 ==> ranks[i] != ranks[j])
    && (forall r :: 0 <= r < candidates ==> r in ranks)
  }

  /** How many replicas dispatch. */
  function Dispatching(vcpus: nat, ranks: seq<int>, candidates: int): nat
    requires Tabulated(vcpus)
  {
    if ranks == [] then 0
    else (if Role(vcpus, ranks[0], candidates) > 0 then 1 else 0) + Dispatching(vcpus, ranks[1..], candidates)
  }

  /** What the whole fleet may hold open. */
  function FleetOpen(vcpus: nat, ranks: seq<int>, candidates: int, rtt: real): int
    requires Tabulated(vcpus)
  {
    if ranks == [] then 0
    else Open(vcpus, Role(vcpus, ranks[0], candidates), rtt) + FleetOpen(vcpus, ranks[1..], candidates, rtt)
  }

  function CountBelow(ranks: seq<int>, k: int): nat {
    if ranks == [] then 0 else (if 0 <= ranks[0] < k then 1 else 0) + CountBelow(ranks[1..], k)
  }

  function CountAt(ranks: seq<int>, k: int): nat {
    if ranks == [] then 0 else (if ranks[0] == k then 1 else 0) + CountAt(ranks[1..], k)
  }

  lemma {:induction false} CountSteps(ranks: seq<int>, k: nat)
    ensures CountBelow(ranks, k + 1) == CountBelow(ranks, k) + CountAt(ranks, k)
    ensures CountBelow(ranks, 0) == 0
    decreases |ranks|
  {
    if ranks != [] { CountSteps(ranks[1..], k); }
  }

  lemma {:induction false} CountNone(ranks: seq<int>, k: int)
    requires k !in ranks
    ensures CountAt(ranks, k) == 0
    decreases |ranks|
  {
    if ranks != [] {
      assert ranks[0] in ranks;
      assert forall x <- ranks[1..] :: x in ranks;
      CountNone(ranks[1..], k);
    }
  }

  lemma {:induction false} CountOne(ranks: seq<int>, i: nat)
    requires i < |ranks| && forall j :: 0 <= j < |ranks| && j != i ==> ranks[j] != ranks[i]
    ensures CountAt(ranks, ranks[i]) == 1
    decreases |ranks|
  {
    if i == 0 {
      CountNone(ranks[1..], ranks[0]);
    } else {
      CountOne(ranks[1..], i - 1);
    }
  }

  lemma {:induction false} CountIs(ranks: seq<int>, candidates: nat, k: nat)
    requires OneReading(ranks, candidates) && k <= candidates
    ensures CountBelow(ranks, k) == k
    decreases k
  {
    if k > 0 {
      CountIs(ranks, candidates, k - 1);
      CountSteps(ranks, k - 1);
      assert (k - 1) as int in ranks;
      var i :| 0 <= i < |ranks| && ranks[i] == k - 1;
      CountOne(ranks, i);
    } else {
      CountSteps(ranks, 0);
    }
  }

  /** What a replica holds open: its dispatcher's share, or a reader's pool. */
  lemma HoldsOpen(vcpus: nat, rank: int, candidates: int, rtt: real)
    requires Tabulated(vcpus) && candidates >= 1
    ensures var s := Slots(vcpus, candidates);
            && (Role(vcpus, rank, candidates) > 0 <==> 0 <= rank < s)
            && Open(vcpus, Role(vcpus, rank, candidates), rtt) == if 0 <= rank < s then Open(vcpus, s, rtt) else READER_OPEN
  {
    SlotsFit(vcpus, candidates);
  }

  lemma OneMore(n: int, open: int)
    ensures (n + 1) * open == n * open + open
  {
  }

  lemma {:induction false} FleetSum(vcpus: nat, ranks: seq<int>, candidates: int, rtt: real, s: int, open: int)
    requires Tabulated(vcpus) && candidates >= 1 && s == Slots(vcpus, candidates) && open == Open(vcpus, s, rtt)
    ensures Dispatching(vcpus, ranks, candidates) == CountBelow(ranks, s) <= |ranks|
    ensures FleetOpen(vcpus, ranks, candidates, rtt)
            == CountBelow(ranks, s) * open + READER_OPEN * (|ranks| - CountBelow(ranks, s))
    decreases |ranks|
  {
    if ranks != [] {
      FleetSum(vcpus, ranks[1..], candidates, rtt, s, open);
      HoldsOpen(vcpus, ranks[0], candidates, rtt);
      OneMore(CountBelow(ranks[1..], s), open);
    }
  }

  /**
   With one agreed reading of the candidates, exactly `Slots` replicas dispatch - at least two as soon as there
   are two - and the fleet's pools together come to at most the budget, half a connection for each dispatcher, and
   the readers' two each. checkFleetFits' estimate is the budget plus the readers' part.
   */
  lemma FleetFits(vcpus: nat, ranks: seq<int>, candidates: nat, rtt: real)
    requires Tabulated(vcpus) && candidates >= 1 && OneReading(ranks, candidates)
    ensures var s := Slots(vcpus, candidates);
            && Dispatching(vcpus, ranks, candidates) == s <= |ranks|
            && (candidates >= 2 ==> s >= 2)
            && 2 * FleetOpen(vcpus, ranks, candidates, rtt)
               <= 2 * Budget(vcpus, rtt) + s + 2 * READER_OPEN * (|ranks| - s)
  {
    var s := Slots(vcpus, candidates);
    SlotsFit(vcpus, candidates);
    CountIs(ranks, candidates, s);
    FleetSum(vcpus, ranks, candidates, rtt, s, Open(vcpus, s, rtt));
    DispatchersFit(vcpus, candidates, rtt);
    Doubled(s, Open(vcpus, s, rtt), |ranks|);
  }

  lemma Doubled(s: int, open: int, n: int)
    ensures 2 * (s * open + READER_OPEN * (n - s)) == 2 * s * open + 2 * READER_OPEN * (n - s)
  {
  }
}
