/** The List cursor as text: `shard=flow` pairs, joined by commas, and back. */
module Cursors {
  datatype Option<+T> = None | Some(value: T)

  /** The range of the integers a cursor may hold. */
  const MAX_INT: int := 0x7FFF_FFFF_FFFF_FFFF

  // ----- Numbers

  predicate Digit(c: char) { '0' <= c <= '9' }

  function DigitOf(n: nat): char
    requires n < 10
    ensures Digit(DigitOf(n)) && ValueOf(DigitOf(n)) == n
  {
    '0' + n as char
  }

  function ValueOf(c: char): nat
    requires Digit(c)
  {
    (c - '0') as nat
  }

  predicate AllDigits(s: string) { forall c <- s :: Digit(c) }

  /** strconv.Itoa, for what is never negative. */
  function Itoa(n: nat): (s: string)
    ensures |s| > 0 && AllDigits(s)
    decreases n
  {
    if n < 10 then [DigitOf(n)] else Itoa(n / 10) + [DigitOf(n % 10)]
  }

  function Digits(s: string): nat
    requires AllDigits(s)
    decreases |s|
  {
    if s == "" then 0 else 10 * Digits(s[..|s| - 1]) + ValueOf(s[|s| - 1])
  }

  /** strconv.Atoi: an optional sign and at least one digit, within range. */
  function Atoi(s: string): Option<int> {
    var signed := s != "" && (s[0] == '-' || s[0] == '+');
    var body := if signed then s[1..] else s;
    if body == "" || !AllDigits(body) then None
    else
      var v := if signed && s[0] == '-' then -(Digits(body) as int) else Digits(body);
      if -MAX_INT - 1 <= v <= MAX_INT then Some(v) else None
  }

  lemma {:induction false} DigitsBack(n: nat)
    ensures Digits(Itoa(n)) == n
    decreases n
  {
    var s := Itoa(n);
    if n >= 10 {
      DigitsBack(n / 10);
      assert s[..|s| - 1] == Itoa(n / 10);
    }
  }

  lemma NumberBack(n: nat)
    requires n <= MAX_INT
    ensures Atoi(Itoa(n)) == Some(n)
  {
    DigitsBack(n);
    var s := Itoa(n);
    assert s[0] in s;
  }

  // ----- Text

  predicate Free(s: string, c: char) { forall i :: 0 <= i < |s| ==> s[i] != c }

  /** strings.Cut at the first separator. */
  function Cut(s: string, c: char): Option<(string, string)> {
    if s == "" then None
    else if s[0] == c then Some(("", s[1..]))
    else
      match Cut(s[1..], c)
      case None => None
      case Some(r) => Some(([s[0]] + r.0, r.1))
  }

  lemma {:induction false} CutAt(a: string, c: char, b: string)
    requires Free(a, c)
    ensures Cut(a + [c] + b, c) == Some((a, b))
    decreases |a|
  {
    if a == "" {
      assert ("" + [c] + b)[1..] == b;
    } else {
      assert (a + [c] + b)[1..] == a[1..] + [c] + b;
      assert (a + [c] + b)[0] == a[0];
      CutAt(a[1..], c, b);
      assert [a[0]] + a[1..] == a;
    }
  }

  lemma {:induction false} NoCut(a: string, c: char)
    requires Free(a, c)
    ensures Cut(a, c) == None
    decreases |a|
  {
    if a != "" {
      NoCut(a[1..], c);
    }
  }

  lemma {:induction false} CutShortens(s: string, c: char)
    ensures Cut(s, c).Some? ==> |Cut(s, c).value.1| < |s|
    decreases |s|
  {
    if s != "" && s[0] != c { CutShortens(s[1..], c); }
  }

  /** strings.Split. */
  function Split(s: string, c: char): seq<string>
    decreases |s|
  {
    match Cut(s, c)
    case None => [s]
    case Some(r) => CutShortens(s, c); [r.0] + Split(r.1, c)
  }

  function Join(parts: seq<string>, c: char): string {
    if parts == [] then "" else if |parts| == 1 then parts[0] else parts[0] + [c] + Join(parts[1..], c)
  }

  lemma {:induction false} SplitJoined(parts: seq<string>, c: char)
    requires parts != [] && forall p <- parts :: Free(p, c)
    ensures Split(Join(parts, c), c) == parts
    decreases |parts|
  {
    assert parts[0] in parts;
    if |parts| == 1 {
      NoCut(parts[0], c);
    } else {
      CutAt(parts[0], c, Join(parts[1..], c));
      SplitJoined(parts[1..], c);
    }
  }

  // ----- The cursor

  type Cursor = map<int, int>

  function Pair(s: nat, fid: nat): string { Itoa(s) + "=" + Itoa(fid) }

  function Pairs(order: seq<nat>, c: map<nat, nat>): (r: seq<string>)
    requires forall s <- order :: s in c
    ensures |r| == |order|
  {
    if order == [] then [] else [Pair(order[0], c[order[0]])] + Pairs(order[1..], c)
  }

  /** One `shard=flow` part; None when it is malformed. */
  function ParsePart(part: string): Option<(int, int)> {
    match Cut(part, '=')
    case None => None
    case Some(r) =>
      var s, f := Atoi(r.0), Atoi(r.1);
      if s.None? || f.None? || s.value < 1 then None else Some((s.value, f.value))
  }

  function ParseParts(parts: seq<string>, c: Cursor): Option<Cursor>
    decreases |parts|
  {
    if parts == [] then Some(c)
    else
      match ParsePart(parts[0])
      case None => None
      case Some(p) => ParseParts(parts[1..], c[p.0 := p.1])
  }

  /** Reading a cursor: no cursor at all is the empty one, a malformed one is an error. */
  function Parse(text: string): Option<Cursor> {
    if text == "" then Some(map[]) else ParseParts(Split(text, ','), map[])
  }

  method ParseCursor(text: string) returns (r: Option<Cursor>)
    ensures r == Parse(text)
  {
    var perShard: Cursor := map[];
    if text == "" { return Some(perShard); }
    var parts := Split(text, ',');
    for i := 0 to |parts|
      invariant ParseParts(parts, map[]) == ParseParts(parts[i..], perShard)
    {
      var cut := Cut(parts[i], '=');
      if cut.None? { return None; }
      var s, f := Atoi(cut.value.0), Atoi(cut.value.1);
      if s.None? || f.None? || s.value < 1 { return None; }
      perShard := perShard[s.value := f.value];
    }
    return Some(perShard);
  }

  lemma DigitsFree(s: string, c: char)
    requires AllDigits(s) && !Digit(c)
    ensures Free(s, c)
  {
    forall i | 0 <= i < |s| ensures s[i] != c { assert s[i] in s; }
  }

  lemma PairBack(s: nat, fid: nat)
    requires 1 <= s <= MAX_INT && fid <= MAX_INT
    ensures ParsePart(Pair(s, fid)) == Some((s, fid)) && Free(Pair(s, fid), ',')
  {
    DigitsFree(Itoa(s), '=');
    DigitsFree(Itoa(s), ',');
    DigitsFree(Itoa(fid), ',');
    CutAt(Itoa(s), '=', Itoa(fid));
    NumberBack(s);
    NumberBack(fid);
    assert Itoa(s) + ['='] + Itoa(fid) == Pair(s, fid);
  }

  /** A part is a shard and a flow, both numbers, the shard at least 1; any other text is malformed. */
  lemma PartIs(a: string, b: string, part: string)
    requires Free(a, '=')
    ensures ParsePart(a + ['='] + b)
            == if Atoi(a).Some? && Atoi(b).Some? && Atoi(a).value >= 1 then Some((Atoi(a).value, Atoi(b).value)) else None
    ensures Free(part, '=') ==> ParsePart(part) == None
  {
    CutAt(a, '=', b);
    if Free(part, '=') { NoCut(part, '='); }
  }

  /** A sign may come first; nothing else but digits may. */
  lemma Signed(n: nat)
    requires n <= MAX_INT
    ensures Atoi("-" + Itoa(n)) == Some(0 - n as int) && Atoi("+" + Itoa(n)) == Some(n) && Atoi("") == None && Atoi("-") == None
    ensures forall s: string, c: char | !Digit(c) && c != '-' && c != '+' :: Atoi([c] + s) == None
  {
    DigitsBack(n);
    assert ("-" + Itoa(n))[1..] == Itoa(n) && ("+" + Itoa(n))[1..] == Itoa(n);
    forall s: string, c: char | !Digit(c) && c != '-' && c != '+' ensures Atoi([c] + s) == None {
      assert c in [c] + s;
    }
  }

  lemma {:induction false} PartsFail(parts: seq<string>, c: Cursor)
    ensures ParseParts(parts, c).None? <==> exists p <- parts :: ParsePart(p).None?
    decreases |parts|
  {
    if parts != [] {
      assert parts[0] in parts;
      var p := ParsePart(parts[0]);
      if p.Some? {
        PartsFail(parts[1..], c[p.value.0 := p.value.1]);
        forall q | q in parts ensures q == parts[0] || q in parts[1..] {}
        forall q | q in parts[1..] ensures q in parts {}
      }
    }
  }

  /** A cursor is refused exactly if it is not empty and one of its parts is malformed. */
  lemma ParseFails(text: string)
    ensures Parse(text).None? <==> text != "" && exists p <- Split(text, ',') :: ParsePart(p).None?
  {
    PartsFail(Split(text, ','), map[]);
  }

  predicate Encodable(c: map<nat, nat>) {
    forall s <- c :: 1 <= s <= MAX_INT && c[s] <= MAX_INT
  }

  lemma {:induction false} PairsBack(order: seq<nat>, c: map<nat, nat>, acc: Cursor)
    requires Encodable(c) && forall s <- order :: s in c
    ensures forall p <- Pairs(order, c) :: Free(p, ',')
    ensures ParseParts(Pairs(order, c), acc).Some?
    ensures forall s: int :: s in ParseParts(Pairs(order, c), acc).value <==> s in acc || (s >= 0 && (s as nat) in order)
    ensures forall s: int :: s in ParseParts(Pairs(order, c), acc).value ==>
              ParseParts(Pairs(order, c), acc).value[s] == if s >= 0 && (s as nat) in order then c[s as nat] else acc[s]
    decreases |order|
  {
    if order != [] {
      var s0 := order[0];
      PairBack(s0, c[s0]);
      PairsBack(order[1..], c, acc[s0 := c[s0]]);
      assert Pairs(order, c)[1..] == Pairs(order[1..], c);
      assert forall s :: s in order <==> s == s0 || s in order[1..];
    }
  }

  /** Reading the text back gives the per-shard map c. */
  ghost predicate ReadsAs(text: string, c: map<nat, nat>) {
    var r := Parse(text);
    r.Some? && (forall s :: s in r.value.Keys <==> s >= 0 && (s as nat) in c) && forall s <- c :: r.value[s] == c[s]
  }

  /** The cursor a page ends with, read back, is the same per-shard map. */
  lemma CursorBack(order: seq<nat>, c: map<nat, nat>)
    requires Encodable(c) && order != [] && forall s :: s in order <==> s in c
    ensures ReadsAs(Join(Pairs(order, c), ','), c)
  {
    PairsBack(order, c, map[]);
    SplitJoined(Pairs(order, c), ',');
    var text := Join(Pairs(order, c), ',');
    assert |text| >= |Pairs(order, c)[0]| > 0;
  }

  method SortedShards(c: map<nat, nat>) returns (shards: seq<nat>)
    ensures forall s :: s in shards <==> s in c
    ensures forall i, j :: 0 <= i < j < |shards| ==> shards[i] < shards[j]
  {
    shards := [];
    var left := c.Keys;
    while left != {}
      invariant left <= c.Keys && (forall s :: s in shards <==> s in c && s !in left)
      invariant forall i, j :: 0 <= i < j < |shards| ==> shards[i] < shards[j]
      invariant forall i, l :: 0 <= i < |shards| && l in left ==> shards[i] < l
    {
      var least := Least(left);
      left := left - {least};
      shards := shards + [least];
    }
  }

  /** The shards of a cursor in ascending order. */
  ghost predicate InOrder(order: seq<nat>, c: map<nat, nat>) {
    (forall s :: s in order <==> s in c) && forall i, j :: 0 <= i < j < |order| ==> order[i] < order[j]
  }

  /** Writing a cursor, the shards in ascending order, so that it reads back as it was. */
  method EncodeCursor(c: map<nat, nat>) returns (text: string)
    ensures exists order :: InOrder(order, c) && text == Join(Pairs(order, c), ',')
    ensures Encodable(c) && c != map[] ==> ReadsAs(text, c)
  {
    var shards := SortedShards(c);
    text := "";
    for i := 0 to |shards|
      invariant text == Join(Pairs(shards, c)[..i], ',')
    {
      PairsAt(shards, c, i);
      JoinMore(Pairs(shards, c)[..i], ',', Pair(shards[i], c[shards[i]]));
      assert Pairs(shards, c)[..i + 1] == Pairs(shards, c)[..i] + [Pair(shards[i], c[shards[i]])];
      if i > 0 { text := text + ","; }
      text := text + Pair(shards[i], c[shards[i]]);
    }
    assert Pairs(shards, c)[..|shards|] == Pairs(shards, c);
    assert InOrder(shards, c);
    if Encodable(c) && c != map[] {
      var s :| s in c;
      assert s in shards;
      CursorBack(shards, c);
    }
  }

  method Least(s: set<nat>) returns (m: nat)
    requires s != {}
    ensures m in s && forall x <- s :: m <= x
  {
    m :| m in s;
    var left := s - {m};
    while left != {}
      invariant left <= s && m in s && forall x :: x in s && x !in left ==> m <= x
    {
      var x :| x in left;
      left := left - {x};
      if x < m { m := x; }
    }
  }

  lemma {:induction false} PairsAt(order: seq<nat>, c: map<nat, nat>, i: nat)
    requires (forall s <- order :: s in c) && i < |order|
    ensures Pairs(order, c)[i] == Pair(order[i], c[order[i]])
    decreases i
  {
    if i > 0 { PairsAt(order[1..], c, i - 1); }
  }

  lemma {:induction false} JoinMore(parts: seq<string>, c: char, p: string)
    ensures Join(parts + [p], c) == if parts == [] then p else Join(parts, c) + [c] + p
    decreases |parts|
  {
    if parts == [] {
      assert [] + [p] == [p];
    } else {
      assert (parts + [p])[1..] == parts[1..] + [p];
      JoinMore(parts[1..], c, p);
    }
  }
}
