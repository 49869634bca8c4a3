/**
 List over several shards. Each page takes a share from every shard below that shard's own cursor; following the
 cursors until none comes back visits every matching flow once.
 */
module Paging {
  datatype Option<+T> = None | Some(value: T)

  /** The matching flows of each shard, as the query orders them: highest id first. */
  type Contents = map<nat, seq<nat>>

  type PageCursor = map<nat, nat>

  predicate Descending(ids: seq<nat>) {
    forall i, j :: 0 <= i < j < |ids| ==> ids[i] > ids[j]
  }

  /** The flows below a cursor. */
  function BelowCursor(ids: seq<nat>, cur: nat): seq<nat> {
    if ids == [] then [] else if ids[0] < cur then [ids[0]] + BelowCursor(ids[1..], cur) else BelowCursor(ids[1..], cur)
  }

  function First(ids: seq<nat>, k: nat): seq<nat> {
    if |ids| <= k then ids else ids[..k]
  }

  /** What one shard contributes to a page. */
  function ShardPage(contents: Contents, restrict: nat, k: nat, cursor: PageCursor, s: nat): seq<nat> {
    if s !in contents || (restrict != 0 && s != restrict) then []
    else if s in cursor then First(BelowCursor(contents[s], cursor[s]), k)
    else First(contents[s], k)
  }

  /** Each shard's share of the limit. */
  function PerShardLimit(limit: int, shards: nat, restrict: nat): (k: nat)
    ensures k >= 1
  {
    var l := if limit <= 0 then 100 else limit;
    if restrict != 0 || shards == 0 then l
    else
      var share := (l + shards - 1) / shards;
      if share < 1 then 1 else share
  }

  /** Asked on all shards, each gives the least share with which all together could fill the limit; one shard alone gives the whole limit. */
  lemma ShareCovers(limit: int, shards: nat, restrict: nat)
    ensures var k, l := PerShardLimit(limit, shards, restrict), if limit <= 0 then 100 else limit;
            if restrict != 0 || shards == 0 then k == l else (k - 1) * shards < l <= k * shards
  {
    var l := if limit <= 0 then 100 else limit;
    if shards > 0 { Ceiling(l, shards); }
  }

  lemma Ceiling(l: int, n: int)
    requires l >= 1 && n >= 1
    ensures var k := (l + n - 1) / n; k >= 1 && (k - 1) * n < l <= k * n
  {
    var k := (l + n - 1) / n;
    assert k * n <= l + n - 1 < k * n + n;
    assert (k - 1) * n == k * n - n;
  }

  /** The flows of one shard in a list of pages. */
  function OnShard(flows: seq<(nat, nat)>, s: nat): seq<nat> {
    if flows == [] then []
    else (if flows[0].0 == s then [flows[0].1] else []) + OnShard(flows[1..], s)
  }

  function Tagged(s: nat, ids: seq<nat>): (r: seq<(nat, nat)>)
    ensures |r| == |ids| && forall i :: 0 <= i < |ids| ==> r[i] == (s, ids[i])
  {
    seq(|ids|, i requires 0 <= i < |ids| => (s, ids[i]))
  }

  lemma Assoc(a: seq<nat>, b: seq<nat>, c: seq<nat>)
    ensures a + (b + c) == a + b + c
  {
  }

  lemma {:induction false} OnShardJoins(a: seq<(nat, nat)>, b: seq<(nat, nat)>, s: nat)
    ensures OnShard(a + b, s) == OnShard(a, s) + OnShard(b, s)
    decreases |a|
  {
    if a == [] {
      assert a + b == b;
    } else {
      assert (a + b)[1..] == a[1..] + b;
      OnShardJoins(a[1..], b, s);
      Assoc(if a[0].0 == s then [a[0].1] else [], OnShard(a[1..], s), OnShard(b, s));
    }
  }

  lemma {:induction false} OnShardTagged(t: nat, ids: seq<nat>, s: nat)
    ensures OnShard(Tagged(t, ids), s) == if s == t then ids else []
    decreases |ids|
  {
    if ids != [] {
      assert Tagged(t, ids)[1..] == Tagged(t, ids[1..]);
      OnShardTagged(t, ids[1..], s);
      if s == t { assert [ids[0]] + ids[1..] == ids; }
    }
  }

  ghost predicate Distinct(s: seq<nat>) {
    forall i, j :: 0 <= i < j < |s| ==> s[i] != s[j]
  }

  /** The new cursor of one shard: the last flow it contributed, or what it was. */
  predicate NextAt(cursor: PageCursor, next: PageCursor, rows: seq<nat>, s: nat) {
    if rows != [] then s in next && next[s] == rows[|rows| - 1]
    else (s in next <==> s in cursor) && (s in next ==> next[s] == cursor[s])
  }

  predicate MovedAt(cursor: PageCursor, next: PageCursor, s: nat) {
    s in next && (s !in cursor || cursor[s] != next[s])
  }

  /** A page, shard by shard. */
  ghost predicate PageAt(contents: Contents, restrict: nat, k: nat, cursor: PageCursor, flows: seq<(nat, nat)>, next: PageCursor, s: nat) {
    OnShard(flows, s) == ShardPage(contents, restrict, k, cursor, s) && NextAt(cursor, next, OnShard(flows, s), s)
  }

  /** The page when the shards `done` have been gone through. */
  ghost predicate PageSoFar(contents: Contents, restrict: nat, k: nat, cursor: PageCursor, flows: seq<(nat, nat)>,
                            next: PageCursor, done: seq<nat>, s: nat)
  {
    if s in done then PageAt(contents, restrict, k, cursor, flows, next, s)
    else OnShard(flows, s) == [] && NextAt(cursor, next, [], s)
  }

  /** list: one page and the cursor to the next; no cursor when no shard moved. */
  method ListPage(contents: Contents, indices: seq<nat>, limit: int, restrict: nat, cursor: PageCursor)
    returns (flows: seq<(nat, nat)>, next: PageCursor, anyAdvance: bool)
    requires Distinct(indices) && forall s :: s in indices <==> s in contents
    ensures forall s :: PageAt(contents, restrict, PerShardLimit(limit, |indices|, restrict), cursor, flows, next, s)
    ensures anyAdvance <==> exists s :: MovedAt(cursor, next, s)
  {
    var k := PerShardLimit(limit, |indices|, restrict);
    flows, next := [], cursor;
    for i := 0 to |indices|
      invariant forall s :: PageSoFar(contents, restrict, k, cursor, flows, next, indices[..i], s)
    {
      var s := indices[i];
      TakeMore(indices, i);
      var rows := ShardPage(contents, restrict, k, cursor, s);
      ghost var flows0, next0 := flows, next;
      if rows != [] {
        next := next[s := rows[|rows| - 1]];
        flows := flows + Tagged(s, rows);
      }
      assert flows == flows0 + Tagged(s, rows);
      ShardAdded(contents, restrict, k, cursor, flows0, next0, indices[..i], s, rows, next);
    }
    assert indices[..|indices|] == indices;
    forall s ensures PageAt(contents, restrict, k, cursor, flows, next, s) {
      assert PageSoFar(contents, restrict, k, cursor, flows, next, indices, s);
    }
    anyAdvance := Advanced(cursor, next);
  }

  lemma ShardAdded(contents: Contents, restrict: nat, k: nat, cursor: PageCursor, flows: seq<(nat, nat)>, next: PageCursor,
                   done: seq<nat>, s: nat, rows: seq<nat>, next': PageCursor)
    requires (forall t :: PageSoFar(contents, restrict, k, cursor, flows, next, done, t)) && s !in done
    requires rows == ShardPage(contents, restrict, k, cursor, s)
    requires next' == if rows != [] then next[s := rows[|rows| - 1]] else next
    ensures forall t :: PageSoFar(contents, restrict, k, cursor, flows + Tagged(s, rows), next', done + [s], t)
  {
    forall t ensures PageSoFar(contents, restrict, k, cursor, flows + Tagged(s, rows), next', done + [s], t) {
      assert PageSoFar(contents, restrict, k, cursor, flows, next, done, t);
      OnShardJoins(flows, Tagged(s, rows), t);
      OnShardTagged(s, rows, t);
      if t == s {
        assert OnShard(flows, s) == [] && [] + rows == rows;
        ShardMoved(cursor, next, s, rows, next');
      } else {
        assert OnShard(flows, t) + [] == OnShard(flows, t);
        assert t in done + [s] <==> t in done;
      }
    }
  }

  lemma ShardMoved(cursor: PageCursor, next: PageCursor, s: nat, rows: seq<nat>, next': PageCursor)
    requires NextAt(cursor, next, [], s) && next' == if rows != [] then next[s := rows[|rows| - 1]] else next
    ensures NextAt(cursor, next', rows, s)
  {
  }

  lemma TakeMore(s: seq<nat>, i: nat)
    requires Distinct(s) && i < |s|
    ensures s[..i + 1] == s[..i] + [s[i]] && s[i] !in s[..i] && s[i] in s
  {
  }

  method Advanced(cursor: PageCursor, next: PageCursor) returns (any: bool)
    ensures any <==> exists s :: MovedAt(cursor, next, s)
  {
    any := false;
    var shards := next.Keys;
    while shards != {}
      invariant shards <= next.Keys
      invariant forall s :: s in next && s !in shards ==> !MovedAt(cursor, next, s)
    {
      var s :| s in shards;
      shards := shards - {s};
      if s !in cursor || cursor[s] != next[s] {
        assert MovedAt(cursor, next, s);
        return true;
      }
    }
  }

  // ----- Following the cursor

  /** How far the cursor has got on shard s: the first p flows are behind it. */
  ghost predicate Reached(contents: Contents, cursor: PageCursor, s: nat, p: nat)
    requires s in contents
  {
    p <= |contents[s]| && (s in cursor <==> p > 0) && (s in cursor ==> cursor[s] == contents[s][p - 1])
  }

  lemma {:induction false} BelowIsRest(ids: seq<nat>, p: nat)
    requires Descending(ids) && 0 < p <= |ids|
    ensures BelowCursor(ids, ids[p - 1]) == ids[p..]
    decreases p
  {
    if p > 1 {
      assert ids[1..][p - 2] == ids[p - 1];
      BelowIsRest(ids[1..], p - 1);
      assert ids[1..][p - 1..] == ids[p..];
    } else {
      AllBelow(ids[1..], ids[0]);
      assert ids[1..] == ids[p..];
    }
  }

  lemma {:induction false} AllBelow(ids: seq<nat>, cur: nat)
    requires forall x <- ids :: x < cur
    ensures BelowCursor(ids, cur) == ids
    decreases |ids|
  {
    if ids != [] {
      assert ids[0] in ids;
      assert forall x <- ids[1..] :: x in ids;
      AllBelow(ids[1..], cur);
    }
  }

  predicate Visited(contents: Contents, restrict: nat, s: nat) {
    s in contents && (restrict == 0 || s == restrict)
  }

  /** A page moves a visited shard on by its share, or to its end. */
  lemma PageMoves(contents: Contents, restrict: nat, k: nat, cursor: PageCursor, s: nat, p: nat) returns (p': nat)
    requires Visited(contents, restrict, s) && Descending(contents[s]) && Reached(contents, cursor, s, p) && k >= 1
    ensures p <= p' <= |contents[s]| && (p' == p <==> p == |contents[s]|)
    ensures ShardPage(contents, restrict, k, cursor, s) == contents[s][p..p']
  {
    var ids := contents[s];
    if p > 0 { BelowIsRest(ids, p); } else { assert ids[0..] == ids; }
    p' := if |ids| - p <= k then |ids| else p + k;
    assert ids[p..][..p' - p] == ids[p..p'];
  }

  /** The places reached on all shards, summed up: what a client has still to see. */
  function Remaining(contents: Contents, places: map<nat, nat>, shards: seq<nat>): nat {
    if shards == [] then 0
    else
      (if shards[0] in contents && shards[0] in places && places[shards[0]] <= |contents[shards[0]]|
       then |contents[shards[0]]| - places[shards[0]] else 0) + Remaining(contents, places, shards[1..])
  }

  lemma {:induction false} RemainingFalls(contents: Contents, a: map<nat, nat>, b: map<nat, nat>, shards: seq<nat>)
    requires forall s <- shards :: s in contents && s in a && s in b && a[s] <= b[s] <= |contents[s]|
    ensures Remaining(contents, b, shards) <= Remaining(contents, a, shards)
    ensures (exists s <- shards :: a[s] < b[s]) ==> Remaining(contents, b, shards) < Remaining(contents, a, shards)
    decreases |shards|
  {
    if shards != [] {
      assert shards[0] in shards;
      assert forall s <- shards[1..] :: s in shards;
      RemainingFalls(contents, a, b, shards[1..]);
      if s :| s in shards && a[s] < b[s] {
        if s != shards[0] { assert s in shards[1..]; }
      }
    }
  }

  /** Where following stands on one shard: what was got from it is what lies behind the cursor. */
  ghost predicate StandsAt(contents: Contents, restrict: nat, cursor: PageCursor, places: map<nat, nat>, got: seq<nat>, s: nat) {
    if s in contents then
      && s in places && Reached(contents, cursor, s, places[s]) && got == contents[s][..places[s]]
      && (!Visited(contents, restrict, s) ==> places[s] == 0)
    else s !in cursor && got == []
  }

  ghost predicate FollowingAt(contents: Contents, restrict: nat, cursor: PageCursor, places: map<nat, nat>,
                              collected: seq<(nat, nat)>, s: nat)
  {
    StandsAt(contents, restrict, cursor, places, OnShard(collected, s), s)
  }

  /** What a page takes from a visited shard: the stretch behind its place, up to its new place. */
  lemma VisitedMoves(contents: Contents, restrict: nat, k: nat, cursor: PageCursor, next: PageCursor, s: nat, p: nat, rows: seq<nat>)
    returns (p': nat)
    requires Visited(contents, restrict, s) && Descending(contents[s]) && Reached(contents, cursor, s, p) && k >= 1
    requires rows == ShardPage(contents, restrict, k, cursor, s) && NextAt(cursor, next, rows, s)
    ensures p' == p + |rows| <= |contents[s]| && contents[s][..p] + rows == contents[s][..p']
    ensures Reached(contents, next, s, p') && (MovedAt(cursor, next, s) <==> p < p')
    ensures p < |contents[s]| ==> p < p'
  {
    var ids := contents[s];
    p' := PageMoves(contents, restrict, k, cursor, s, p);
    Stretch(ids, p, p', rows);
    StretchMoves(cursor, next, s, rows, p > 0, if p > 0 then ids[p - 1] else 0);
  }

  lemma ShardMoves(contents: Contents, restrict: nat, k: nat, cursor: PageCursor, places: map<nat, nat>, got: seq<nat>,
                   next: PageCursor, places': map<nat, nat>, rows: seq<nat>, s: nat)
    requires k >= 1 && Visited(contents, restrict, s) && Descending(contents[s])
    requires StandsAt(contents, restrict, cursor, places, got, s)
    requires rows == ShardPage(contents, restrict, k, cursor, s) && NextAt(cursor, next, rows, s)
    requires s in places' && places'[s] == places[s] + |rows|
    ensures StandsAt(contents, restrict, next, places', got + rows, s) && places[s] <= places'[s] <= |contents[s]|
    ensures MovedAt(cursor, next, s) ==> places[s] < places'[s]
    ensures places[s] < |contents[s]| ==> MovedAt(cursor, next, s)
  {
    var p' := VisitedMoves(contents, restrict, k, cursor, next, s, places[s], rows);
  }

  /** One page on one shard. */
  lemma PageOnShard(contents: Contents, restrict: nat, k: nat, cursor: PageCursor, places: map<nat, nat>, got: seq<nat>,
                    next: PageCursor, places': map<nat, nat>, rows: seq<nat>, s: nat)
    requires k >= 1 && (s in contents ==> Descending(contents[s]))
    requires StandsAt(contents, restrict, cursor, places, got, s)
    requires rows == ShardPage(contents, restrict, k, cursor, s) && NextAt(cursor, next, rows, s)
    requires s in contents ==> s in places' && places'[s] == places[s] + |rows|
    ensures StandsAt(contents, restrict, next, places', got + rows, s)
    ensures s in contents ==> places[s] <= places'[s] <= |contents[s]|
    ensures MovedAt(cursor, next, s) ==> s in contents && places[s] < places'[s]
    ensures Visited(contents, restrict, s) && places[s] < |contents[s]| ==> MovedAt(cursor, next, s)
  {
    if Visited(contents, restrict, s) {
      ShardMoves(contents, restrict, k, cursor, places, got, next, places', rows, s);
    } else {
      assert rows == [] && got + rows == got;
    }
  }

  lemma Stretch(ids: seq<nat>, p: nat, p': nat, rows: seq<nat>)
    requires Descending(ids) && p <= p' <= |ids| && rows == ids[p..p']
    ensures ids[..p] + rows == ids[..p'] && |rows| == p' - p
    ensures p < p' ==> rows[|rows| - 1] == ids[p' - 1]
    ensures 0 < p < p' ==> ids[p - 1] > ids[p' - 1]
  {
  }

  /** A shard's cursor moves exactly when the shard contributed something. */
  lemma StretchMoves(cursor: PageCursor, next: PageCursor, s: nat, rows: seq<nat>, had: bool, last: nat)
    requires NextAt(cursor, next, rows, s) && (s in cursor <==> had) && (had ==> cursor[s] == last)
    requires rows != [] && had ==> last > rows[|rows| - 1]
    ensures (s in next <==> had || rows != [])
    ensures rows != [] ==> next[s] == rows[|rows| - 1]
    ensures rows == [] && had ==> next[s] == last
    ensures MovedAt(cursor, next, s) <==> rows != []
  {
  }

  /**
   A client that follows the cursor until none comes back has seen every matching flow of every visited shard
   exactly once, each shard's in descending order - whatever the limit, and it comes to an end.
   */
  method FollowCursor(contents: Contents, indices: seq<nat>, limit: int, restrict: nat) returns (collected: seq<(nat, nat)>)
    requires Distinct(indices) && (forall s :: s in indices <==> s in contents)
    requires forall s <- contents :: Descending(contents[s])
    ensures forall s :: OnShard(collected, s) == if Visited(contents, restrict, s) then contents[s] else []
  {
    collected := [];
    var cursor: PageCursor := map[];
    ghost var places := map s | s in contents :: 0;
    var more := true;
    while more
      invariant forall s :: FollowingAt(contents, restrict, cursor, places, collected, s)
      invariant !more ==> forall s :: Visited(contents, restrict, s) ==> s in places && places[s] == |contents[s]|
      decreases more, Remaining(contents, places, indices)
    {
      var flows, next, advanced := ListPage(contents, indices, limit, restrict, cursor);
      places := OnePage(contents, indices, restrict, PerShardLimit(limit, |indices|, restrict), cursor, places, collected, flows, next);
      collected := collected + flows;
      cursor := next;
      more := advanced;
    }
    AllSeen(contents, restrict, cursor, places, collected);
  }

  lemma AllSeen(contents: Contents, restrict: nat, cursor: PageCursor, places: map<nat, nat>, collected: seq<(nat, nat)>)
    requires forall s :: FollowingAt(contents, restrict, cursor, places, collected, s)
    requires forall s :: Visited(contents, restrict, s) ==> s in places && places[s] == |contents[s]|
    ensures forall s :: OnShard(collected, s) == if Visited(contents, restrict, s) then contents[s] else []
  {
    forall s ensures OnShard(collected, s) == if Visited(contents, restrict, s) then contents[s] else [] {
      assert FollowingAt(contents, restrict, cursor, places, collected, s);
      if s in contents { assert contents[s][..places[s]] == if Visited(contents, restrict, s) then contents[s] else []; }
    }
  }

  lemma OnePage(contents: Contents, indices: seq<nat>, restrict: nat, k: nat, cursor: PageCursor, places: map<nat, nat>,
                collected: seq<(nat, nat)>, flows: seq<(nat, nat)>, next: PageCursor) returns (places': map<nat, nat>)
    requires (forall s :: s in indices <==> s in contents) && (forall s <- contents :: Descending(contents[s])) && k >= 1
    requires forall s :: FollowingAt(contents, restrict, cursor, places, collected, s)
    requires forall s :: PageAt(contents, restrict, k, cursor, flows, next, s)
    ensures forall s :: FollowingAt(contents, restrict, next, places', collected + flows, s)
    ensures (exists s :: MovedAt(cursor, next, s)) ==> Remaining(contents, places', indices) < Remaining(contents, places, indices)
    ensures !(exists s :: MovedAt(cursor, next, s)) ==> forall s :: Visited(contents, restrict, s) ==> s in places' && places'[s] == |contents[s]|
  {
    places' := map s | s in contents && s in places :: places[s] + |OnShard(flows, s)|;
    forall s
      ensures FollowingAt(contents, restrict, next, places', collected + flows, s)
      ensures s in contents ==> s in places && s in places' && places[s] <= places'[s] <= |contents[s]|
      ensures MovedAt(cursor, next, s) ==> s in contents && places[s] < places'[s]
      ensures Visited(contents, restrict, s) && places[s] < |contents[s]| ==> MovedAt(cursor, next, s)
    {
      assert FollowingAt(contents, restrict, cursor, places, collected, s) && PageAt(contents, restrict, k, cursor, flows, next, s);
      OnShardJoins(collected, flows, s);
      PageOnShard(contents, restrict, k, cursor, places, OnShard(collected, s), next, places', OnShard(flows, s), s);
    }
    RemainingFalls(contents, places, places', indices);
    if s :| MovedAt(cursor, next, s) {
      assert s in indices && places[s] < places'[s];
    }
  }
}
