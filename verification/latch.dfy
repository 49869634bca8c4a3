/**
 The Await latch's resolver. Which of the parked keys name a flow that has settled, or name no flow at all? A
 scan over recent stops answers some, padded lookups in chunks answer the rest - with the verdict a plain lookup
 of each key would give.
 */
module Latch {
  datatype Status = Created | Pending | Running | Interrupted | Completed | Failed | Cancelled | Terminated {
    predicate Stopped() { !Created? && !Pending? && !Running? }
  }

  datatype Row = Row(token: string, status: Status)

  /** A flow key names a shard, a flow and the token that makes the row its holder's - or nothing, when malformed. */
  datatype Key = Key(shard: nat, id: nat, token: string) | Malformed(text: string)

  datatype Verdict = Settled(status: Status) | Unresolved | StillRunning

  /** The rows of every shard, at the moment of the pass. */
  type Tables = map<nat, map<nat, Row>>

  /** What looking the key up directly would say. */
  function Direct(tables: Tables, k: Key): Verdict {
    match k
    case Malformed(_) => Unresolved
    case Key(shard, id, token) =>
      if shard !in tables || id !in tables[shard] || tables[shard][id].token != token then Unresolved
      else if tables[shard][id].status.Stopped() then Settled(tables[shard][id].status)
      else StillRunning
  }

  /** The row a key names, token and all. */
  predicate Names(tables: Tables, k: Key) {
    k.Key? && k.shard in tables && k.id in tables[k.shard] && tables[k.shard][k.id].token == k.token
  }

  /**
   What a lookup tells: a flow that ended or is interrupted has settled, with its status; one that has not is still
   running; and whoever does not hold the row's token is told no more of the flow than of one that does not exist.
   */
  lemma DirectTells(tables: Tables, k: Key)
    ensures Direct(tables, k).Unresolved? <==> !Names(tables, k)
    ensures Names(tables, k) ==>
              var st := tables[k.shard][k.id].status;
              && (Direct(tables, k) == Settled(st) <==> st.Interrupted? || st.Completed? || st.Failed? || st.Cancelled? || st.Terminated?)
              && (Direct(tables, k) == StillRunning <==> st.Created? || st.Pending? || st.Running?)
  {
  }

  // ----- Padding

  const CHUNK: nat := 512

  const BUCKETS: seq<nat> := [1, 2, 4, 8, 16, 32, 64, 128, 256, CHUNK]

  /** latchPadBinds: the list grown to one of ten sizes by repeating its last id, which no IN can tell apart. */
  method PadBinds(ids: seq<nat>) returns (binds: seq<nat>)
    requires 0 < |ids| <= CHUNK
    ensures |binds| in BUCKETS && |ids| <= |binds| && (|ids| > 1 ==> |binds| < 2 * |ids|)
    ensures forall x :: x in binds <==> x in ids
  {
    var size := |ids|;
    var b := 0;
    while b < |BUCKETS|
      invariant b <= |BUCKETS| && size == |ids|
      invariant forall c :: 0 <= c < b ==> BUCKETS[c] < |ids|
    {
      if BUCKETS[b] >= |ids| {
        size := BUCKETS[b];
        break;
      }
      b := b + 1;
    }
    assert BUCKETS[9] == CHUNK;
    assert b < |BUCKETS| && size == BUCKETS[b];
    assert b > 0 ==> BUCKETS[b - 1] < |ids| && BUCKETS[b] <= 2 * BUCKETS[b - 1];
    assert size in BUCKETS;
    binds := ids;
    while |binds| < size
      invariant |ids| <= |binds| <= size
      invariant forall x :: x in binds <==> x in ids
    {
      binds := binds + [ids[|ids| - 1]];
    }
  }

  // ----- One shard

  /** What a pass may report on the keys `wanted`, when the keys `unread` sat on chunks that could not be read. */
  ghost predicate Reported(tables: Tables, wanted: set<Key>, unread: set<Key>, settled: map<Key, Verdict>) {
    && unread <= wanted && settled.Keys <= wanted
    && (forall k <- settled :: settled[k] == Direct(tables, k) && settled[k] != StillRunning)
    && (forall k <- wanted :: k !in unread ==> (k in settled <==> Direct(tables, k) != StillRunning))
    && (forall k <- unread :: k !in settled)
  }

  /** The scan over recent stops: it settles the keys its rows spell, and drops them from the lookup. */
  method ScanRecent(tables: Tables, shard: nat, wanted: set<Key>, recent: seq<nat>) returns (left: set<Key>, settled: map<Key, Verdict>)
    requires shard in tables && forall id <- recent :: id in tables[shard] && tables[shard][id].status.Stopped()
    ensures left <= wanted && settled.Keys == wanted - left
    ensures forall k <- settled :: settled[k] == Direct(tables, k) && settled[k].Settled?
    ensures forall k <- wanted :: (k.Key? && k.shard == shard && k.id in recent && tables[shard][k.id].token == k.token) ==> k in settled
  {
    left, settled := wanted, map[];
    for i := 0 to |recent|
      invariant left <= wanted && settled.Keys == wanted - left
      invariant forall k <- settled :: settled[k] == Direct(tables, k) && settled[k].Settled?
      invariant forall k <- wanted :: (k.Key? && k.shard == shard && k.id in recent[..i] && k.id in tables[shard]
                  && tables[shard][k.id].token == k.token) ==> k in settled
    {
      var id := recent[i];
      assert id in recent && recent[..i + 1] == recent[..i] + [id];
      var k := Key(shard, id, tables[shard][id].token);
      if k in left {
        left := left - {k};
        settled := settled[k := Settled(tables[shard][id].status)];
      }
    }
    assert recent[..|recent|] == recent;
  }

  /** One chunk: the rows of its ids are read in one query, and each key is judged by the key a row spells. */
  method LookupChunk(tables: Tables, shard: nat, chunk: seq<Key>) returns (settled: map<Key, Verdict>)
    requires shard in tables && 0 < |chunk| <= CHUNK && forall k <- chunk :: k.Key? && k.shard == shard
    ensures forall k :: k in settled <==> k in chunk && Direct(tables, k) != StillRunning
    ensures forall k <- settled :: settled[k] == Direct(tables, k)
  {
    var ids: seq<nat> := [];
    for i := 0 to |chunk|
      invariant |ids| == i && forall j :: 0 <= j < i ==> ids[j] == chunk[j].id
    {
      assert chunk[i] in chunk;
      ids := ids + [chunk[i].id];
    }
    var binds := PadBinds(ids);
    var found := map id | id in binds && id in tables[shard] :: tables[shard][id];
    settled := map[];
    for i := 0 to |chunk|
      invariant forall k :: k in settled <==> k in chunk[..i] && Direct(tables, k) != StillRunning
      invariant forall k <- settled :: settled[k] == Direct(tables, k)
    {
      var k := chunk[i];
      assert k in chunk && chunk[..i + 1] == chunk[..i] + [k];
      assert ids[i] == k.id && ids[i] in ids;
      if !(k.id in found && found[k.id].token == k.token) {
        settled := settled[k := Unresolved];
      } else if found[k.id].status.Stopped() {
        settled := settled[k := Settled(found[k.id].status)];
      }
    }
    assert chunk[..|chunk|] == chunk;
  }

  method Listed(keys: set<Key>) returns (r: seq<Key>)
    ensures (forall k :: k in r <==> k in keys) && forall i, j :: 0 <= i < j < |r| ==> r[i] != r[j]
  {
    r := [];
    var left := keys;
    while left != {}
      invariant left <= keys && forall k :: k in r <==> k in keys && k !in left
      invariant forall i, j :: 0 <= i < j < |r| ==> r[i] != r[j]
    {
      var k :| k in left;
      left := left - {k};
      r := r + [k];
    }
  }

  /** A pass over one shard; `read` says which chunks the database answered in full. */
  method ResolveShard(tables: Tables, shard: nat, wanted: set<Key>, recent: seq<nat>, read: nat -> bool)
    returns (settled: map<Key, Verdict>, ghost unread: set<Key>)
    requires shard in tables && forall k <- wanted :: k.Key? && k.shard == shard
    requires forall id <- recent :: id in tables[shard] && tables[shard][id].status.Stopped()
    ensures Reported(tables, wanted, unread, settled)
    ensures (forall n :: read(n)) ==> unread == {}
    ensures forall k <- wanted :: k.id in recent && tables[shard][k.id].token == k.token ==> k in settled
  {
    var left;
    left, settled := ScanRecent(tables, shard, wanted, recent);
    ghost var scanned := settled;
    var parked := Listed(left);
    unread := {};
    var at, n := 0, 0;
    while at < |parked|
      invariant at <= |parked| && unread <= (set k | k in parked[..at])
      invariant scanned.Keys <= settled.Keys && settled.Keys <= scanned.Keys + set k | k in parked[..at]
      invariant forall k <- settled :: settled[k] == Direct(tables, k) && settled[k] != StillRunning
      invariant forall k <- parked[..at] :: if k in unread then k !in settled else (k in settled <==> Direct(tables, k) != StillRunning)
      invariant (forall n :: read(n)) ==> unread == {}
    {
      var next := if at + CHUNK <= |parked| then at + CHUNK else |parked|;
      var chunk := parked[at..next];
      Stretch(parked, at, next);
      if read(n) {
        var more := LookupChunk(tables, shard, chunk);
        settled := settled + more;
      } else {
        unread := unread + set k | k in chunk;
      }
      at, n := next, n + 1;
    }
    assert parked[..|parked|] == parked;
  }

  lemma Stretch(s: seq<Key>, at: nat, next: nat)
    requires at < next <= |s| && forall i, j :: 0 <= i < j < |s| ==> s[i] != s[j]
    ensures s[..next] == s[..at] + s[at..next]
    ensures forall k <- s[at..next] :: k in s && k !in s[..at]
  {
  }

  // ----- All shards

  /** resolveStoppedFlows: the keys grouped by shard, each open shard asked once. */
  method ResolveStoppedFlows(tables: Tables, flowKeys: set<Key>, recent: nat -> seq<nat>, read: (nat, nat) -> bool)
    returns (settled: map<Key, Verdict>, ghost unread: set<Key>)
    requires forall shard <- tables :: forall id <- recent(shard) :: id in tables[shard] && tables[shard][id].status.Stopped()
    ensures forall k <- settled :: k in flowKeys && settled[k] == Direct(tables, k) && settled[k] != StillRunning
    ensures forall k <- flowKeys | k.Malformed? :: k in settled
    ensures forall k <- flowKeys | k.Key? && k.shard in tables ::
              if k in unread then k !in settled else (k in settled <==> Direct(tables, k) != StillRunning)
    ensures (forall s, n :: read(s, n)) ==> unread == {}
    ensures unread <= flowKeys
  {
    settled := map k | k in flowKeys && k.Malformed? :: Unresolved;
    unread := {};
    var shards := tables.Keys;
    while shards != {}
      invariant shards <= tables.Keys && unread <= flowKeys && forall k <- unread :: k.Key? && k.shard !in shards
      invariant forall k <- settled :: k in flowKeys && settled[k] == Direct(tables, k) && settled[k] != StillRunning
      invariant forall k <- settled :: k.Malformed? || k.shard !in shards
      invariant forall k <- flowKeys | k.Malformed? :: k in settled
      invariant forall k <- flowKeys | k.Key? && k.shard in tables && k.shard !in shards ::
                  if k in unread then k !in settled else (k in settled <==> Direct(tables, k) != StillRunning)
      invariant (forall s, n :: read(s, n)) ==> unread == {}
    {
      var shard :| shard in shards;
      var wanted := set k | k in flowKeys && k.Key? && k.shard == shard;
      var here, failed := ResolveShard(tables, shard, wanted, recent(shard), (n: nat) => read(shard, n));
      settled := settled + here;
      unread := unread + failed;
      shards := shards - {shard};
    }
  }
}
