/**
 Turns and stripes. A worker takes a turn on its shard for the stretches it works against the database, and a
 stripe while it counts an arrival in a cohort. It hands its turn back around every wait - for a stripe, for a
 retry's backoff - and takes a fresh one afterwards, stripe in hand. With that discipline nobody deadlocks.
 */
module Turns {
  datatype Option<+T> = None | Some(value: T)

  datatype Instr = TakeTurn | ReturnTurn | Lock(stripe: nat) | Unlock | Pause | Work

  /** What a worker holds. */
  datatype Hold = Hold(turn: bool, stripe: Option<nat>)

  /** The discipline: what each instruction may be run with, and what it leaves. */
  function Next(i: Instr, h: Hold): Option<Hold> {
    match i
    case TakeTurn => if h.turn then None else Some(h.(turn := true))
    case ReturnTurn => if h.turn then Some(h.(turn := false)) else None
    case Lock(s) => if h.turn || h.stripe.Some? then None else Some(h.(stripe := Some(s)))
    case Unlock => if h.stripe.Some? then Some(h.(stripe := None)) else None
    case Pause => if h.turn then None else Some(h)
    case Work => if h.turn then Some(h) else None
  }

  /** What a worker that keeps the discipline holds after a program; None when the program breaks it. */
  function Runs(prog: seq<Instr>, h: Hold): Option<Hold> {
    if prog == [] then Some(h)
    else
      match Next(prog[0], h)
      case None => None
      case Some(h') => Runs(prog[1..], h')
  }

  lemma {:induction false} RunsOn(a: seq<Instr>, b: seq<Instr>, h: Hold)
    ensures Runs(a + b, h) == if Runs(a, h).None? then None else Runs(b, Runs(a, h).value)
    decreases |a|
  {
    if a == [] {
      assert a + b == b;
    } else {
      assert (a + b)[1..] == a[1..] + b;
      if Next(a[0], h).Some? { RunsOn(a[1..], b, Next(a[0], h).value); }
    }
  }

  // ----- The engine's paths

  /** yieldTurn around a wait: the turn goes back, and a fresh one is taken even when the wait failed. */
  function Yield(wait: Instr): seq<Instr> { [ReturnTurn, wait, TakeTurn] }

  /** persist: the write, and up to n retries of it, each after a backoff slept without a turn. */
  function Persist(retries: nat): seq<Instr> {
    if retries == 0 then [Work] else [Work] + (Yield(Pause) + Persist(retries - 1))
  }

  /** failStep: a branch counts its loss under its cohort's stripe, a trunk step needs none. */
  function FailStep(stripe: Option<nat>): seq<Instr> {
    if stripe.None? then [Work] else Yield(Lock(stripe.value)) + [Work, Unlock]
  }

  /**
   A step's way to its transition: claimed work, then - for an arrival - the stripe, the transition with its
   retries, the stripe given up before anything else; and if the transition would not land, the failure.
   */
  function Transition(arrival: Option<nat>, retries: nat, failed: bool, own: Option<nat>): seq<Instr> {
    [TakeTurn, Work]
    + ((if arrival.Some? then Yield(Lock(arrival.value)) + (Persist(retries) + [Unlock]) else Persist(retries))
       + ((if failed then FailStep(own) else []) + [ReturnTurn]))
  }

  lemma {:induction false} PersistRuns(retries: nat, h: Hold)
    requires h.turn
    ensures Runs(Persist(retries), h) == Some(h)
    decreases retries
  {
    if retries > 0 {
      RunsOn([Work], Yield(Pause) + Persist(retries - 1), h);
      RunsOn(Yield(Pause), Persist(retries - 1), h);
      YieldRuns(Pause, h, h);
      WorkRuns(h);
      PersistRuns(retries - 1, h);
    } else {
      WorkRuns(h);
    }
  }

  lemma WorkRuns(h: Hold)
    requires h.turn
    ensures Runs([Work], h) == Some(h)
  {
    assert [Work][1..] == [];
  }

  lemma YieldRuns(wait: Instr, h: Hold, h': Hold)
    requires h.turn && h'.turn && Next(wait, h.(turn := false)) == Some(h'.(turn := false))
    ensures Runs(Yield(wait), h) == Some(h')
  {
    var without := h'.(turn := false);
    assert [TakeTurn][1..] == [] && without.(turn := true) == h';
    assert Runs([TakeTurn], without) == Some(h');
    assert [wait, TakeTurn][1..] == [TakeTurn];
    assert Runs([wait, TakeTurn], h.(turn := false)) == Some(h');
    assert Yield(wait)[1..] == [wait, TakeTurn];
  }

  lemma FailRuns(stripe: Option<nat>, h: Hold)
    requires h.turn && h.stripe.None?
    ensures Runs(FailStep(stripe), h) == Some(h)
  {
    if stripe.None? {
      WorkRuns(h);
    } else {
      RunsOn(Yield(Lock(stripe.value)), [Work, Unlock], h);
      YieldRuns(Lock(stripe.value), h, h.(stripe := stripe));
      var held := h.(stripe := stripe);
      assert [Unlock][1..] == [] && held.(stripe := None) == h;
      assert Runs([Unlock], held) == Some(h);
      assert [Work, Unlock][1..] == [Unlock];
    }
  }

  /** Every path keeps the discipline and leaves nothing held - with any number of retries, failing or not. */
  lemma TransitionRuns(arrival: Option<nat>, retries: nat, failed: bool, own: Option<nat>)
    ensures Runs(Transition(arrival, retries, failed, own), Hold(false, None)) == Some(Hold(false, None))
  {
    var h := Hold(true, None);
    var start, tail := [TakeTurn, Work], (if failed then FailStep(own) else []) + [ReturnTurn];
    var middle := if arrival.Some? then Yield(Lock(arrival.value)) + (Persist(retries) + [Unlock]) else Persist(retries);
    RunsOn(start, middle + tail, Hold(false, None));
    assert start[1..] == [Work] && [Work][1..] == [];
    RunsOn(middle, tail, h);
    if arrival.Some? {
      var held := h.(stripe := arrival);
      RunsOn(Yield(Lock(arrival.value)), Persist(retries) + [Unlock], h);
      YieldRuns(Lock(arrival.value), h, held);
      RunsOn(Persist(retries), [Unlock], held);
      PersistRuns(retries, held);
      assert [Unlock][1..] == [];
    } else {
      PersistRuns(retries, h);
    }
    RunsOn(if failed then FailStep(own) else [], [ReturnTurn], h);
    if failed { FailRuns(own, h); }
    assert [ReturnTurn][1..] == [];
  }

  function HowOften(prog: seq<Instr>, i: Instr): nat {
    if prog == [] then 0 else (if prog[0] == i then 1 else 0) + HowOften(prog[1..], i)
  }

  lemma {:induction false} HowOftenJoins(a: seq<Instr>, b: seq<Instr>, i: Instr)
    ensures HowOften(a + b, i) == HowOften(a, i) + HowOften(b, i)
    decreases |a|
  {
    if a == [] {
      assert a + b == b;
    } else {
      assert (a + b)[1..] == a[1..] + b;
      HowOftenJoins(a[1..], b, i);
    }
  }

  /** A write that is retried n times is tried n + 1 times, with n sleeps in between. */
  lemma {:induction false} AttemptsAndSleeps(retries: nat)
    ensures HowOften(Persist(retries), Work) == retries + 1 && HowOften(Persist(retries), Pause) == retries
    decreases retries
  {
    if retries > 0 {
      AttemptsAndSleeps(retries - 1);
      OneMoreTime(Persist(retries - 1), Work);
      OneMoreTime(Persist(retries - 1), Pause);
      OneSleep();
    } else {
      assert [Work][1..] == [];
    }
  }

  lemma OneMoreTime(rest: seq<Instr>, i: Instr)
    ensures HowOften([Work] + (Yield(Pause) + rest), i) == HowOften([Work], i) + HowOften(Yield(Pause), i) + HowOften(rest, i)
  {
    HowOftenJoins([Work], Yield(Pause) + rest, i);
    HowOftenJoins(Yield(Pause), rest, i);
  }

  lemma OneSleep()
    ensures HowOften([Work], Work) == 1 && HowOften([Work], Pause) == 0
    ensures HowOften(Yield(Pause), Work) == 0 && HowOften(Yield(Pause), Pause) == 1
  {
    var y := Yield(Pause);
    assert [Work][1..] == [];
    assert y[1..] == [Pause, TakeTurn] && y[1..][1..] == [TakeTurn] && y[1..][1..][1..] == [];
  }

  /** Every attempt is made with the turn and the stripe the first was made with; a sleep gives up the turn, and keeps the stripe. */
  lemma {:induction false} AttemptsAlike(retries: nat, h: Hold, i: nat)
    requires h.turn && i < |Persist(retries)|
    ensures Persist(retries)[i] == Work ==> Runs(Persist(retries)[..i], h) == Some(h)
    ensures Persist(retries)[i] == Pause ==> Runs(Persist(retries)[..i], h) == Some(h.(turn := false))
    decreases retries
  {
    var prog := Persist(retries);
    if i == 0 {
      assert prog[..0] == [];
    } else {
      var first, rest := [Work, ReturnTurn, Pause, TakeTurn], Persist(retries - 1);
      assert prog == first + rest;
      if i < 4 {
        assert prog[..i] == first[..i];
        FirstSleep(h);
      } else {
        assert prog[..i] == first + rest[..i - 4] && prog[i] == rest[i - 4];
        FirstSleep(h);
        RunsOn(first, rest[..i - 4], h);
        AttemptsAlike(retries - 1, h, i - 4);
      }
    }
  }

  lemma FirstSleep(h: Hold)
    requires h.turn
    ensures var first := [Work, ReturnTurn, Pause, TakeTurn];
            Runs(first, h) == Some(h) && Runs(first[..2], h) == Some(h.(turn := false))
  {
    var first := [Work, ReturnTurn, Pause, TakeTurn];
    var without := h.(turn := false);
    assert first[..2] == [Work] + [ReturnTurn];
    RunsOn([Work], [ReturnTurn], h);
    WorkRuns(h);
    assert [ReturnTurn][1..] == [];
    assert first == [Work] + Yield(Pause);
    RunsOn([Work], Yield(Pause), h);
    YieldRuns(Pause, h, h);
  }

  // ----- Many workers

  /** A worker of a shard: what it still has to do, and what it holds. */
  datatype Worker = Worker(shard: nat, todo: seq<Instr>, hold: Hold)

  type Crew = map<nat, Worker>

  /** The workers that hold a turn of the shard. */
  function TurnHolders(crew: Crew, shard: nat): set<nat> {
    set w | w in crew && crew[w].shard == shard && crew[w].hold.turn
  }

  /** Every worker keeps the discipline to its end, no stripe is held twice, no shard hands out more turns than it has. */
  ghost predicate Orderly(crew: Crew, turns: nat -> nat) {
    && (forall w <- crew :: Runs(crew[w].todo, crew[w].hold) == Some(Hold(false, None)))
    && (forall v, w :: v in crew && w in crew && v != w && crew[v].hold.stripe.Some? ==> crew[v].hold.stripe != crew[w].hold.stripe)
    && (forall shard :: |TurnHolders(crew, shard)| <= turns(shard))
  }

  predicate StripeFree(crew: Crew, s: nat) {
    forall w <- crew :: crew[w].hold.stripe != Some(s)
  }

  /** The worker's next instruction does not have to wait. */
  predicate CanMove(crew: Crew, turns: nat -> nat, w: nat) {
    w in crew && crew[w].todo != []
    && match crew[w].todo[0]
       case TakeTurn => |TurnHolders(crew, crew[w].shard)| < turns(crew[w].shard)
       case Lock(s) => StripeFree(crew, s)
       case _ => true
  }

  /** It runs its next instruction. */
  function Move(crew: Crew, w: nat): Crew
    requires w in crew && crew[w].todo != [] && Next(crew[w].todo[0], crew[w].hold).Some?
  {
    crew[w := crew[w].(todo := crew[w].todo[1..], hold := Next(crew[w].todo[0], crew[w].hold).value)]
  }

  /** Who waits holds nothing others may wait for at the same place: no turn at a stripe, no stripe at a stripe. */
  lemma WaitsLight(crew: Crew, turns: nat -> nat, w: nat)
    requires Orderly(crew, turns) && w in crew && crew[w].todo != []
    ensures crew[w].todo[0].Lock? ==> !crew[w].hold.turn && crew[w].hold.stripe.None?
    ensures crew[w].todo[0].TakeTurn? || crew[w].todo[0].Pause? ==> !crew[w].hold.turn
    ensures Next(crew[w].todo[0], crew[w].hold).Some?
  {
    assert Runs(crew[w].todo, crew[w].hold) == Some(Hold(false, None));
  }

  /** However many workers there are, no more work against a shard's database at once than it has turns. */
  lemma WorkBounded(crew: Crew, turns: nat -> nat, shard: nat, busy: set<nat>)
    requires Orderly(crew, turns)
    requires forall w <- busy :: w in crew && crew[w].shard == shard && crew[w].todo != [] && crew[w].todo[0].Work?
    ensures |busy| <= turns(shard)
  {
    forall w | w in busy ensures w in TurnHolders(crew, shard) { WaitsLight(crew, turns, w); }
    Fewer(busy, TurnHolders(crew, shard));
  }

  lemma {:induction false} Fewer(a: set<nat>, b: set<nat>)
    requires a <= b
    ensures |a| <= |b|
    decreases a
  {
    if a != {} {
      var x :| x in a;
      Fewer(a - {x}, b - {x});
    }
  }

  /** Moving keeps the crew orderly. */
  lemma MoveKeepsOrder(crew: Crew, turns: nat -> nat, w: nat)
    requires Orderly(crew, turns) && CanMove(crew, turns, w)
    ensures Next(crew[w].todo[0], crew[w].hold).Some? && Orderly(Move(crew, w), turns)
  {
    WaitsLight(crew, turns, w);
    var crew' := Move(crew, w);
    assert Runs(crew[w].todo, crew[w].hold) == Some(Hold(false, None));
    forall v | v in crew' ensures Runs(crew'[v].todo, crew'[v].hold) == Some(Hold(false, None)) {
      if v != w { assert Runs(crew[v].todo, crew[v].hold) == Some(Hold(false, None)); }
    }
    forall shard ensures |TurnHolders(crew', shard)| <= turns(shard) { TurnsKept(crew, turns, w, shard); }
    StripesKept(crew, turns, w);
  }

  lemma TurnsKept(crew: Crew, turns: nat -> nat, w: nat, shard: nat)
    requires CanMove(crew, turns, w) && Next(crew[w].todo[0], crew[w].hold).Some?
    requires |TurnHolders(crew, shard)| <= turns(shard)
    ensures |TurnHolders(Move(crew, w), shard)| <= turns(shard)
  {
    var before, after := TurnHolders(crew, shard), TurnHolders(Move(crew, w), shard);
    var h' := Next(crew[w].todo[0], crew[w].hold).value;
    if shard != crew[w].shard {
      assert after == before;
    } else if h'.turn && !crew[w].hold.turn {
      assert after == before + {w};
    } else if h'.turn {
      assert after == before;
    } else {
      assert after == before - {w};
    }
  }

  lemma StripesKept(crew: Crew, turns: nat -> nat, w: nat)
    requires CanMove(crew, turns, w) && Next(crew[w].todo[0], crew[w].hold).Some?
    requires forall u, v :: u in crew && v in crew && u != v && crew[u].hold.stripe.Some? ==> crew[u].hold.stripe != crew[v].hold.stripe
    ensures var crew' := Move(crew, w);
            forall u, v :: u in crew' && v in crew' && u != v && crew'[u].hold.stripe.Some? ==> crew'[u].hold.stripe != crew'[v].hold.stripe
  {
  }

  /**
   No deadlock: as long as somebody has something left to do, somebody can move - with any number of workers and
   at least one turn a shard.
   */
  lemma SomebodyMoves(crew: Crew, turns: nat -> nat, w: nat) returns (m: nat)
    requires Orderly(crew, turns) && (forall shard :: turns(shard) >= 1) && w in crew && crew[w].todo != []
    ensures CanMove(crew, turns, m)
  {
    WaitsLight(crew, turns, w);
    if v :| v in crew && crew[v].hold.turn {
      m := HolderMoves(crew, turns, v);
    } else {
      // Nobody holds a turn, so turns are free; who waits for a stripe waits for somebody that can move.
      assert forall shard :: TurnHolders(crew, shard) == {};
      if crew[w].todo[0].Lock? && !StripeFree(crew, crew[w].todo[0].stripe) {
        var v :| v in crew && crew[v].hold.stripe == Some(crew[w].todo[0].stripe);
        m := StripeHolderMoves(crew, turns, v);
      } else {
        m := w;
      }
    }
  }

  lemma HolderMoves(crew: Crew, turns: nat -> nat, v: nat) returns (m: nat)
    requires Orderly(crew, turns) && v in crew && crew[v].hold.turn
    ensures m == v && CanMove(crew, turns, m)
  {
    m := v;
    assert Runs(crew[v].todo, crew[v].hold) == Some(Hold(false, None));
    WaitsLight(crew, turns, v);
  }

  lemma StripeHolderMoves(crew: Crew, turns: nat -> nat, v: nat) returns (m: nat)
    requires Orderly(crew, turns) && v in crew && crew[v].hold.stripe.Some?
    requires forall shard :: TurnHolders(crew, shard) == {} && turns(shard) >= 1
    ensures m == v && CanMove(crew, turns, m)
  {
    m := v;
    assert Runs(crew[v].todo, crew[v].hold) == Some(Hold(false, None));
    WaitsLight(crew, turns, v);
    assert TurnHolders(crew, crew[v].shard) == {};
  }

  // ----- Running to the end

  function Left(crew: Crew, ids: seq<nat>): nat {
    if ids == [] then 0 else (if ids[0] in crew then |crew[ids[0]].todo| else 0) + Left(crew, ids[1..])
  }

  lemma {:induction false} LeftFalls(crew: Crew, w: nat, ids: seq<nat>)
    requires w in crew && crew[w].todo != [] && Next(crew[w].todo[0], crew[w].hold).Some?
    ensures Left(Move(crew, w), ids) <= Left(crew, ids)
    ensures w in ids ==> Left(Move(crew, w), ids) < Left(crew, ids)
    decreases |ids|
  {
    if ids != [] { LeftFalls(crew, w, ids[1..]); }
  }

  /** Whatever schedule picks the worker to move among those that can, everybody finishes. */
  method RunAll(start: Crew, ids: seq<nat>, turns: nat -> nat) returns (crew: Crew)
    requires Orderly(start, turns) && (forall shard :: turns(shard) >= 1) && forall w :: w in ids <==> w in start
    ensures crew.Keys == start.Keys && forall w <- crew :: crew[w].todo == [] && crew[w].hold == Hold(false, None)
  {
    crew := start;
    while exists w :: w in crew && crew[w].todo != []
      invariant Orderly(crew, turns) && crew.Keys == start.Keys
      decreases Left(crew, ids)
    {
      ghost var w0 :| w0 in crew && crew[w0].todo != [];
      ghost var m0 := SomebodyMoves(crew, turns, w0);
      var w :| w in crew && CanMove(crew, turns, w);
      MoveKeepsOrder(crew, turns, w);
      LeftFalls(crew, w, ids);
      crew := Move(crew, w);
    }
    forall w | w in crew ensures crew[w].todo == [] && crew[w].hold == Hold(false, None) {
      assert Runs(crew[w].todo, crew[w].hold) == Some(Hold(false, None));
    }
  }
}
