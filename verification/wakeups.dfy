/**
 Subgraph callers and their children. A step that calls a subgraph parks; the child's end releases it. The
 release is owed by a worker that can die on the way, and a sweep stands in for it. No caller is lost, none is
 released twice for one park, and none comes back to life after a Terminate.
 */
module Wakeups {
  datatype CallerStatus = Pending | Running | Interrupted | Over

  /** `epoch` is a history variable: how often the step has parked. */
  datatype Caller = Caller(status: CallerStatus, parked: bool, epoch: nat) {
    predicate Waiting() { status.Running? && parked }
  }

  datatype ChildStatus = Live | Completed | Lost | Terminated

  /** A child flow: the caller step it answers to, and (history) the park it was created for. */
  datatype Child = Child(caller: nat, status: ChildStatus, epoch: nat)

  /**
   `spawning`: callers whose worker still owes the child; `reviving`: completed children whose worker still owes
   the release. History: `rearmed`, the releases made; `dropped`, callers some worker died on.
   */
  datatype World = World(callers: map<nat, Caller>, children: map<nat, Child>, nextChild: nat,
                         spawning: set<nat>, reviving: set<nat>, rearmed: seq<(nat, nat)>, dropped: set<nat>)

  datatype Action =
    | ACall(s: nat)                 // a new step
    | AClaim(s: nat)
    | APark(s: nat)
    | ASpawn(s: nat)
    | ASpawnFails(s: nat)
    | ASpawnDies(s: nat)
    | AChildCompletes(c: nat)
    | AChildFails(c: nat)
    | ARevive(c: nat)
    | AReviveDies(c: nat)
    | ASweep(s: nat)
    | AYield(s: nat)                // a retry, a lease recovery, a drain
    | AFinish(s: nat)
    | APause(s: nat)
    | AResume(s: nat, asCaller: bool)
    | ATerminate(steps: set<nat>, flows: set<nat>)
    | AReapChildren(s: nat)         // a retried caller removes its earlier children

  predicate LiveChild(w: World, c: nat, s: nat) {
    c in w.children && w.children[c].caller == s && w.children[c].status.Live?
  }

  predicate Childless(w: World, s: nat) {
    forall c <- w.children :: !LiveChild(w, c, s)
  }

  predicate Waits(w: World, s: nat) {
    s in w.callers && w.callers[s].Waiting()
  }

  /** The sweep's query, and the assumption it rests on: it looks at callers no worker is busy with any more. */
  predicate Wedged(w: World, s: nat) {
    Waits(w, s) && Childless(w, s) && s !in w.spawning && forall c <- w.reviving :: c in w.children ==> w.children[c].caller != s
  }

  /** A child can end unless its caller is paused: the pause comes from inside the child. */
  predicate Ends(w: World, c: nat) {
    c in w.children && w.children[c].status.Live?
    && !(w.children[c].caller in w.callers && w.callers[w.children[c].caller].status.Interrupted?)
  }

  predicate Enabled(w: World, a: Action) {
    match a
    case ACall(s) => s !in w.callers
    case AClaim(s) => s in w.callers && w.callers[s].status.Pending?
    case APark(s) => s in w.callers && w.callers[s].status.Running? && !w.callers[s].parked && Childless(w, s) && s !in w.spawning
    case ASpawn(s) => s in w.spawning
    case ASpawnFails(s) => s in w.spawning
    case ASpawnDies(s) => s in w.spawning
    case AChildCompletes(c) => Ends(w, c)
    case AChildFails(c) => Ends(w, c)
    case ARevive(c) => c in w.reviving && c in w.children
    case AReviveDies(c) => c in w.reviving && c in w.children
    case ASweep(s) => Wedged(w, s)
    case AYield(s) => s in w.callers && w.callers[s].status.Running? && !w.callers[s].parked
    case AFinish(s) => s in w.callers && w.callers[s].status.Running? && !w.callers[s].parked
    // A caller pauses with its child; a step pauses on its own only when it is not waiting for one.
    case APause(s) => s in w.callers && w.callers[s].status.Running? && (w.callers[s].parked ==> !Childless(w, s))
    case AResume(s, asCaller) =>
      s in w.callers && w.callers[s].status.Interrupted? && (asCaller <==> !Childless(w, s))
    case ATerminate(steps, flows) =>
      // A Terminate covers a whole tree; the orphan sweep covers children of callers that are over.
      forall c <- flows | c in w.children && w.children[c].status.Live? ::
        w.children[c].caller in steps || (w.children[c].caller in w.callers && w.callers[w.children[c].caller].status.Over?)
    case AReapChildren(s) => s in w.callers && w.callers[s].status.Running? && !w.callers[s].parked
  }

  /** The one write that releases a caller: guarded on running and parked. */
  function Rearm(w: World, s: nat): World {
    if Waits(w, s) then
      w.(callers := w.callers[s := w.callers[s].(status := Pending, parked := false)],
         rearmed := w.rearmed + [(s, w.callers[s].epoch)])
    else w
  }

  function Apply(w: World, a: Action): World
    requires Enabled(w, a)
  {
    match a
    case ACall(s) => w.(callers := w.callers[s := Caller(Pending, false, 0)])
    case AClaim(s) => w.(callers := w.callers[s := w.callers[s].(status := Running)])
    case APark(s) =>
      w.(callers := w.callers[s := w.callers[s].(parked := true, epoch := w.callers[s].epoch + 1)], spawning := w.spawning + {s},
         dropped := w.dropped - {s})
    case ASpawn(s) =>
      w.(children := w.children[w.nextChild := Child(s, Live, if s in w.callers then w.callers[s].epoch else 0)],
         nextChild := w.nextChild + 1, spawning := w.spawning - {s})
    case ASpawnFails(s) =>
      var w1 := w.(spawning := w.spawning - {s});
      if s in w.callers && w.callers[s].status.Running?
      then w1.(callers := w.callers[s := w.callers[s].(status := Over, parked := false)]) else w1
    case ASpawnDies(s) => w.(spawning := w.spawning - {s}, dropped := w.dropped + {s})
    case AChildCompletes(c) =>
      w.(children := w.children[c := w.children[c].(status := Completed)], reviving := w.reviving + {c})
    case AChildFails(c) => Rearm(w.(children := w.children[c := w.children[c].(status := Lost)]), w.children[c].caller)
    case ARevive(c) => Rearm(w.(reviving := w.reviving - {c}), w.children[c].caller)
    case AReviveDies(c) => w.(reviving := w.reviving - {c}, dropped := w.dropped + {w.children[c].caller})
    case ASweep(s) => Rearm(w, s)
    case AYield(s) => w.(callers := w.callers[s := w.callers[s].(status := Pending)])
    case AFinish(s) => w.(callers := w.callers[s := w.callers[s].(status := Over)])
    case APause(s) => w.(callers := w.callers[s := w.callers[s].(status := Interrupted, parked := false)])
    case AResume(s, asCaller) =>
      w.(callers := w.callers[s := if asCaller then w.callers[s].(status := Running, parked := true)
                                   else w.callers[s].(status := Pending)])
    case ATerminate(steps, flows) =>
      w.(callers := map s | s in w.callers :: if s in steps && !w.callers[s].status.Over?
                                              then w.callers[s].(status := Over, parked := false) else w.callers[s],
         children := map c | c in w.children :: if c in flows && w.children[c].status.Live?
                                                then w.children[c].(status := Terminated) else w.children[c])
    case AReapChildren(s) =>
      w.(children := map c | c in w.children && w.children[c].caller != s :: w.children[c],
         reviving := set c | c in w.reviving && (c !in w.children || w.children[c].caller != s))
  }

  // ----- The invariant

  /** Somebody will release the caller for the park it is in. */
  ghost predicate Owed(w: World, s: nat)
    requires s in w.callers
  {
    || s in w.spawning
    || (exists c :: LiveChild(w, c, s) && w.children[c].epoch == w.callers[s].epoch)
    || (exists c :: c in w.reviving && c in w.children && w.children[c].caller == s && w.children[c].epoch == w.callers[s].epoch)
    || s in w.dropped
  }

  ghost predicate Logged(w: World, s: nat, e: nat) {
    exists i :: 0 <= i < |w.rearmed| && w.rearmed[i] == (s, e)
  }

  /** A child is at work for s, or about to be. */
  predicate Busy(w: World, s: nat) {
    !Childless(w, s) || s in w.spawning
  }

  ghost predicate CallerOk(w: World, s: nat)
    requires s in w.callers
  {
    var r := w.callers[s];
    && (r.parked ==> r.status.Running?)
    && (r.Waiting() ==> Owed(w, s) && !Logged(w, s, r.epoch))
    && (!Childless(w, s) ==> r.Waiting() || r.status.Interrupted? || r.status.Over?)
    && (s in w.spawning ==> Childless(w, s) && (r.Waiting() || r.status.Over?))
  }

  ghost predicate ChildOk(w: World, c: nat)
    requires c in w.children
  {
    var k := w.children[c];
    && c < w.nextChild && k.caller in w.callers
    && (k.status.Live? && !w.callers[k.caller].status.Over? ==>
          k.epoch == w.callers[k.caller].epoch && !Logged(w, k.caller, k.epoch))
    && (c in w.reviving ==>
          k.status.Completed?
          && (w.callers[k.caller].status.Over?
              || (Waits(w, k.caller) && k.epoch == w.callers[k.caller].epoch && !Busy(w, k.caller))))
  }

  /** Of two children of one caller that is not over, at most one is live or owed a release. */
  ghost predicate OneAtATime(w: World, c: nat, d: nat)
    requires c in w.children && d in w.children
  {
    var s := w.children[c].caller;
    c != d && s == w.children[d].caller && s in w.callers && !w.callers[s].status.Over?
    ==> !(w.children[c].status.Live? && w.children[d].status.Live?) && !(c in w.reviving && d in w.reviving)
  }

  ghost predicate LogOk(w: World) {
    && (forall i :: 0 <= i < |w.rearmed| ==> w.rearmed[i].0 in w.callers && w.rearmed[i].1 <= w.callers[w.rearmed[i].0].epoch)
    && (forall i, j :: 0 <= i < j < |w.rearmed| ==> w.rearmed[i] != w.rearmed[j])
  }

  ghost predicate Inv(w: World) {
    && (forall s {:trigger CallerOk(w, s)} :: s in w.callers ==> CallerOk(w, s))
    && (forall c {:trigger ChildOk(w, c)} :: c in w.children ==> ChildOk(w, c))
    && (forall c, d {:trigger OneAtATime(w, c, d)} :: c in w.children && d in w.children ==> OneAtATime(w, c, d))
    && w.spawning <= w.callers.Keys && w.reviving <= w.children.Keys && LogOk(w)
  }

  // ----- Each action keeps it

  /** The invariant of a new world, from facts about each row. */
  lemma CallerSame(w: World, w': World, s: nat)
    requires s in w.callers && s in w'.callers && w'.callers[s] == w.callers[s] && CallerOk(w, s)
    requires forall c :: LiveChild(w', c, s) <==> LiveChild(w, c, s)
    requires forall c | LiveChild(w, c, s) :: c in w'.children && w'.children[c] == w.children[c]
    requires s in w'.spawning <==> s in w.spawning
    requires s in w.dropped ==> s in w'.dropped
    requires forall c | c in w.reviving && c in w.children && w.children[c].caller == s ::
               c in w'.reviving && c in w'.children && w'.children[c] == w.children[c]
    requires Logged(w', s, w.callers[s].epoch) ==> Logged(w, s, w.callers[s].epoch)
    ensures CallerOk(w', s)
  {
  }

  lemma StatusOnly(w: World, s: nat, r: Caller)
    requires Inv(w) && s in w.callers && r.epoch == w.callers[s].epoch
    requires !Busy(w, s) && !w.callers[s].parked && !r.parked && (w.callers[s].status.Over? ==> r.status.Over?)
    ensures Inv(w.(callers := w.callers[s := r]))
  {
    var w' := w.(callers := w.callers[s := r]);
    assert CallerOk(w, s);
    forall x | x in w'.callers ensures CallerOk(w', x) {
      assert CallerOk(w, x);
      if x != s { CallerSame(w, w', x); }
    }
    forall c | c in w'.children ensures ChildOk(w', c) { assert ChildOk(w, c); }
    forall c, d | c in w'.children && d in w'.children ensures OneAtATime(w', c, d) { assert OneAtATime(w, c, d); }
  }

  lemma NewCaller(w: World, s: nat)
    requires Inv(w) && s !in w.callers
    ensures Inv(w.(callers := w.callers[s := Caller(Pending, false, 0)]))
  {
    var w' := w.(callers := w.callers[s := Caller(Pending, false, 0)]);
    forall c | c in w'.children ensures ChildOk(w', c) { assert ChildOk(w, c); }
    forall x | x in w'.callers ensures CallerOk(w', x) {
      if x != s {
        assert CallerOk(w, x);
        CallerSame(w, w', x);
      } else {
        forall c | c in w.children ensures !LiveChild(w', c, s) { assert ChildOk(w, c); }
      }
    }
    forall c, d | c in w'.children && d in w'.children ensures OneAtATime(w', c, d) {
      assert OneAtATime(w, c, d) && ChildOk(w, c);
    }
  }

  /** The release of a waiting caller: nothing of the park it was in is left behind. */
  lemma Release(w: World, w': World, s: nat)
    requires Inv(w) && Waits(w, s) && s !in w.spawning
    requires w'.callers == w.callers[s := w.callers[s].(status := Pending, parked := false)]
    requires w'.rearmed == w.rearmed + [(s, w.callers[s].epoch)]
    requires w'.spawning == w.spawning && w'.dropped == w.dropped && w'.nextChild == w.nextChild
    requires w'.children.Keys == w.children.Keys
    requires forall c <- w.children :: w'.children[c].caller == w.children[c].caller
               && (w.children[c].caller != s ==> w'.children[c] == w.children[c])
               && (w.children[c].caller == s ==> !w'.children[c].status.Live?)
    requires forall c <- w.children :: c in w'.reviving <==> c in w.reviving && w.children[c].caller != s
    requires w'.reviving <= w.reviving
    ensures Inv(w')
  {
    assert CallerOk(w, s);
    ReleaseLog(w, w', s);
    forall x | x in w'.callers ensures CallerOk(w', x) {
      assert CallerOk(w, x);
      if x != s {
        forall c ensures LiveChild(w', c, x) <==> LiveChild(w, c, x) {}
        CallerSame(w, w', x);
      }
    }
    forall c | c in w'.children ensures ChildOk(w', c) { ReleasedChild(w, w', s, c); }
    forall c, d | c in w'.children && d in w'.children ensures OneAtATime(w', c, d) { assert OneAtATime(w, c, d); }
  }

  lemma ReleaseLog(w: World, w': World, s: nat)
    requires LogOk(w) && Waits(w, s) && !Logged(w, s, w.callers[s].epoch)
    requires w'.callers == w.callers[s := w.callers[s].(status := Pending, parked := false)]
    requires w'.rearmed == w.rearmed + [(s, w.callers[s].epoch)]
    ensures LogOk(w')
    ensures forall x, e :: x != s ==> (Logged(w', x, e) <==> Logged(w, x, e))
  {
    forall x: nat, e: nat | x != s ensures Logged(w', x, e) <==> Logged(w, x, e) {
      if Logged(w, x, e) {
        var i :| 0 <= i < |w.rearmed| && w.rearmed[i] == (x, e);
        assert w'.rearmed[i] == (x, e);
      }
    }
  }

  lemma ReleasedChild(w: World, w': World, s: nat, c: nat)
    requires Inv(w) && Waits(w, s) && c in w.children && c in w'.children
    requires w'.callers == w.callers[s := w.callers[s].(status := Pending, parked := false)] && w'.nextChild == w.nextChild
    requires forall x, e :: x != s ==> (Logged(w', x, e) <==> Logged(w, x, e))
    requires w'.spawning == w.spawning && w'.children[c].caller == w.children[c].caller
    requires forall d, x :: x != s ==> (LiveChild(w', d, x) <==> LiveChild(w, d, x))
    requires w.children[c].caller != s ==> w'.children[c] == w.children[c] && (c in w'.reviving <==> c in w.reviving)
    requires w.children[c].caller == s ==> !w'.children[c].status.Live? && c !in w'.reviving
    ensures ChildOk(w', c)
  {
    assert ChildOk(w, c);
    var x := w.children[c].caller;
    if x != s && Busy(w', x) { assert Busy(w, x); }
  }

  lemma SweepInv(w: World, s: nat)
    requires Inv(w) && Enabled(w, ASweep(s))
    ensures Inv(Apply(w, ASweep(s)))
  {
    forall c | c in w.children && w.children[c].caller == s ensures !w.children[c].status.Live? {
      assert !LiveChild(w, c, s);
    }
    Release(w, Apply(w, ASweep(s)), s);
  }

  lemma ReviveInv(w: World, c: nat)
    requires Inv(w) && Enabled(w, ARevive(c))
    ensures Inv(Apply(w, ARevive(c)))
  {
    var s := w.children[c].caller;
    assert ChildOk(w, c);
    forall d | d in w.children && w.children[d].caller == s && Waits(w, s)
      ensures !w.children[d].status.Live? && (d in w.reviving ==> d == c)
    {
      assert !LiveChild(w, d, s);
      assert OneAtATime(w, c, d);
    }
    if Waits(w, s) { Release(w, Apply(w, ARevive(c)), s); } else { Forget(w, c); }
  }

  /** A release owed to a caller that is over is forgotten. */
  lemma Forget(w: World, c: nat)
    requires Inv(w) && c in w.children && w.children[c].caller in w.callers && w.callers[w.children[c].caller].status.Over?
    ensures Inv(w.(reviving := w.reviving - {c}))
  {
    var w' := w.(reviving := w.reviving - {c});
    forall x | x in w'.callers ensures CallerOk(w', x) {
      assert CallerOk(w, x);
      if w.callers[x].Waiting() { CallerSame(w, w', x); }
    }
    forall d | d in w'.children ensures ChildOk(w', d) { assert ChildOk(w, d); }
    forall d, e | d in w'.children && e in w'.children ensures OneAtATime(w', d, e) { assert OneAtATime(w, d, e); }
  }

  lemma ChildFailsInv(w: World, c: nat)
    requires Inv(w) && Enabled(w, AChildFails(c))
    ensures Inv(Apply(w, AChildFails(c)))
  {
    var s := w.children[c].caller;
    assert ChildOk(w, c) && CallerOk(w, s);
    assert LiveChild(w, c, s);
    forall d | d in w.children && w.children[d].caller == s && Waits(w, s)
      ensures d != c ==> !w.children[d].status.Live?
      ensures d !in w.reviving
    {
      assert OneAtATime(w, c, d) && ChildOk(w, d);
    }
    if Waits(w, s) { Release(w, Apply(w, AChildFails(c)), s); } else { ChildOfOver(w, c, Lost); }
  }

  /** The child of a caller that is over ends. */
  lemma ChildOfOver(w: World, c: nat, st: ChildStatus)
    requires Inv(w) && c in w.children && w.children[c].status.Live? && !st.Live?
    requires w.children[c].caller in w.callers && w.callers[w.children[c].caller].status.Over?
    ensures Inv(w.(children := w.children[c := w.children[c].(status := st)]))
  {
    var w' := w.(children := w.children[c := w.children[c].(status := st)]);
    assert ChildOk(w, c);
    forall x | x in w'.callers ensures CallerOk(w', x) {
      assert CallerOk(w, x);
      if x != w.children[c].caller { CallerSame(w, w', x); }
    }
    forall d | d in w'.children ensures ChildOk(w', d) {
      assert ChildOk(w, d);
      if Busy(w', w.children[d].caller) { BusyFewer(w, w', w.children[d].caller); }
    }
    forall d, e | d in w'.children && e in w'.children ensures OneAtATime(w', d, e) { assert OneAtATime(w, d, e); }
  }

  lemma BusyFewer(w: World, w': World, s: nat)
    requires Busy(w', s) && w'.spawning <= w.spawning && forall c | LiveChild(w', c, s) :: LiveChild(w, c, s)
    ensures Busy(w, s)
  {
    if !Childless(w', s) {
      var c :| c in w'.children && LiveChild(w', c, s);
      assert LiveChild(w, c, s);
    }
  }

  lemma ChildCompletesInv(w: World, c: nat)
    requires Inv(w) && Enabled(w, AChildCompletes(c))
    ensures Inv(Apply(w, AChildCompletes(c)))
  {
    var w' := Apply(w, AChildCompletes(c));
    var s := w.children[c].caller;
    assert ChildOk(w, c) && CallerOk(w, s);
    assert LiveChild(w, c, s);
    forall d | d in w'.children && Waits(w, s) ensures !LiveChild(w', d, s) && (d in w.reviving ==> w.children[d].caller != s) {
      assert OneAtATime(w, c, d) && ChildOk(w, d);
    }
    forall x | x in w'.callers ensures CallerOk(w', x) {
      assert CallerOk(w, x);
      if x != s { CallerSame(w, w', x); } else if Waits(w, s) { assert c in w'.reviving && w'.children[c].epoch == w'.callers[s].epoch; }
    }
    forall d | d in w'.children ensures ChildOk(w', d) {
      assert ChildOk(w, d);
      if Busy(w', w.children[d].caller) { BusyFewer(w, w', w.children[d].caller); }
    }
    forall d, e | d in w'.children && e in w'.children ensures OneAtATime(w', d, e) {
      assert OneAtATime(w, d, e) && ChildOk(w, d) && ChildOk(w, e);
    }
  }

  lemma ParkInv(w: World, s: nat)
    requires Inv(w) && Enabled(w, APark(s))
    ensures Inv(Apply(w, APark(s)))
  {
    var w' := Apply(w, APark(s));
    var e := w.callers[s].epoch + 1;
    assert CallerOk(w, s);
    forall c | c in w'.children ensures ChildOk(w', c) {
      assert ChildOk(w, c);
      assert !LiveChild(w, c, s);
    }
    if Logged(w', s, e) { var i :| 0 <= i < |w.rearmed| && w.rearmed[i] == (s, e); }
    forall x | x in w'.callers ensures CallerOk(w', x) {
      assert CallerOk(w, x);
      if x != s { CallerSame(w, w', x); } else { assert forall c :: LiveChild(w', c, s) <==> LiveChild(w, c, s); }
    }
    forall c, d | c in w'.children && d in w'.children ensures OneAtATime(w', c, d) {
      assert OneAtATime(w, c, d) && ChildOk(w, c) && ChildOk(w, d);
    }
  }

  lemma SpawnInv(w: World, s: nat)
    requires Inv(w) && Enabled(w, ASpawn(s))
    ensures Inv(Apply(w, ASpawn(s)))
  {
    var w' := Apply(w, ASpawn(s));
    var n := w.nextChild;
    assert CallerOk(w, s);
    forall c | c in w.children ensures c != n && ChildOk(w, c) && w'.children[c] == w.children[c] { assert ChildOk(w, c); }
    forall c ensures LiveChild(w', c, s) <==> c == n { if c in w.children { assert !LiveChild(w, c, s); } }
    forall x | x in w'.callers ensures CallerOk(w', x) {
      assert CallerOk(w, x);
      if x != s {
        forall c ensures LiveChild(w', c, x) <==> LiveChild(w, c, x) {}
        CallerSame(w, w', x);
      } else {
        assert LiveChild(w', n, s) && w'.children[n].epoch == w'.callers[s].epoch;
        assert w'.callers[s] == w.callers[s];
        assert Logged(w', s, w.callers[s].epoch) ==> Logged(w, s, w.callers[s].epoch);
      }
    }
    forall c | c in w'.children ensures ChildOk(w', c) {
      if c != n {
        var x := w.children[c].caller;
        if x != s {
          assert Busy(w', x) ==> Busy(w, x) by { if Busy(w', x) { BusyElsewhere(w, w', s, x); } }
        }
      }
    }
    forall c, d | c in w'.children && d in w'.children ensures OneAtATime(w', c, d) {
      if c != n && d != n { assert OneAtATime(w, c, d); }
      else if c != n { assert ChildOk(w, c); assert !LiveChild(w, c, s); }
      else if d != n { assert ChildOk(w, d); assert !LiveChild(w, d, s); }
    }
  }

  lemma BusyElsewhere(w: World, w': World, s: nat, x: nat)
    requires x != s && Busy(w', x) && w'.spawning <= w.spawning
    requires forall c | LiveChild(w', c, x) :: LiveChild(w, c, x)
    ensures Busy(w, x)
  {
    BusyFewer(w, w', x);
  }

  /** A write to the status of a caller whose park and children stay as they are. */
  lemma PauseInv(w: World, s: nat)
    requires Inv(w) && Enabled(w, APause(s)) && w.callers[s].parked
    ensures Inv(Apply(w, APause(s)))
  {
    var w' := Apply(w, APause(s));
    assert CallerOk(w, s);
    forall x | x in w'.callers ensures CallerOk(w', x) {
      assert CallerOk(w, x);
      if x != s { CallerSame(w, w', x); }
    }
    forall c | c in w'.children ensures ChildOk(w', c) {
      assert ChildOk(w, c);
      assert w.children[c].caller == s ==> c !in w.reviving;
    }
    forall c, d | c in w'.children && d in w'.children ensures OneAtATime(w', c, d) { assert OneAtATime(w, c, d); }
  }

  lemma ResumeInv(w: World, s: nat)
    requires Inv(w) && Enabled(w, AResume(s, true))
    ensures Inv(Apply(w, AResume(s, true)))
  {
    var w' := Apply(w, AResume(s, true));
    assert CallerOk(w, s);
    var c0 :| c0 in w.children && LiveChild(w, c0, s);
    assert ChildOk(w, c0);
    assert LiveChild(w', c0, s);
    forall x | x in w'.callers ensures CallerOk(w', x) {
      assert CallerOk(w, x);
      if x != s { CallerSame(w, w', x); }
    }
    forall c | c in w'.children ensures ChildOk(w', c) { assert ChildOk(w, c); }
    forall c, d | c in w'.children && d in w'.children ensures OneAtATime(w', c, d) { assert OneAtATime(w, c, d); }
  }

  /** The worker that owed the child is gone, with its caller failed or not. */
  lemma SpawnDiesInv(w: World, s: nat)
    requires Inv(w) && Enabled(w, ASpawnDies(s))
    ensures Inv(Apply(w, ASpawnDies(s)))
  {
    var w' := Apply(w, ASpawnDies(s));
    forall x | x in w'.callers ensures CallerOk(w', x) {
      assert CallerOk(w, x);
      if x != s { CallerSame(w, w', x); }
    }
    forall c | c in w'.children ensures ChildOk(w', c) {
      assert ChildOk(w, c);
      if Busy(w', w.children[c].caller) { BusyFewer(w, w', w.children[c].caller); }
    }
    forall c, d | c in w'.children && d in w'.children ensures OneAtATime(w', c, d) { assert OneAtATime(w, c, d); }
  }

  lemma SpawnFailsInv(w: World, s: nat)
    requires Inv(w) && Enabled(w, ASpawnFails(s))
    ensures Inv(Apply(w, ASpawnFails(s)))
  {
    var w' := Apply(w, ASpawnFails(s));
    assert CallerOk(w, s);
    forall x | x in w'.callers ensures CallerOk(w', x) {
      assert CallerOk(w, x);
      if x != s { CallerSame(w, w', x); }
    }
    forall c | c in w'.children ensures ChildOk(w', c) {
      assert ChildOk(w, c);
      if Busy(w', w.children[c].caller) { BusyFewer(w, w', w.children[c].caller); }
    }
    forall c, d | c in w'.children && d in w'.children ensures OneAtATime(w', c, d) { assert OneAtATime(w, c, d); }
  }

  lemma ReviveDiesInv(w: World, c: nat)
    requires Inv(w) && Enabled(w, AReviveDies(c))
    ensures Inv(Apply(w, AReviveDies(c)))
  {
    var w' := Apply(w, AReviveDies(c));
    forall x | x in w'.callers ensures CallerOk(w', x) {
      assert CallerOk(w, x);
      if x != w.children[c].caller { CallerSame(w, w', x); }
    }
    forall d | d in w'.children ensures ChildOk(w', d) { assert ChildOk(w, d); }
    forall d, e | d in w'.children && e in w'.children ensures OneAtATime(w', d, e) { assert OneAtATime(w, d, e); }
  }

  lemma TerminateCaller(w: World, steps: set<nat>, flows: set<nat>, x: nat)
    requires Inv(w) && Enabled(w, ATerminate(steps, flows)) && x in w.callers
    ensures CallerOk(Apply(w, ATerminate(steps, flows)), x)
  {
    var w' := Apply(w, ATerminate(steps, flows));
    assert CallerOk(w, x);
    if !w'.callers[x].status.Over? {
      forall c ensures LiveChild(w', c, x) <==> LiveChild(w, c, x) {}
      CallerSame(w, w', x);
    } else if Busy(w', x) {
      BusyFewer(w, w', x);
    }
  }

  lemma TerminateInv(w: World, steps: set<nat>, flows: set<nat>)
    requires Inv(w) && Enabled(w, ATerminate(steps, flows))
    ensures Inv(Apply(w, ATerminate(steps, flows)))
  {
    var w' := Apply(w, ATerminate(steps, flows));
    forall x | x in w'.callers ensures CallerOk(w', x) { TerminateCaller(w, steps, flows, x); }
    forall c | c in w'.children ensures ChildOk(w', c) {
      assert ChildOk(w, c);
      if Busy(w', w.children[c].caller) { BusyFewer(w, w', w.children[c].caller); }
    }
    forall c, d | c in w'.children && d in w'.children ensures OneAtATime(w', c, d) { assert OneAtATime(w, c, d); }
  }

  lemma ReapInv(w: World, s: nat)
    requires Inv(w) && Enabled(w, AReapChildren(s))
    ensures Inv(Apply(w, AReapChildren(s)))
  {
    var w' := Apply(w, AReapChildren(s));
    assert CallerOk(w, s);
    forall x | x in w'.callers ensures CallerOk(w', x) {
      assert CallerOk(w, x);
      if x != s {
        forall c ensures LiveChild(w', c, x) <==> LiveChild(w, c, x) {}
        CallerSame(w, w', x);
      } else if Busy(w', s) {
        BusyFewer(w, w', s);
      }
    }
    forall c | c in w'.children ensures ChildOk(w', c) {
      assert ChildOk(w, c);
      if Busy(w', w.children[c].caller) { BusyFewer(w, w', w.children[c].caller); }
    }
    forall c, d | c in w'.children && d in w'.children ensures OneAtATime(w', c, d) { assert OneAtATime(w, c, d); }
  }

  lemma StepInv(w: World, a: Action)
    requires Inv(w) && Enabled(w, a)
    ensures Inv(Apply(w, a))
  {
    match a
    case ACall(s) => NewCaller(w, s);
    case AClaim(s) => assert CallerOk(w, s); StatusOnly(w, s, w.callers[s].(status := Running));
    case APark(s) => ParkInv(w, s);
    case ASpawn(s) => SpawnInv(w, s);
    case ASpawnFails(s) => SpawnFailsInv(w, s);
    case ASpawnDies(s) => SpawnDiesInv(w, s);
    case AChildCompletes(c) => ChildCompletesInv(w, c);
    case AChildFails(c) => ChildFailsInv(w, c);
    case ARevive(c) => ReviveInv(w, c);
    case AReviveDies(c) => ReviveDiesInv(w, c);
    case ASweep(s) => SweepInv(w, s);
    case AYield(s) => assert CallerOk(w, s); StatusOnly(w, s, w.callers[s].(status := Pending));
    case AFinish(s) => assert CallerOk(w, s); StatusOnly(w, s, w.callers[s].(status := Over));
    case APause(s) =>
      if w.callers[s].parked {
        PauseInv(w, s);
      } else {
        assert CallerOk(w, s);
        StatusOnly(w, s, w.callers[s].(status := Interrupted, parked := false));
      }
    case AResume(s, asCaller) =>
      if asCaller {
        ResumeInv(w, s);
      } else {
        assert CallerOk(w, s);
        StatusOnly(w, s, w.callers[s].(status := Pending));
      }
    case ATerminate(steps, flows) => TerminateInv(w, steps, flows);
    case AReapChildren(s) => ReapInv(w, s);
  }

  // ----- Runs

  ghost predicate Init(w: World) {
    w == World(map[], map[], 1, {}, {}, [], {})
  }

  ghost predicate Moves(w: World, w': World) {
    exists a :: Enabled(w, a) && w' == Apply(w, a)
  }

  ghost predicate StepAt(run: seq<World>, i: int) {
    0 < i < |run| ==> Moves(run[i - 1], run[i])
  }

  ghost predicate Run(run: seq<World>) {
    |run| > 0 && Init(run[0]) && forall i {:trigger StepAt(run, i)} :: StepAt(run, i)
  }

  lemma {:induction false} RunInv(run: seq<World>, i: nat)
    requires Run(run) && i < |run|
    ensures Inv(run[i])
  {
    if i > 0 {
      RunInv(run, i - 1);
      assert StepAt(run, i);
      MoveInv(run[i - 1], run[i]);
    }
  }

  lemma MoveInv(w: World, w': World)
    requires Inv(w) && Moves(w, w')
    ensures Inv(w')
  {
    var a :| Enabled(w, a) && w' == Apply(w, a);
    StepInv(w, a);
  }

  /**
   No lost wake-up: a waiting caller has a live child made for this very park, a worker about to make it, or a
   worker about to release it - unless a worker died on it, and then, once nobody is busy with it, the sweep's
   query finds it.
   */
  lemma NoLostWakeup(run: seq<World>, i: nat, s: nat)
    requires Run(run) && i < |run| && Waits(run[i], s)
    ensures Owed(run[i], s)
    ensures Wedged(run[i], s) ==> s in run[i].dropped
    ensures !Wedged(run[i], s) ==> Busy(run[i], s) || exists c <- run[i].reviving :: c in run[i].children && run[i].children[c].caller == s
  {
    RunInv(run, i);
    assert CallerOk(run[i], s);
  }

  /** One park is answered at most once. */
  lemma RearmedOnce(run: seq<World>, i: nat, j: nat, k: nat)
    requires Run(run) && i < |run| && 0 <= j < k < |run[i].rearmed|
    ensures run[i].rearmed[j] != run[i].rearmed[k]
  {
    RunInv(run, i);
  }

  /** A caller that is over stays over: no release, sweep or resume ever moves it. */
  lemma {:induction false} OverForGood(run: seq<World>, i: nat, j: nat, s: nat)
    requires Run(run) && i <= j < |run| && s in run[i].callers && run[i].callers[s].status.Over?
    ensures s in run[j].callers && run[j].callers[s].status.Over?
    decreases j - i
  {
    if i < j {
      OverForGood(run, i, j - 1, s);
      RunInv(run, j - 1);
      assert StepAt(run, j);
      OverNext(run[j - 1], run[j], s);
    }
  }

  lemma OverNext(w: World, w': World, s: nat)
    requires Inv(w) && Moves(w, w') && s in w.callers && w.callers[s].status.Over?
    ensures s in w'.callers && w'.callers[s].status.Over?
  {
    assert CallerOk(w, s);
    var a :| Enabled(w, a) && w' == Apply(w, a);
  }

  // ----- What moves a caller

  /** The caller c's child answers to. */
  predicate AnswersTo(w: World, c: nat, s: nat) { c in w.children && w.children[c].caller == s }

  /** Releases the waiting caller s: its child failed, the worker of its completed child got there, or the sweep did. */
  predicate Frees(w: World, a: Action, s: nat) {
    match a
    case AChildFails(c) => AnswersTo(w, c, s)
    case ARevive(c) => AnswersTo(w, c, s)
    case ASweep(t) => t == s
    case _ => false
  }

  /**
   A wait ends by the end of the caller's own child or the sweep - and then the caller is to be claimed again, and the
   release is on record for the park it was in - or because the caller is paused with its child, failed by the worker
   that could not start it, or terminated. Nothing else ends it, and each of these does.
   */
  lemma WaitEnds(w: World, a: Action, s: nat)
    requires Enabled(w, a) && Waits(w, s)
    ensures s in Apply(w, a).callers
    ensures !Waits(Apply(w, a), s)
            <==> Frees(w, a, s) || a == APause(s) || a == ASpawnFails(s) || (a.ATerminate? && s in a.steps)
    ensures Frees(w, a, s) ==> var w' := Apply(w, a);
              w'.callers[s] == w.callers[s].(status := Pending, parked := false) && w'.rearmed == w.rearmed + [(s, w.callers[s].epoch)]
    ensures a == ASpawnFails(s) || (a.ATerminate? && s in a.steps) ==> Apply(w, a).callers[s].status.Over?
    ensures a == APause(s) ==> Apply(w, a).callers[s].status.Interrupted?
  {
  }

  /** A caller comes to wait by parking or by a resume that finds its child still live; a park is a new one, and owes a child. */
  lemma WaitBegins(w: World, a: Action, s: nat)
    requires Enabled(w, a) && s in w.callers && !Waits(w, s)
    ensures s in Apply(w, a).callers
    ensures Waits(Apply(w, a), s) <==> a == APark(s) || (a.AResume? && a.s == s && !Childless(w, s)) || (a == AClaim(s) && w.callers[s].parked)
    ensures a == APark(s) ==> s in Apply(w, a).spawning && Apply(w, a).callers[s].epoch == w.callers[s].epoch + 1
  {
  }

  /** A step comes to be claimed by its worker giving it up, by the end of its wait, or by the resume of a pause of its own. */
  lemma BecomesPending(w: World, a: Action, s: nat)
    requires Enabled(w, a) && s in w.callers && !w.callers[s].status.Pending?
    ensures Apply(w, a).callers[s].status.Pending? <==> (Waits(w, s) && Frees(w, a, s)) || a == AYield(s) || a == AResume(s, false)
  {
  }

  /** It is over when its worker finishes it, when its child could not be started, and when it is terminated. */
  lemma BecomesOver(w: World, a: Action, s: nat)
    requires Enabled(w, a) && s in w.callers && !w.callers[s].status.Over?
    ensures Apply(w, a).callers[s].status.Over?
            <==> a == AFinish(s) || (a == ASpawnFails(s) && w.callers[s].status.Running?) || (a.ATerminate? && s in a.steps)
  {
  }

  /** A Terminate stops exactly the callers and the live children it names. */
  lemma TerminateStops(w: World, steps: set<nat>, flows: set<nat>)
    requires Enabled(w, ATerminate(steps, flows))
    ensures var w' := Apply(w, ATerminate(steps, flows));
            && w'.callers.Keys == w.callers.Keys && w'.children.Keys == w.children.Keys
            && (forall s <- w.callers :: if s in steps then w'.callers[s].status.Over? && !Waits(w', s) else w'.callers[s] == w.callers[s])
            && (forall c <- w.children :: if c in flows && w.children[c].status.Live?
                                          then w'.children[c] == w.children[c].(status := Terminated) else w'.children[c] == w.children[c])
  {
  }

  /** A retried caller starts with no child of an earlier attempt, and no release owed by one; other callers' children stay. */
  lemma RetryStartsClean(w: World, s: nat)
    requires Enabled(w, AReapChildren(s))
    ensures var w' := Apply(w, AReapChildren(s));
            && (forall c <- w'.children :: w'.children[c].caller != s && c in w.children && w'.children[c] == w.children[c])
            && (forall c <- w.children | w.children[c].caller != s :: c in w'.children)
            && (forall c :: c in w'.reviving <==> c in w.reviving && !AnswersTo(w, c, s))
            && w'.callers == w.callers
  {
  }

  // ----- The sweep as the engine runs it

  /** The hits are read first and acted on one by one; the guard of each write makes a stale hit harmless. */
  method RecoverWedged(w: World, hits: seq<nat>) returns (w': World)
    requires Inv(w) && forall h <- hits :: Wedged(w, h)
    ensures Inv(w')
    ensures forall s :: Waits(w', s) <==> Waits(w, s) && s !in hits
    ensures w'.children == w.children && w'.spawning == w.spawning && w'.reviving == w.reviving
  {
    w' := w;
    for i := 0 to |hits|
      invariant Inv(w') && w'.children == w.children && w'.spawning == w.spawning && w'.reviving == w.reviving
      invariant forall s :: Waits(w', s) <==> Waits(w, s) && s !in hits[..i]
    {
      var s := hits[i];
      assert hits[..i + 1] == hits[..i] + [s];
      assert s in hits;
      if Waits(w', s) {
        forall c | c in w'.children ensures !LiveChild(w', c, s) { assert !LiveChild(w, c, s); }
        SweepInv(w', s);
        w' := Rearm(w', s);
      }
    }
    assert hits[..|hits|] == hits;
  }
}
