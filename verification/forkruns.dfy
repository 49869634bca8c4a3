/**
 Forks in whole runs. A run is looked at together with the actions that made it, so that the flows a reap, a
 direct edge or a frozen clone ever touched are known; every fork of any other flow finds what it needs.
 */
module ForkRuns {
  import opened Rows
  import opened Transactions
  import opened Shape
  import opened Shaping
  import opened Reach
  import opened Pruning
  import opened Recount
  import opened ForkExact
  import opened Machine
  import opened Quiet
  import opened Runs
  import opened Heritage
  import opened HeritageSteps
  import opened HeritageFork

  ghost predicate ActAt(run: seq<World>, acts: seq<Action>, i: int) {
    0 <= i < |acts| && |run| == |acts| + 1 ==>
      LineageDown(run[i].db.steps) && Enabled(run[i], acts[i]) && run[i + 1] == Apply(run[i], acts[i])
  }

  /** The run these actions make. */
  ghost predicate RunBy(run: seq<World>, acts: seq<Action>) {
    |run| == |acts| + 1 && Init(run[0]) && forall i {:trigger ActAt(run, acts, i)} :: ActAt(run, acts, i)
  }

  lemma RunByRun(run: seq<World>, acts: seq<Action>)
    requires RunBy(run, acts)
    ensures Run(run)
  {
    forall i ensures StepAt(run, i) {
      if 0 < i < |run| { assert ActAt(run, acts, i - 1); }
    }
  }

  /** Every run is made by some actions. */
  lemma {:induction false} ActsOf(run: seq<World>) returns (acts: seq<Action>)
    requires Run(run)
    ensures RunBy(run, acts)
    decreases |run|
  {
    if |run| == 1 {
      acts := [];
    } else {
      var n := |run| - 1;
      var before := run[..n];
      forall i ensures StepAt(before, i) { assert StepAt(run, i); }
      var first := ActsOf(before);
      assert StepAt(run, n);
      var a :| Enabled(run[n - 1], a) && run[n] == Apply(run[n - 1], a);
      acts := first + [a];
      forall i ensures ActAt(run, acts, i) { assert ActAt(before, first, i); }
    }
  }

  /** What the actions up to state i leave to be remembered. */
  ghost function PastOf(run: seq<World>, acts: seq<Action>, i: nat): Past
    requires RunBy(run, acts) && i < |run|
  {
    if i == 0 then Past({}, {}, {})
    else
      assert ActAt(run, acts, i - 1);
      After(run[i - 1], PastOf(run, acts, i - 1), acts[i - 1])
  }

  lemma ActHanded(w: World, p: Past, a: Action)
    requires Inv(w) && LineageDown(w.db.steps) && Handed(w, p) && Enabled(w, a)
    ensures Handed(Apply(w, a), After(w, p, a))
  {
    if a.AFork? { ForkHanded(w, p, a.f, a.x, a.caller, a.ids, a.top); } else { StepHanded(w, p, a); }
  }

  lemma NothingYet(w: World)
    requires Init(w)
    ensures Handed(w, Past({}, {}, {}))
  {
  }

  lemma PastGrows(run: seq<World>, acts: seq<Action>, i: nat)
    requires RunBy(run, acts) && 0 < i < |run| && Inv(run[i - 1]) && Handed(run[i - 1], PastOf(run, acts, i - 1))
    ensures Handed(run[i], PastOf(run, acts, i))
  {
    assert ActAt(run, acts, i - 1);
    ActHanded(run[i - 1], PastOf(run, acts, i - 1), acts[i - 1]);
  }

  lemma {:induction false} PastHolds(run: seq<World>, acts: seq<Action>, i: nat)
    requires RunBy(run, acts) && i < |run| && forall j {:trigger run[j]} :: 0 <= j < |run| ==> Inv(run[j])
    ensures Handed(run[i], PastOf(run, acts, i))
    decreases i
  {
    if i > 0 {
      PastHolds(run, acts, i - 1);
      PastGrows(run, acts, i);
    } else {
      NothingYet(run[0]);
    }
  }

  lemma RunHanded(run: seq<World>, acts: seq<Action>, i: nat)
    requires RunBy(run, acts) && i < |run|
    ensures Inv(run[i]) && Handed(run[i], PastOf(run, acts, i))
  {
    RunByRun(run, acts);
    forall j | 0 <= j < |run| ensures Inv(run[j]) { RunInv(run, j); }
    PastHolds(run, acts, i);
  }

  // ----- What a fork finds

  /** Every branch of a converged cohort ended in a task with an ordinary edge to the fan-in, not in a goto or an error route. */
  ghost predicate ExitsByEdge(steps: map<nat, Step>, f: nat) {
    forall y {:trigger steps[y].exitTask} ::
      (y in steps && steps[y].flow == f && steps[y].lineage != 0 && steps[y].lineage in steps
       && steps[steps[y].lineage].next != 0 && steps[y].next == 0 && !steps[y].spawned) ==> steps[y].exitTask
  }

  lemma StopFits(w: World, p: Past, f: nat, x: nat)
    requires Inv(w) && Handed(w, p) && x in w.db.steps && w.db.steps[x].flow == f
    requires forall y <- w.db.steps | w.db.steps[y].flow == f :: y !in p.reaped
    ensures LossesStop(w.db.steps, f, x)
  {
    var steps := w.db.steps;
    forall y | y in Kept(steps, f, x) && y in steps && y != x
      ensures steps[y].Faulted() ==> !steps[y].spawned && steps[y].next == 0
      ensures steps[y].spawned && steps[y].next != 0 && !Within(steps, x, y) ==> !HoldsLoss(steps, f, x, y)
    {
      assert StepShape(steps, y);
      assert steps[y].Passed();
      forall z | z in Kept(steps, f, x) && z in steps && Within(steps, z, y) && steps[y].next != 0 ensures !steps[z].Faulted() {
        assert steps[z].Passed();
        assert !steps[z].Loose();
      }
    }
  }

  lemma HeadsFit(w: World, p: Past, f: nat, x: nat)
    requires Handed(w, p) && f !in p.direct
    ensures KeptHeaded(w.db.steps, f, x)
  {
  }

  lemma FanInsFit(w: World, p: Past, f: nat, x: nat)
    requires Inv(w) && Handed(w, p) && x in w.db.steps && w.db.steps[x].flow == f && f !in p.frozen && ExitsByEdge(w.db.steps, f)
    ensures FanInsPruned(w.db.steps, f, x)
  {
    var steps := w.db.steps;
    NestedFromShape(steps);
    forall y | y in steps && steps[y].flow == f
      && steps[y].lineage != 0 && steps[y].lineage in steps && steps[steps[y].lineage].next != 0 && steps[y].next == 0
      ensures steps[y].succ == steps[steps[y].lineage].next
    {
      assert StepShape(steps, y);
      assert !steps[y].spawned && steps[y].exitTask;
    }
    var top := AllBelow(steps);
    forall s | Within(steps, x, s) && s in steps && steps[s].next != 0 ensures Reaches(steps, x, steps[s].next) {
      PathPruned(steps, f, x, s, top);
    }
  }

  /**
   What a fork needs, and where in a run it can be missing: only a reap over a completed step leaves a loss that
   has gone on, only a direct edge a branch without a head, only a frozen clone or an exit by goto or error route a
   fan-in that is kept beside the rewound branch. The fork of any other flow, at any step, fits.
   */
  lemma ForksFit(run: seq<World>, acts: seq<Action>, i: nat, f: nat, x: nat)
    requires RunBy(run, acts) && i < |run| && x in run[i].db.steps && run[i].db.steps[x].flow == f
    ensures var steps, p := run[i].db.steps, PastOf(run, acts, i);
            && ((forall y <- steps | steps[y].flow == f :: y !in p.reaped) ==> LossesStop(steps, f, x))
            && (f !in p.direct ==> KeptHeaded(steps, f, x))
            && (f !in p.frozen && ExitsByEdge(steps, f) ==> FanInsPruned(steps, f, x))
  {
    RunHanded(run, acts, i);
    var steps, p := run[i].db.steps, PastOf(run, acts, i);
    if forall y <- steps | steps[y].flow == f :: y !in p.reaped { StopFits(run[i], p, f, x); }
    if f !in p.direct { HeadsFit(run[i], p, f, x); }
    if f !in p.frozen && ExitsByEdge(steps, f) { FanInsFit(run[i], p, f, x); }
  }

  /** In every reachable state a fork of any step restores the rules of the live engine exactly if it fits. */
  lemma ForkDecided(run: seq<World>, i: nat, f: nat, x: nat, caller: bool)
    requires Run(run) && i < |run| && x in run[i].db.steps && run[i].db.steps[x].flow == f
    ensures Restored(Rewound(run[i].db.steps, f, x, caller), f) <==> Fits(run[i].db.steps, f, x)
  {
    RunInv(run, i);
    NestedFromShape(run[i].db.steps);
    ForkRestores(run[i].db.steps, f, x, caller);
  }

  /** Inside a converged cohort nothing is open, in every reachable state, whatever has happened to the flow since. */
  lemma ConvergedStaysQuiet(run: seq<World>, i: nat)
    requires Run(run) && i < |run|
    ensures ConvergedQuiet(run[i].db.steps) && EndedClosed(run[i].db)
  {
    var acts := ActsOf(run);
    RunHanded(run, acts, i);
  }
}
