/** A run in which an overtaken dispatch rewrites a step that has passed. */
module Reaping {
  import opened Rows
  import opened Transactions
  import opened Machine
  import opened Runs

  /** One more action. */
  lemma Extend(run: seq<World>, a: Action) returns (run': seq<World>)
    requires Run(run) && LineageDown(run[|run| - 1].db.steps) && Enabled(run[|run| - 1], a)
    ensures Run(run') && |run'| == |run| + 1 && run'[|run|] == Apply(run[|run| - 1], a) && run' == run + [run'[|run|]]
  {
    var n := |run|;
    run' := run + [Apply(run[n - 1], a)];
    forall i ensures StepAt(run', i) {
      assert StepAt(run, i);
      if i == n { assert Enabled(run'[n - 1], a) && run'[n] == Apply(run'[n - 1], a); }
    }
  }

  function Entry(): Step { NewStep(1, 0, 0, 0, 0, 0, false, true) }

  /** The first step of flow 1, in its second generation, has passed; the second one runs. */
  function Second(): Db {
    Db(map[1 := Entry().(status := Completed, leaseSeq := 2, settled := true, succ := 2, next := 2),
           2 := NewStep(1, 0, 0, 1, 0, 1, false, true)],
       map[1 := Flow(Running, 0)], 3, 2)
  }

  /** Flow 1 with its entry step alone. */
  function First(r: Step): Db { Db(map[1 := r], map[1 := Flow(Running, 0)], 2, 2) }

  /** Step 1 was claimed, found expired, and put back; the dispatch (1, 1) lives on. */
  lemma Expired() returns (run: seq<World>)
    ensures Run(run) && |run| > 0
    ensures var w := run[|run| - 1]; w.db == First(Entry().(leaseSeq := 1)) && w.jobs == map[(1, 1) := Job(Exec, false)]
  {
    run := [World(Db(map[], map[], 1, 1), map[], [])];
    assert forall i :: StepAt(run, i);
    run := Extend(run, ACreate(0, true));
    assert run[1].db == First(Entry());
    run := Extend(run, AClaim(1));
    assert run[2].db == First(Entry().(status := Running, leaseSeq := 1));
    run := Extend(run, ARecover(1));
  }

  /** The dispatch (1, 1) was overtaken by (1, 2), which completed step 1 and passed it on. */
  lemma Overtaken() returns (run: seq<World>)
    ensures Run(run) && |run| > 0
    ensures var w := run[|run| - 1]; w.db == Second() && w.jobs == map[(1, 1) := Job(Exec, false)]
  {
    run := Expired();
    var n := |run|;
    run := Extend(run, AClaim(1));
    assert run[n].db == First(Entry().(status := Running, leaseSeq := 2));
    run := Extend(run, AComplete(1, 2));
    assert run[n + 1].db == First(Entry().(status := Completed, leaseSeq := 2));
    run := Extend(run, ANext(1, 2, true));
  }

  /**
   The second step fails and ends the flow as failed. The overtaken dispatch of the first one then finds the flow
   stopped, and its reap turns a completed, passed step into a failed one.
   */
  lemma ReapReached() returns (run: seq<World>)
    ensures Run(run) && |run| > 0
    ensures var w := run[|run| - 1];
            && (1, 1) in w.jobs && 1 in w.db.steps && w.db.steps[1].leaseSeq == 2 && w.db.steps[1].settled && w.db.steps[1].status.Completed?
            && Enabled(w, AMopUp(1, 1)) && LineageDown(w.db.steps) && Apply(w, AMopUp(1, 1)).db.steps[1].status.Failed?
  {
    run := Overtaken();
    var n := |run|;
    run := Extend(run, AClaim(2));
    assert run[n].db.steps[2] == Second().steps[2].(status := Running, leaseSeq := 1) && run[n].db.steps[1] == Second().steps[1];
    run := Extend(run, AFail(2, 1, false));
    assert run[n + 1].db.flows[1].status.Failed?;
  }
}
