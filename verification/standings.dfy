/**
 Where a step stands, told by what the guards of the engine's writes find: whether a worker may take it up, whether
 the lease sweep or a returning child would set it going again, and which generations may still write its outcome.
 Pausing, resuming, terminating, parking and forking are described by what they do to that.
 */
module Standings {
  import opened Rows
  import opened Transactions
  import opened Ledger
  import opened Shape
  import opened Shaping
  import opened Carrying
  import opened Commits

  // ----- The guards

  /** No generation may put the step's outcome, retry, park or failure into its row. */
  ghost predicate Unheld(db: Db, x: nat) {
    forall g: nat :: !RunningMatches(db, x, g) && !HoldMatches(db, x, g)
  }

  /** Neither the lease sweep nor a returning child finds anything to do. */
  ghost predicate Unstirred(db: Db, x: nat) {
    Recover(db, x) == db && Revive(db, x) == db
  }

  /** A worker is on it: its own generation may write, the sweep would free the step, a returning child would not. */
  ghost predicate AtWork(db: Db, x: nat) {
    && x in db.steps && RunningMatches(db, x, db.steps[x].leaseSeq) && !Claimable(db, x)
    && Claimable(Recover(db, x), x) && Revive(db, x) == db
  }

  /** It waits for its child: nobody may take it, the sweep passes it over, and the child's end frees it. */
  ghost predicate AwaitsChild(db: Db, x: nat) {
    && x in db.steps && !Claimable(db, x) && Recover(db, x) == db && Claimable(Revive(db, x), x)
  }

  /** It is paused: nothing but a resume moves it. */
  ghost predicate Paused(db: Db, x: nat) {
    x in db.steps && db.steps[x].status.Interrupted? && !Claimable(db, x) && Unheld(db, x) && Unstirred(db, x)
  }

  /** It is over, and no write that is still in flight can change it. */
  ghost predicate Sealed(db: Db, x: nat) {
    && x in db.steps && !db.steps[x].status.Open() && !Claimable(db, x) && Unheld(db, x) && Unstirred(db, x)
    && forall g: nat :: !CompletionMatches(db, x, g)
  }

  /** What the columns say of it. */
  lemma StandingIs(db: Db, x: nat)
    requires x in db.steps
    ensures var r := db.steps[x];
            && (Claimable(db, x) <==> r.status.Pending? && !r.parked)
            && (AtWork(db, x) <==> r.status.Running? && !r.parked)
            && (AwaitsChild(db, x) <==> r.status.Running? && r.parked)
            && (Paused(db, x) <==> r.status.Interrupted?)
            && (Sealed(db, x) <==> r.status.Terminated? || r.status.Cancelled?)
  {
    var r := db.steps[x];
    assert r.status.Running? || r.status.Completed? ==> HoldMatches(db, x, r.leaseSeq);
    assert r.status.Created? || r.status.Failed? ==> CompletionMatches(db, x, r.leaseSeq);
  }

  // ----- A claim, and the ways to give it up

  /** A claim gives the step to one generation alone, the next one; no other row is touched. */
  lemma ClaimTakes(db: Db, x: nat)
    requires Claimable(db, x)
    ensures var db' := Claim(db, x);
            && AtWork(db', x) && db'.steps[x].leaseSeq == db.steps[x].leaseSeq + 1
            && (forall g | g != db'.steps[x].leaseSeq :: !RunningMatches(db', x, g) && !HoldMatches(db', x, g) && !CompletionMatches(db', x, g))
            && db'.flows == db.flows && db'.steps - {x} == db.steps - {x} && db'.nextStep == db.nextStep
  {
    StandingIs(Claim(db, x), x);
  }

  /**
   A claim given up - the lease expired, the worker drained, its handler asked for a retry, a completion taken back -
   leaves the step to be claimed again, and of all the tables only its generation counter has moved.
   */
  lemma ClaimGivenUp(db: Db, x: nat)
    requires Claimable(db, x)
    ensures var taken := Claim(db, x);
            var g := taken.steps[x].leaseSeq;
            var back := db.(steps := db.steps[x := db.steps[x].(leaseSeq := g)]);
            && Claimable(back, x)
            && Recover(taken, x) == back && Rewind(taken, x, g) == back && Retry(taken, x, g) == back
            && Rewind(Complete(taken, x, g), x, g) == back && Revive(Park(taken, x, g), x) == back
  {
  }

  /** A worker that parks its step leaves it to the child: the sweep no longer sees it, and the release is what expiry would have been. */
  lemma ParkAwaits(db: Db, x: nat, g: nat)
    requires AtWork(db, x) && RunningMatches(db, x, g)
    ensures AwaitsChild(Park(db, x, g), x) && Revive(Park(db, x, g), x) == Recover(db, x)
  {
    StandingIs(db, x);
    StandingIs(Park(db, x, g), x);
  }

  /** A completion stands: it cannot be repeated, recovered or parked, and only its own generation can take it back or pass it on. */
  lemma CompleteStands(db: Db, x: nat, g: nat)
    requires CompletionMatches(db, x, g)
    ensures var db' := Complete(db, x, g);
            && x in db'.steps && db'.steps[x].status.Completed? && Complete(db', x, g) == db' && !Claimable(db', x) && Unstirred(db', x)
            && (forall h :: HoldMatches(db', x, h) <==> h == g) && (forall h :: !RunningMatches(db', x, h))
  {
  }

  /** A failed step is over for every write but the reap of its flow; a cancelled one is sealed. No other step's standing changes. */
  lemma FailEnds(db: Db, x: nat, g: nat, cancelled: bool)
    requires WellShaped(db) && LineageDown(db.steps) && HoldMatches(db, x, g) && !db.steps[x].settled
    ensures var db' := Fail(db, x, g, cancelled);
            && x in db'.steps && !Claimable(db', x) && Unheld(db', x) && Unstirred(db', x) && (cancelled <==> Sealed(db', x))
            && forall y <- db.steps | y != x ::
                 y in db'.steps && db'.steps[y].status == db.steps[y].status && db'.steps[y].parked == db.steps[y].parked
                 && db'.steps[y].leaseSeq == db.steps[y].leaseSeq
  {
    var db' := Fail(db, x, g, cancelled);
    FailCarries(db, x, g, cancelled, false);
    FailedStatus(db, x, g, cancelled);
    StandingIs(db', x);
    forall y | y in db.steps && y != x
      ensures y in db'.steps && db'.steps[y].status == db.steps[y].status && db'.steps[y].parked == db.steps[y].parked
              && db'.steps[y].leaseSeq == db.steps[y].leaseSeq
    {
      assert y in db'.steps;
    }
  }

  lemma FailedStatus(db: Db, x: nat, g: nat, cancelled: bool)
    requires WellShaped(db) && LineageDown(db.steps) && HoldMatches(db, x, g) && !db.steps[x].settled
    ensures var db' := Fail(db, x, g, cancelled);
            x in db'.steps && db'.steps[x].status == (if cancelled then Cancelled else Failed) && !db'.steps[x].parked
  {
    FailingShape(db, x, cancelled);
    NestedFromShape(Failing(db, x, cancelled).steps);
    LossKeepsRow(Failing(db, x, cancelled), x, cancelled, x);
  }

  /** The reap leaves a step of a stopped flow where nobody can take it up, and does its work once. */
  lemma MopUpEnds(db: Db, x: nat)
    requires x in db.steps && FlowDone(db, db.steps[x].flow) && db.steps[x].flow in db.flows
    ensures var db' := MopUp(db, x);
            && x in db'.steps && !Claimable(db', x) && Unstirred(db', x) && MopUp(db', x) == db'
            && (db.flows[db.steps[x].flow].status.Terminated? ==> Sealed(db', x))
            && db'.flows == db.flows && db'.steps - {x} == db.steps - {x}
  {
    StandingIs(MopUp(db, x), x);
  }

  // ----- Interrupt and Resume

  /**
   An interrupt pauses the leaf and every caller it names that runs or was paused already, and the named flows that
   were going: from then on no sweep, no returning child and no worker moves them. All else is as it was.
   */
  lemma InterruptPauses(db: Db, x: nat, g: nat, callers: set<nat>, fs: set<nat>)
    requires RunningMatches(db, x, g)
    ensures var db' := Interrupt(db, x, g, callers, fs);
            && db'.steps.Keys == db.steps.Keys && db'.flows.Keys == db.flows.Keys && db'.nextStep == db.nextStep && db'.nextFlow == db.nextFlow
            && (forall y <- db.steps :: if (y == x || y in callers) && (db.steps[y].status.Running? || db.steps[y].status.Interrupted?)
                                        then Paused(db', y) && !db'.steps[y].parked && db'.steps[y] == db.steps[y].(status := db'.steps[y].status, parked := db'.steps[y].parked)
                                        else db'.steps[y] == db.steps[y])
            && (forall f <- db.flows :: if f in fs && db.flows[f].status.Running?
                                        then db'.flows[f] == db.flows[f].(status := Interrupted) else db'.flows[f] == db.flows[f])
  {
    forall y | y in db.steps && (y == x || y in callers) && (db.steps[y].status.Running? || db.steps[y].status.Interrupted?)
      ensures Paused(Interrupt(db, x, g, callers, fs), y)
    {
      StandingIs(Interrupt(db, x, g, callers, fs), y);
    }
  }

  /** Flow f holds no interrupted step. */
  ghost predicate NothingPaused(db: Db, f: nat) {
    forall y <- db.steps | db.steps[y].flow == f :: !Paused(db, y)
  }

  /**
   A resume, while its root is interrupted: the leaf can be claimed, every interrupted caller waits for its child
   again, each named flow goes again exactly if no step of it is left paused - and nothing else changes.
   */
  lemma ResumeWakes(db: Db, root: nat, x: nat, callers: set<nat>, fs: set<nat>)
    requires root in db.flows && db.flows[root].status.Interrupted?
    ensures var db' := Resume(db, root, x, callers, fs);
            && db'.steps.Keys == db.steps.Keys && db'.flows.Keys == db.flows.Keys && db'.nextStep == db.nextStep && db'.nextFlow == db.nextFlow
            && (x in db.steps && Paused(db, x) ==> (Claimable(db', x) <==> !db.steps[x].parked))
            && (forall y <- db.steps | y in callers && y != x && Paused(db, y) :: AwaitsChild(db', y))
            && (forall y <- db.steps :: if Paused(db, y) && (y == x || y in callers)
                                        then db'.steps[y] == db.steps[y].(status := db'.steps[y].status, parked := db'.steps[y].parked)
                                        else db'.steps[y] == db.steps[y])
            && (forall f <- db.flows | f in fs && db.flows[f].status.Interrupted? ::
                  db'.flows[f] == db.flows[f].(status := if NothingPaused(db', f) then Running else Interrupted))
            && (forall f <- db.flows | f !in fs || !db.flows[f].status.Interrupted? :: db'.flows[f] == db.flows[f])
  {
    var db' := Resume(db, root, x, callers, fs);
    forall y | y in db.steps
      ensures Paused(db, y) <==> db.steps[y].status.Interrupted?
      ensures Paused(db', y) <==> db'.steps[y].status.Interrupted?
      ensures AwaitsChild(db', y) <==> db'.steps[y].status.Running? && db'.steps[y].parked
    {
      StandingIs(db, y);
      StandingIs(db', y);
    }
  }

  /** A root that a Delete or a Terminate stopped first is not resumed: nothing changes. */
  lemma ResumeGated(db: Db, f: nat, root: nat, x: nat, callers: set<nat>, fs: set<nat>, gone: set<nat>)
    ensures Resume(Stamp(db, f), f, x, callers, fs) == Stamp(db, f)
    ensures root in gone ==> Resume(Terminate(db, gone), root, x, callers, fs) == Terminate(db, gone)
  {
  }

  /**
   Interrupt, then Resume with the same chain: of all the tables only the leaf has changed, and what has happened to
   it is what an expired lease would have done.
   */
  lemma PauseUndone(db: Db, root: nat, x: nat, g: nat, callers: set<nat>, fs: set<nat>)
    requires AtWork(db, x) && RunningMatches(db, x, g) && x !in callers && root in fs
    requires forall y <- callers :: AwaitsChild(db, y)
    requires forall f <- fs :: f in db.flows && db.flows[f].status.Running? && NothingPaused(db, f)
    ensures Resume(Interrupt(db, x, g, callers, fs), root, x, callers, fs) == Recover(db, x)
    ensures Recover(db, x) == db.(steps := db.steps[x := db.steps[x].(status := Pending)])
  {
    forall y | y in db.steps
      ensures Paused(db, y) <==> db.steps[y].status.Interrupted?
      ensures AwaitsChild(db, y) <==> db.steps[y].status.Running? && db.steps[y].parked
      ensures AtWork(db, y) <==> db.steps[y].status.Running? && !db.steps[y].parked
    {
      StandingIs(db, y);
    }
    var paused := Interrupt(db, x, g, callers, fs);
    var back := Resume(paused, root, x, callers, fs);
    PausedThenWoken(db, x, g, callers, fs);
    assert back.steps == ResumeSteps(paused, x, callers);
    assert back.flows == db.flows;
  }

  lemma PausedThenWoken(db: Db, x: nat, g: nat, callers: set<nat>, fs: set<nat>)
    requires RunningMatches(db, x, g) && !db.steps[x].parked && x !in callers
    requires forall y <- callers :: y in db.steps && db.steps[y].status.Running? && db.steps[y].parked
    ensures ResumeSteps(Interrupt(db, x, g, callers, fs), x, callers) == db.steps[x := db.steps[x].(status := Pending)]
  {
  }

  // ----- Terminate, Delete, reaping

  /**
   A Terminate seals every step of its flows that was not over - no worker in flight can write it, no sweep or child
   wakes it - and leaves every step that was over, every flow that had stopped, and everything else as it was.
   */
  lemma TerminateSeals(db: Db, fs: set<nat>)
    ensures var db' := Terminate(db, fs);
            && db'.steps.Keys == db.steps.Keys && db'.flows.Keys == db.flows.Keys && db'.nextStep == db.nextStep && db'.nextFlow == db.nextFlow
            && (forall y <- db.steps ::
                  if db.steps[y].flow in fs && (db.steps[y].status.Open() || db.steps[y].status.Created?)
                  then Sealed(db', y) && db'.steps[y] == db.steps[y].(status := Terminated, parked := false)
                  else db'.steps[y] == db.steps[y])
            && (forall f <- db.flows :: db'.flows[f] == if f in fs && !db.flows[f].status.Terminal() then db.flows[f].(status := Terminated) else db.flows[f])
            && (forall f <- fs :: FlowDone(db', f) && forall y <- db'.steps | db'.steps[y].flow == f :: !Claimable(db', y) && Unstirred(db', y))
  {
    var db' := Terminate(db, fs);
    forall y | y in db.steps ensures db'.steps[y].status.Terminated? ==> Sealed(db', y) { StandingIs(db', y); }
  }

  /** The stamp of a Delete stops an interrupted flow, so that it cannot be resumed, and does nothing to any other. */
  lemma StampStops(db: Db, f: nat)
    ensures var db' := Stamp(db, f);
            && (f in db.flows && db.flows[f].status.Interrupted? ==> db' == db.(flows := db.flows[f := db.flows[f].(status := Terminated)]) && FlowDone(db', f))
            && (f !in db.flows || !db.flows[f].status.Interrupted? ==> db' == db)
  {
  }

  /** The reaper removes whole flows with all their steps, and touches nothing else. */
  lemma ReapRemoves(db: Db, fs: set<nat>)
    ensures var db' := Reap(db, fs);
            && (forall y :: y in db'.steps <==> y in db.steps && db.steps[y].flow !in fs)
            && (forall f :: f in db'.flows <==> f in db.flows && f !in fs)
            && (forall y <- db'.steps :: db'.steps[y] == db.steps[y]) && (forall f <- db'.flows :: db'.flows[f] == db.flows[f])
            && db'.nextStep == db.nextStep && db'.nextFlow == db.nextFlow
  {
  }
}
