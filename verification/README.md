# Dwarf's concurrent protocols, modelled and proved

Dwarf is a durable workflow engine. Many workers run steps concurrently against two tables, `dwarf_steps` and
`dwarf_flows`, and every protocol of the engine is a discipline on rows of those tables: claims fenced by a lease
generation, cohorts of branches that count their arrivals on the row of the step that spawned them, a Cancel that
raises a watermark and marks rows later, clones of finished flows with recounted cohorts. This project models the
two tables as values, each transaction (and each standalone guarded UPDATE) as one atomic function on them, the
whole engine as a state machine that interleaves those functions with crashes, lease expiry and sweeps, and proves
what every run keeps.

## How it is built

The core is one machine over one pair of tables:

- `Rows`, `Transactions`: the rows and every atomic write, branch by branch. A row carries four history variables
  (`settled`, `spawned`, `head`, `next`) that no guard reads; they record which writes have committed.
- `Machine`: the actions - claim, mop-up, completion write, the five kinds of transition, failure, rewind, retry,
  park, revive, lease recovery, interrupt, resume, Terminate, Cancel's two writes, removal of flows, creation, Fork,
  crash - and `Run`, all their interleavings from empty tables.
- `Shape` (the execution graph), `Ledger` (the cohort accounting), `Leases` (who may still write), `Cancel` (where
  the mark is): the four parts of the invariant. `Shaping`, `Accounting`, `Carrying`, `Quiet`, `Commits` and
  `ForkSafety` prove that the actions keep them; `Verdict` says what closed books mean.
- `Runs`: the theorems over whole runs.
- `Standings`, `Parking`, `Movements`: where a step stands, told by what the guards of the other writes find, and which
  actions move it from one standing to another.
- `Shards`: the same writes as the imperative methods of a class over the two tables - loops, guards, order of
  writes - each proved to change the tables exactly as its function in `Transactions` says.

Fork has its own modules: `Reach` and `Pruning` (what is pruned), `Recount` and `ForkLedger` (the cohort counters
rebuilt from the kept branches), `ForkShape`, `Renaming` and `Forking` (new ids, clone beside origin), `ForkAgrees`
(untouched cohorts keep their live counters), `ForkStands` (who may take up what in a clone), `ForkLoops` (the loops), `CloneTree` (the walk over the flow tree).
`ForkExact` proves exactly which forks restore the live engine's rules, `ForkWitness` holds a flow for each way to
miss them, and `Heritage` with its parts (`HeritageQuiet`, `HeritageCommits`, `HeritageMoves`, `HeritageArrivals`,
`HeritageSteps`, `HeritageFork`) and `ForkRuns` follow whole runs to say where such flows can come from at all.

Around the core: `Reaping` (a run to the one write that carries no fence), `Merging`, `CohortState`, `CohortOrder`,
`CohortFields` (the fan-in fold, its order, and what each field ends up as), `Evaluation` and `Choices` (where a step
goes next), `Wakeups` (parked subgraph callers), `Chains` (interrupt and resume), `FlowTrees` (roots, orphans, tree deletes), `Cursors` and `Paging`
(listing over shards), `Latch` (the Await resolver), `Pools` (the connection budget), `Turns` (stripe locks and turns).

## What is assumed

- Transactions are serializable, an aborted one has no effect, and a commit acknowledgement is never lost. Row ids
  increase.
- The graph has been validated: all branches of a cohort have one fan-in, and a transition that is not a fan-out has
  at most one real successor. Which successors a task asks for is a parameter of the actions.
- Tasks, conditions, reducers and codecs are uninterpreted functions.
- A lease can be found expired at any moment. The sweeps over parked callers look at callers no worker is busy with.
- A child flow does not end while the step that called it is interrupted.
- The caller rows an interrupt pauses are parked, or interrupted already.
- A Fork in a run is one that fits (`Recount.Fits`): it prunes the fan-ins of the converged cohorts around the rewind
  step, every cohort it keeps has a head step for each branch, and no loss it keeps has gone on. The engine checks
  none of this. The condition is what Fork has in hand before its first insert, and it is exact: a fork fits if and
  only if its clone is back inside the live engine's rules (`ForkExact.ForkRestores`), so no weaker gate would let
  the claims about runs hold for the clone. All claims about runs are about runs whose forks fit;
  `ForkRuns.ForksFit` says which flows of such a run can be forked without a second look.

## What turned out

Five things the proofs show about the code as it is, each stated as a lemma or as a clause of a contract:

- The reap of a step whose flow has stopped (engine/execution.go:298-307) names the step alone, with no lease fence.
  Of everything an overtaken dispatch can still do it is the one write that changes a row, and it does exactly when
  the row does not carry the flow's status yet (`Runs.OvertakenReap`). If the flow ended as failed or cancelled it
  turns a step that had passed into a loss; a run gets there in eight writes (`Reaping.ReapReached`). In a stopped
  flow nothing reads that row any more - except a Fork of the flow.
- A branch that leaves for its fan-in by a goto or an error route gets no successor link. A Fork that rewinds the end
  of such a branch reaches the fan-in exactly if that branch arrived last (`Pruning.EndReachesFanIn`); otherwise the
  clone keeps the fan-in beside the rewound branch and is not well-shaped (`ForkWitness.GotoForkFails`). Other forks
  of the same flow are sound (`ForkWitness.OtherForksFit`).
- Fork counts branches by their heads, so an edge that leads from a fan-out straight to its own fan-in is missed:
  the recount is right exactly when every branch has a head (`Recount.CountIsRight`), and otherwise the rewound cohort
  waits for an arrival that never comes (`ForkWitness.DirectEdgeForkFails`).
- A Fork of a flow that was terminated half-way takes over a cohort that is counted as arrived but will never
  converge. The clone itself is sound (`ForkWitness.Terminated4Fits`), but once its outer cohort converges, a Fork of
  the clone inside that inner cohort would keep the outer fan-in (`ForkWitness.TerminatedCloneBreaks`).
- `MergeReduceAll` holds combined fields aside and writes them back at the end, so a failing reducer leaves every
  combined field as it was (`Merging.FailedFold` on one input, the last clause of `Merging.MergeReduceAll` on all); its
  comment (workflow/state.go:464-466) promises that everything before the error has been applied. The code is followed.

These are the only ways a Fork goes wrong: a flow of a run no step of which was reaped over a completion, that took no
direct edge, is no clone with a frozen cohort, and left every branch by an ordinary edge, can be forked at any step
(`ForkRuns.ForksFit`).

## Model

| member | source | states |
|---|---|---|
| Runs.TokensConserved | engine/execution.go:943-1033 | In every reachable state of a flow that has not stopped (in runs whose forks fit), the trunk holds exactly one token and no loss, and for every spawned cohort the members still at work plus the unresolved inner cohorts are exactly `cohort_size - cohort_arrivals`; `cohort_failures` and `cohort_cancellations` count exactly the lost and the cancelled members. |
| Runs.EndsRight | engine/completion.go:717-791 | When a flow ends by itself (in runs whose forks fit), no step or cohort of it is left open; it is `completed` iff no step is a loss, and `failed` iff some step failed (so `cancelled` iff every loss is a cancellation). |
| Runs.OneCommit | engine/execution.go:189-245 | Over a whole run, at most one lease generation of a step commits its transition or is counted as its loss, though recovery does not bump the generation. |
| Runs.OvertakenIsHarmless | engine/persist.go:73-172 | A dispatch whose generation was granted again changes no row by its completion, rewind, retry, park, failure or interrupt, and is never at the point of running the unfenced transition. |
| Runs.OvertakenReap | engine/execution.go:298-307 | Of all the actions of an overtaken dispatch only the reap changes the tables, and it does iff the row does not carry its flow's status yet; over a passed step it writes a loss iff the flow ended as failed or cancelled. |
| Reaping.ReapReached | engine/execution.go:298-307 | A run in which it happens: claimed, expired, claimed again, completed and passed on, the flow failed at the next step, then reaped by the first dispatch. |
| Runs.TransitionOwned | engine/execution.go:1105-1180 | Whoever is about to run the unfenced transition of a step still holds the step's current generation, is alone in that, and nothing was committed for the step before. |
| Runs.StoppedForGood | engine/execution.go:1122-1180 | From the moment a flow is terminal, over any run: its status never changes and no step is ever inserted into it, although a non-final arrival takes no lock on the flow row. |
| Runs.LineMarkedOnce | engine/operations.go:754-790 | In every reachable state at most one step on any line of succession carries the cancel mark. |
| Runs.LineReached | engine/execution.go:63-80 | Every step inserted after a Cancel's watermark has exactly one marked step on its line, itself included - with or without the later mark. |
| Runs.MarkReachesAll | engine/operations.go:775-790 | After Cancel's mark, the line of every step still open carries exactly one mark, whatever happened between watermark and mark. |
| Runs.CoveredInsertsUnmarked | engine/execution.go:843-895 | A successor of a marked step is never marked: the handler that caught the cancellation runs undisturbed. |
| Runs.MoveGood | engine/execution.go:1105-1371 | Every action of the machine keeps the invariant, leaves stopped flows alone, and ends a flow only with closed books. |
| Runs.EnabledMoves | engine/execution.go:94-1392 | In a state that keeps the invariant, being enabled is all an action needs: a run leaves out no interleaving of enabled actions. (A fork is enabled only if it fits.) |
| Runs.RunInv | engine/execution.go:94-1392 | The invariant holds in every state of every run. |
| Commits.BookedSound | engine/execution.go:1105-1371 | A transaction confined to one flow's rows that accounts for that flow keeps every running flow's ledger in order, and flows it stops have closed books. |
| Commits.ArriveBooked | engine/execution.go:1267-1355 | An arrival keeps shape and books, whether it waits, converges its cohort, or resolves it as a loss all the way up. |
| Commits.FailBooked | engine/completion.go:717-791 | A failure does the same. |
| Accounting.NextInOrder | engine/execution.go:1182-1262 | A transition to one successor hands the step's token on: the ledger stays in order. |
| Accounting.DirectInOrder | engine/execution.go:1564-1630 | So does a fan-out source that converges on its own fan-in without branches. |
| Accounting.PushInOrder | engine/execution.go:1182-1262 | A fan-out turns the step's token into an unresolved cohort with one token for each branch that is not a direct edge. |
| Accounting.PushDirectInOrder | engine/execution.go:1239-1355 | A fan-out with direct edges alone converges with the spawn itself. |
| Accounting.ArriveAccounts | engine/execution.go:1267-1355 | After an arrival the flow is in order, or has ended with closed books that match its status. |
| Accounting.FinishAccounts | engine/completion.go:500-575 | A completion closes the books: no token, no loss on the trunk. |
| Accounting.FailAccounts | engine/completion.go:717-791 | After a failed step's loss is entered the flow is in order, or has ended as its losses say. |
| Ledger.PropagateBalances | engine/completion.go:834-865 | The upward walk enters one owed loss: afterwards every cohort it passed balances again and the flow is in order, or the loss reached the trunk and the verdict is the right one. |
| Ledger.PropagateCounts | engine/completion.go:834-865 | The walk touches nothing but counters of spawn rows of its own flow. |
| Verdict.TokensClimb | engine/completion.go:829-865 | An open step anywhere shows as a token on the trunk: nothing is stranded in a cohort that counts as resolved. |
| Verdict.LossVerdict | engine/completion.go:834-865 | A flow whose loss reached the trunk has no open work, has a lost step, and the loss is a cancellation iff no step failed: the incremental counters agree with the recursive reading of the cohort tree. |
| Verdict.SuccessVerdict | engine/completion.go:500-575 | Closed books without a trunk loss mean no open work and no lost step anywhere. |
| Verdict.SoleTrunkStep | engine/completion.go:500-575 | At the moment a trunk step completes its flow, no other work of the flow is open. |
| Shaping.PushShape | engine/execution.go:1182-1262 | A fan-out keeps the execution graph well-shaped: lineages nest, branches start at their heads, ordinals tell branches apart. |
| Shaping.ArriveShape | engine/execution.go:1267-1355 | So does an arrival with all it may trigger. |
| Shaping.FanInShape | engine/execution.go:1664-1767 | The fan-in continues the spawn's own branch, deeper than every member of the cohort, and the exits' links point to it. |
| Leases.OwnerCommits | engine/execution.go:189-245 | Committing under the current generation enters the log once and leaves every other dispatch's standing as it was. |
| Leases.OutsideWrite | engine/wedge.go:110-132 | Writes by sweeps and operations leave every dispatch's standing as it was. |
| Cancel.ReachedOnce | engine/operations.go:754-790 | On well-shaped tables with the mark rule kept, each step beyond the watermark has exactly one mark on its line. |
| Cancel.MarkReaches | engine/operations.go:775-790 | The mark completes the coverage of every open step and doubles none. |
| Cancel.NothingBelowMarked | engine/operations.go:775-790 | Before a step inserted no later than the watermark, nothing on its line is marked. |
| Cancel.PassedOn | engine/execution.go:63-80 | The first step beyond the watermark is marked iff its predecessor is not. |
| Quiet.InterruptInv | engine/execution.go:1433-1551 | An interrupt, fenced or not, keeps the invariant. |
| Quiet.ResumeInv | engine/completion.go:1258-1344 | A Resume keeps the invariant, whatever rows the walk down named. |
| Quiet.TerminateInv | engine/completion.go:334-398 | A Terminate keeps the invariant: the flows it stops stay stopped, all others are untouched. |
| Quiet.MarkInv | engine/operations.go:775-790 | Cancel's mark keeps the invariant, at whatever moment after the watermark it is written. |
| Quiet.WatermarkInv | engine/operations.go:754-774 | Cancel's watermark keeps the invariant. |
| Quiet.ClaimInv | engine/execution.go:189-245 | A claim keeps the invariant and makes every older dispatch of the step an overtaken one. |
| Quiet.RewindInv | engine/execution.go:108-164 | The recovery reset from completed back to pending keeps it: the rewound step still counts as live. |
| Parking.OneStanding | engine/execution.go:189-245 | In every reachable state a step that is not over can be claimed, is at work, awaits its child or is paused: exactly one of the four, each told by what the claim, the lease sweep, the child's release and the fenced writes find. |
| Parking.AwaitingIsIdle | engine/execution.go:631-671 | A step that awaits its child or is paused is in no worker's hands: a dispatch of its generation has parked it. |
| Movements.Unhindered | engine/wedge.go:110-132 | At any moment any lease may be found expired, any caller released, any flows terminated, marked or removed, any dispatch crash or fail, any claimable step be claimed, and a dispatch that runs a step complete it, park it or give it up. |
| Movements.AnyTransition | engine/execution.go:1105-1371 | A dispatch whose completion landed may go on to any transition its place in the graph allows. |
| Movements.LeavesClaimable | engine/execution.go:189-245 | Of all actions exactly a claim, the completion of the dispatch that held the step until its lease expired, a Terminate and the reap take a claimable step up or end it. |
| Movements.BecomesClaimable | engine/wedge.go:110-132 | Exactly an expired lease, the child's end, the worker's own rewind or retry, and a resume naming it as the leaf make a step claimable again. |
| Movements.BecomesAwaiting | engine/execution.go:631-671 | Exactly the worker's own park, and a resume naming the step as a caller, make it await its child. |
| Movements.LeavesAwaiting | engine/completion.go:581-635 | Exactly the child's end, an interrupt from below, the failure to start the child, a Terminate and the reap end that wait; an expired lease does not. |
| Movements.BecomesPaused | engine/execution.go:1433-1551 | Exactly an unfenced interrupt of the step's own, or of a chain it is a caller on, pauses it. |
| Movements.LeavesPaused | engine/completion.go:1258-1344 | Exactly a resume that names the step under an interrupted root, a Terminate and the reap end a pause. |
| Movements.LearnsOfCancel | engine/execution.go:843-895 | A dispatch is covered by a Cancel exactly if its step is marked: known from the claim, and again from the completion write. |
| Movements.InsertedReady | engine/execution.go:1182-1262 | Every step an action but a fork inserts can be claimed at once, in no generation yet. |
| Movements.CreateStarts | engine/operations.go:196-260 | A new flow is running and uncancelled, with its entry step alone, which can be claimed. |
| Movements.NextInserts | engine/execution.go:1182-1262 | A transition to one successor inserts that step alone, on the same branch, for its own task, and links to it. |
| Movements.PushInserts | engine/execution.go:1182-1240 | A fan-out inserts exactly one step a branch, in order, each with its ordinal and its own task's edge to the fan-in. |
| Movements.FanInInserts | engine/execution.go:1664-1767 | A convergence inserts the fan-in alone, on the spawn's branch, after the step that arrived last, and links to it exactly the members without a successor whose task has an ordinary edge to it. |
| Movements.TerminatedForGood | engine/completion.go:334-398 | From a Terminate on, over any run, every step it found open in a live flow is sealed: no worker in flight, child, sweep, resume or reap changes its outcome. |
| Standings.StandingIs | engine/execution.go:189-245 | Which columns make a step claimable, at work, awaiting, paused or sealed. |
| Standings.ClaimTakes | engine/execution.go:189-245 | A claim gives the step to the next generation alone, from which the sweep could free it, and touches no other row. |
| Standings.ClaimGivenUp | engine/wedge.go:110-132 | Expiry, drain, retry, a completion taken back and a park answered all leave the tables as before the claim but for the generation counter. |
| Standings.ParkAwaits | engine/execution.go:631-671 | After a park the sweep passes the step over, and the child's release does what expiry would have done. |
| Standings.CompleteStands | engine/execution.go:773-839 | A completion cannot be repeated, recovered, parked or claimed over; its own generation alone may go on from it. |
| Standings.FailEnds | engine/completion.go:717-791 | A failed step is over for every fenced write, sweep and release, a cancelled one sealed; no other step's standing changes. |
| Standings.MopUpEnds | engine/execution.go:298-307 | The reap leaves the step where nothing takes it up, and a second reap does nothing. |
| Standings.InterruptPauses | engine/execution.go:1433-1551 | An interrupt pauses exactly the leaf, the named callers that run or were paused, and the named running flows. |
| Standings.ResumeWakes | engine/completion.go:1258-1344 | Under an interrupted root the leaf can be claimed, every interrupted caller awaits its child, each named flow runs iff no step of it is left paused; nothing else changes. |
| Standings.ResumeGated | engine/completion.go:1317-1336 | After a Delete's stamp or a Terminate of the root, a resume changes nothing. |
| Standings.PauseUndone | engine/completion.go:1258-1344 | On the core tables, for any chain: interrupt then resume is what an expired lease of the leaf would have been, and nothing more. |
| Standings.TerminateSeals | engine/completion.go:355-384 | A Terminate seals exactly the steps of its flows that were not over, stops exactly the flows that had not stopped, and leaves all else alone. |
| Standings.StampStops | engine/operations.go:845-860 | A Delete's stamp stops an interrupted flow, and no other. |
| Standings.ReapRemoves | engine/reaper.go:120-142 | The reaper removes whole flows with all their steps, and nothing else. |
| Shards.Shard.ClaimStep | engine/execution.go:189-245 | The claim writes what its function says and returns the new generation, or changes nothing. |
| Shards.Shard.MarkCompleted | engine/execution.go:773-839 | The fenced completion write. |
| Shards.Shard.ReleaseStep | engine/persist.go:160-172 | The fenced reset of a step its worker gives up. |
| Shards.Shard.RecoverExpiredLeases | engine/wedge.go:110-132 | The sweep, hit by hit, is the sequence of single recoveries. |
| Shards.Shard.PropagateCohortFailure | engine/completion.go:834-865 | The loop that bumps spawn rows upward computes the recursive propagation and its verdict. |
| Shards.Shard.FailStep | engine/completion.go:717-791 | The failure transaction, or nothing when fenced. |
| Shards.Shard.TransitionNext | engine/execution.go:1122-1262 | The transition to one successor, gated on the flow row. |
| Shards.Shard.InsertBranches | engine/execution.go:1182-1240 | The spawn loop inserts one branch a flag, in order, and nothing else. |
| Shards.Shard.TransitionFanOut | engine/execution.go:1182-1355 | The whole fan-out: branches, the spawn's row, the arrivals of direct edges, and the convergence when there is nothing else. |
| Shards.Shard.HandleInterrupt | engine/execution.go:1433-1551 | The chain first, then the fence on the leaf; a miss rolls the chain back. |
| Shards.Shard.ResumeChain | engine/completion.go:1258-1344 | Leaf, callers, then each flow that holds no other interrupt, gated on the root: the function `ResumeWakes` and `PauseUndone` describe. |
| Shards.Shard.TerminateFlows | engine/completion.go:334-398 | Steps not over, then the flows that had not stopped: the function `TerminateSeals` describes. |
| Shards.Shard.InsertFanInStep | engine/execution.go:1664-1767 | One pass for depth and exits, the insert, the exits' links: the function's fan-in. |
| Shards.Shard.ArriveAtFanIn | engine/execution.go:1255-1355 | Bump, settling, and what the counters after the bump call for. |
| Shards.Shard.CompleteFlow | engine/completion.go:500-575 | The completion, once. |
| Shards.Shard.CancelTree | engine/operations.go:754-790 | The loop raising watermarks, then the bounded mark. |
| Shards.Shard.DepthAndExits | engine/execution.go:1664-1767 | The pass finds the depth below the whole cohort and exactly its linkable exits. |
| Pruning.EndReachesFanIn | engine/fork.go:640-671 | The last step of a branch reaches its cohort's fan-in iff it links to it or is recorded as its predecessor. |
| Pruning.ReachesFromInside | engine/fork.go:640-671 | Whatever the rewind step reaches inside a cohort it was not inside of, it reaches through the spawn. |
| Pruning.PathKept | engine/fork.go:236-243 | The spawns around the rewind step are kept, whatever the flow looks like. |
| Pruning.KeptClosed | engine/fork.go:324-434 | The lineage, predecessor and head of a kept step are kept, and the first two are not the rewind step. |
| Pruning.HeadKept | engine/fork.go:449-553 | The head of every branch of a kept cohort is kept. |
| Recount.ArrivalsAre | engine/fork.go:449-553 | For nested cohorts of any depth, a kept spawn's recomputed arrivals are its branches less the one the rewind step is in. |
| Recount.CountIsRight | engine/fork.go:449-553 | That number leaves exactly the rewound branch missing from `cohort_size` iff every branch has a head step. |
| Recount.ArrivalsCounted | engine/fork.go:449-553 | For a fork that fits, arrivals are `cohort_size`, less one on the rewind path. |
| ForkLedger.RewoundBooks | engine/fork.go:449-553 | For a fork that fits, every kept cohort of the clone balances: arrivals, failures and cancellations against its members. |
| ForkLedger.ForkInOrder | engine/fork.go:449-553 | For a fork that fits, the clone as a whole is a running flow in order, with the rewind step's branch as its one open token. |
| ForkShape.ForkShaped | engine/fork.go:324-434 | For a fork that fits, the kept, rewound steps form a well-shaped graph. |
| ForkExact.ForkRestores | engine/fork.go:324-553 | A fork restores its flow - well-shaped graph, ledger in order, nothing stirring inside what has converged - if and only if it prunes the fan-ins around the rewind step, keeps a head for each branch of each kept cohort, and keeps no loss that has gone on. |
| ForkExact.FanInsDecide | engine/fork.go:236-243 | In a flow whose branches all have heads and whose losses all ended something, the clone is well-shaped and in order iff the fan-ins of the converged cohorts around the rewind step are pruned. |
| ForkExact.NeedsFanIns | engine/fork.go:236-243 | A clone that is well-shaped and in order has lost the fan-in of every converged cohort around its rewind step. |
| ForkExact.NeedsHeads | engine/fork.go:449-553 | A clone in order has a head step for each branch of each cohort it kept. |
| ForkExact.NeedsLosses | engine/fork.go:449-553 | A restored clone holds no loss that has spawned, continued, or sits inside a converged cohort. |
| ForkExact.OnPathWaits | engine/fork.go:449-553 | In a clone in order, every cohort around the rewind step waits for exactly the one member the rewind step is or lies inside of. |
| ForkRuns.ForksFit | engine/fork.go:231-564 | Only a reap over a completed step can leave a loss that has gone on, only a direct edge a branch without a head, only a frozen clone or an exit by goto or error route a kept fan-in: any other flow of a run can be forked at any step. |
| ForkRuns.ForkDecided | engine/fork.go:231-564 | In every reachable state, a fork of any step restores the rules iff it fits. |
| ForkRuns.ConvergedStaysQuiet | engine/completion.go:829-865 | In every reachable state nothing inside a converged cohort is open at any depth, and a flow that ended by itself has nothing open. |
| ForkRuns.ActsOf | engine/execution.go:94-1392 | Every run is made by some sequence of actions, so following the actions loses nothing. |
| HeritageMoves.InsideQuiet | engine/completion.go:829-865 | Inside a cohort that resolved without a loss nothing is open and nothing is lost, at any depth. |
| HeritageMoves.ConvergeFair | engine/execution.go:1291-1355 | When a cohort converges, every cohort inside it has converged before. |
| HeritageSteps.StepHanded | engine/execution.go:1105-1371 | Every action but a fork keeps what a later fork relies on: settled steps are losses only where reaped, clean cohorts converge and from the inside, branches without direct edges have heads, converged cohorts stay quiet. |
| HeritageFork.ForkHanded | engine/fork.go:231-564 | So does a fork, for its clone, except that a cohort frozen in it is remembered. |
| ForkWitness.GotoForkFails | engine/fork.go:640-671 | A concrete well-shaped flow whose rewound branch end left by a goto: the fan-in is kept, and the clone is not well-shaped. |
| ForkWitness.OtherForksFit | engine/fork.go:640-671 | Forks of the same flow at the branch that arrived last and at the fan-in fit. |
| ForkWitness.DirectEdgeForkFails | engine/fork.go:449-553 | A concrete flow with a direct edge: the clone's books do not balance. |
| ForkWitness.Terminated4Fits | engine/fork.go:449-553 | The fork of a concrete flow that was terminated half-way fits. |
| ForkWitness.Terminated4Clone | engine/fork.go:449-553 | Its clone takes over a cohort counted as arrived and clean that has no fan-in. |
| ForkWitness.TerminatedCloneBreaks | engine/fork.go:640-671 | Once that clone's outer cohort converges, cohorts have not converged from the inside, and a second fork inside the frozen one would keep the outer fan-in. |
| Renaming.RenamedShaped | engine/fork.go:324-434 | A strictly increasing renaming keeps the shape. |
| Renaming.RenamedInOrder | engine/fork.go:324-434 | It keeps the ledger in order, too. |
| Forking.ForkLinks | engine/fork.go:324-434 | Predecessor, successor and lineage links of every clone row are the renamed links of its origin, 0 where the origin's target was pruned. |
| Forking.OriginKept | engine/fork.go:231-243 | The origin's rows, and everybody else's, are unchanged. |
| Forking.AnchorKept | engine/fork.go:324-434 | Every ancestor of a kept step - every place its state may be anchored - is kept, and is not the rewind step. |
| Forking.ShapedAlongside | engine/fork.go:324-434 | Clone and origin do not disturb each other's shape. |
| ForkSafety.ForkInv | engine/fork.go:231-564 | A fork that fits keeps the whole invariant: the clone is back inside the live engine's rules. |
| ForkStands.CloneStands | engine/fork.go:433-585 | Every step of the clone but the rewind step is over: with the origin's outcome, or sealed where the origin's had none; the rewind step can be claimed as the leaf, and as a caller awaits the child that runs again. Its flow is running. |
| ForkStands.CloneUnclaimed | engine/fork.go:324-434 | No dispatch in flight is on a step of a clone. |
| ForkAgrees.OffPathAgrees | engine/fork.go:449-553 | For a fork that fits, cohorts off the rewind path get exactly the counters the live incremental algorithm had left. |
| ForkLoops.CollectSubtree | engine/fork.go:640-671 | The level-by-level walk collects exactly what is reachable over predecessor and successor links, each step once. |
| ForkLoops.InCohortMemo | engine/fork.go:449-553 | The memoized climb answers whether a lineage lies in a cohort, and its memo stays right. |
| ForkLoops.WalkBranch | engine/fork.go:449-553 | The stack walk of one branch finds out exactly whether a failed, a cancelled or the rewound step is in it. |
| ForkLoops.CountBranches | engine/fork.go:449-553 | The loop over the kept rows counts exactly the arrived, the lost and the cancelled branches. |
| ForkLoops.AssignIds | engine/fork.go:324-434 | Ids handed out in row order make a strictly increasing map above every old id. |
| CloneTree.CloneWholeTree | engine/fork.go:199-225 | The explicit stack clones the flows in the preorder of the recursive definition, with the same ids and parents, at any depth. |
| CloneTree.ClonesLinked | engine/fork.go:199-225 | In that order every clone but the first hangs under an earlier clone, of its own origin's parent. |
| CohortState.OrdinalAndDepthApart | engine/execution.go:1182-1191 | No two members of a cohort share both ordinal and depth. |
| CohortState.SameDeltas | engine/execution.go:1664-1767 | Two scans with the same contents at the same places fold the same deltas in the same order, whatever ids - whatever completion order - they got. |
| CohortState.CohortStateIsScheduleFree | engine/completion.go:257-316 | So every field of the cohort's state is the same for every schedule. |
| CohortOrder.ScanApart | engine/execution.go:1664-1767 | In well-shaped tables the rows of a cohort scan differ in ordinal or depth. |
| CohortOrder.SchedulesAgree | engine/completion.go:257-316 | Two schedules of one fan-out, each with its own tables and ids: if the branches did the same at the same places, every field of the cohort's state is the same. |
| CohortOrder.SpawnNumbers | engine/execution.go:1182-1191 | The spawn loop gives the i-th candidate's branch the ordinal i. |
| CohortOrder.MemberOnBranch | engine/execution.go:1182-1191 | A member's ordinal tells which branch it is on. |
| CohortOrder.FoldFollowsArray | engine/transitions.go:145-154 | The deltas of a cohort are those of the branch of the input array's first element, then those of the second, and so on. |
| CohortFields.LossesBringNothing | engine/completion.go:300-304 | Whatever a member that did not complete has written, every field of the cohort's state is as if it had written nothing and as if it were not there. |
| CohortFields.LostStepsBringNothing | engine/completion.go:300-304 | On the tables: what a step of the cohort that failed, was cancelled or terminated had written makes no difference to any field. |
| CohortFields.AllContribute | engine/completion.go:291-306 | Where all members completed, each contributes its own delta at its own place. |
| CohortFields.LastWriteWins | workflow/state.go:417-425 | A field without a reducer is what the last completed member in scan order wrote, else what the spawn wrote, else what it was; a clearing write makes it absent. |
| CohortFields.ClearingAddsNothing | workflow/state.go:426-430 | A member that clears a combined field changes nothing about it. |
| CohortFields.AppendedInOrder | workflow/state.go:464-520 | A field whose reducer appends is the old list, the spawn's, then each completed member's in scan order. |
| CohortState.MergeCohortState | engine/completion.go:257-316 | Computes that state, or reports an error exactly when some field's fold fails. |
| CohortState.FanInState | engine/execution.go:1664-1767 | The fan-in's merge computes the same state on the same rows wherever no fold fails. |
| Merging.OnePass | workflow/state.go:454-520 | Folding the members one by one succeeds iff folding them in one pass, decoded, does and never holds something that could not be stored in between; then both give the same value. |
| Merging.FoldsPart | workflow/state.go:454-520 | A concrete input on which one-by-one folding fails and the one pass does not. |
| Merging.FailedFold | workflow/state.go:464-520 | A concrete failing reducer that takes back what earlier members had brought. |
| Merging.MergeReduceAll | workflow/state.go:467-520 | Succeeds iff every field's fold and encoding does, and then holds exactly the folds; a failing fold leaves every combined field as it was. |
| Merging.MergeReduce | workflow/state.go:417-452 | One delta folded field by field, or an error exactly when some field fails. |
| Evaluation.EvaluateTransitions | engine/transitions.go:39-157 | Goto first, then the first switch that holds, else every edge that holds, forEach expanded; any failure fails the whole. |
| Choices.GotoGranted | engine/transitions.go:40-50 | A goto leads to its target alone iff a goto edge from the step's own node names it, and fails otherwise. |
| Choices.SwitchDecides | engine/transitions.go:67-88 | The first switch edge that is not false decides: its target iff it holds, an error iff it cannot be evaluated; nowhere iff all are false. |
| Choices.EdgesInOrder | engine/transitions.go:90-157 | Otherwise the candidates are exactly those of the ordinary edges that hold, edge after edge with nothing between; it fails iff some edge can be neither followed nor ruled out. |
| Evaluation.ElementsInOrder | engine/transitions.go:115-157 | A forEach's branches are one run of candidates in the order of its array: place tells element. |
| Evaluation.OneWayOut | engine/transitions.go:39-110 | A goto or a switch leads to at most one successor. |
| Wakeups.NoLostWakeup | engine/wedge.go:148-225 | Every waiting caller has a live child of this very park, a worker that owes the spawn or the release, or is one the sweep sees; and the sweep sees it only if a worker died on it. |
| Wakeups.RearmedOnce | engine/completion.go:581-635 | No park is ever released twice. |
| Wakeups.OverForGood | engine/completion.go:1008-1051 | No release, failure delivery, sweep or resume moves a caller that Terminate has stopped. |
| Wakeups.WaitEnds | engine/completion.go:581-635 | A wait ends exactly by the end of the caller's own child, the sweep, a pause, the failure to start the child, or a Terminate; the first two make the caller claimable and are put on record for this park. |
| Wakeups.WaitBegins | engine/execution.go:631-671 | It begins by a park, which owes a child of its own, or by a resume that finds the child live. |
| Wakeups.BecomesPending | engine/persist.go:160-172 | What makes a caller claimable again, action by action. |
| Wakeups.BecomesOver | engine/completion.go:1008-1051 | What ends a caller, action by action. |
| Wakeups.TerminateStops | engine/completion.go:334-398 | A Terminate stops exactly the callers and live children it names. |
| Wakeups.RetryStartsClean | engine/fork.go:715-758 | A retried caller starts without children and without a release owed by one. |
| Wakeups.StepInv | engine/execution.go:631-671 | Every action keeps the books of who waits for whom. |
| Wakeups.RecoverWedged | engine/wedge.go:148-225 | The sweep releases exactly its hits, also when it meets some twice. |
| Chains.SurgraphChain | engine/completion.go:1363-1409 | The walk up collects the flows to the root and the caller steps between them. |
| Chains.InterruptAllOrNothing | engine/execution.go:1433-1551 | A fenced interrupt leaves the whole chain as it was; any other pauses the leaf and every movable caller and flow of the chain. |
| Chains.LoadLeaves | engine/completion.go:1164-1183 | One interrupted step a flow, the first in row order. |
| Chains.LoadChildren | engine/completion.go:1138-1163 | Each caller step's paused child flow. |
| Chains.InterruptedChain | engine/completion.go:1186-1207 | The walk down follows the interrupted steps and child flows to the leaf. |
| Chains.DownIsUpReversed | engine/completion.go:1131-1207 | When the leaf is the only interrupt of the tree, the walk down from the root is the walk up in reverse. |
| Chains.ResumeUndoesInterrupt | engine/completion.go:1258-1344 | Interrupt then Resume, at any depth: every caller waits again, every flow goes again, and of the whole tree only the leaf has changed - it is pending. |
| Chains.ResumeExactly | engine/completion.go:1258-1344 | What a resume changes, given any chain, and that it changes nothing unless the root is paused and the leaf is an interrupt's own. |
| FlowTrees.RootIsTop | engine/operations.go:231-244 | `root_flow_id` is the root of the parent chain. |
| FlowTrees.Descendants | engine/fork.go:678-713 | One scan and a breadth-first walk find exactly the flows below, each once; over live flows only, exactly those reached through live flows. |
| FlowTrees.Forest.Create | engine/operations.go:231-244 | A new flow joins its parent's tree, or starts its own. |
| FlowTrees.Forest.ReapTrees | engine/reaper.go:120-142 | Removes exactly the trees of the given roots, and leaves no child behind. |
| FlowTrees.Forest.DeleteSubgraphsOf | engine/fork.go:715-758 | Removes exactly the flows called by the step and everything below them. |
| FlowTrees.Forest.TerminateSubtree | engine/completion.go:1062-1122 | Stops exactly the flow and the live flows below it. |
| FlowTrees.Forest.RecoverOrphans | engine/wedge.go:243-297 | After one pass no live flow has a stopped parent, whatever the forest looked like, and the pass has stopped exactly the orphans and the live flows below them over live flows. |
| FlowTrees.NoNewOrphan | engine/completion.go:334-398 | Stopping a live subtree orphans nobody new. |
| FlowTrees.LiveAllTheWayUp | engine/wedge.go:243-297 | Then every live flow's whole ancestry is live. |
| Cursors.CursorBack | engine/history.go:488-508 | A cursor written and read back is the same per-shard map. |
| Cursors.ParseCursor | engine/history.go:488-508 | The parser, part by part, with its errors. |
| Cursors.ParseFails | engine/history.go:488-502 | A cursor is refused iff it is not empty and some part is malformed. |
| Cursors.PartIs | engine/history.go:491-500 | A part is two numbers around an equals sign, the first at least 1. |
| Cursors.Signed | engine/history.go:495-497 | A number may carry a sign; anything else but digits is refused. |
| Cursors.EncodeCursor | engine/history.go:595-612 | The writer lists the shards in ascending order, and what it wrote reads back as the same per-shard map. |
| Paging.ListPage | engine/history.go:524-612 | A page holds, for every shard, its share of what lies below that shard's cursor, and moves that cursor to the last flow shown. |
| Paging.ShareCovers | engine/history.go:504-508 | Each shard's share is the least with which all together can fill the limit. |
| Paging.FollowCursor | engine/history.go:574-612 | Following the cursor to its end visits every matching flow exactly once, in descending order per shard, and terminates - for any contents, limit and shard filter. |
| Latch.PadBinds | engine/latch.go:249-265 | Padding keeps the set of ids and uses only ten list sizes, none twice the list. |
| Latch.DirectTells | engine/latch.go:181-240 | A flow that ended or is interrupted has settled, any other is running, and without the row's token a key says no more than one that names no flow. |
| Latch.LookupChunk | engine/latch.go:181-240 | One padded query settles exactly the keys of the chunk that do not name a running flow. |
| Latch.ResolveStoppedFlows | engine/latch.go:92-240 | Every verdict is that of a direct lookup; a key of an unread chunk gets none; malformed keys are always settled. |
| Pools.RatioAtRTT | engine/poolsize.go:555-570 | The loop over the columns computes the piecewise-linear ratio. |
| Pools.RatioRises | engine/poolsize.go:555-570 | It never falls as the round trip grows, and stays within the row. |
| Pools.RatioMeasured | engine/poolsize.go:555-570 | At the table's distances the ratio is the measured one; beyond its ends it is that of the end. |
| Pools.RatioInProportion | engine/poolsize.go:555-570 | Between two of them it rises in proportion. |
| Pools.BudgetRises | engine/poolsize.go:572-574 | Neither does a shard's budget, for every tabulated tier. |
| Pools.DispatchersFit | engine/poolsize.go:216-234 | The dispatchers' pools come to at most the budget and half a connection each. |
| Pools.NearestShare | engine/poolsize.go:216-225 | Each dispatcher's pool is the whole number nearest to its share of the budget. |
| Pools.SlotAdmitted | engine/poolsize.go:236-241 | The n-th dispatcher is admitted iff there is a candidate for it and it is one of two, or the budget has twelve connections for each up to half a share. |
| Pools.PoolWorthRunning | engine/poolsize.go:227-241 | From the third dispatcher on, each holds at least ten connections. |
| Pools.FleetFits | engine/poolsize.go:236-273 | With one agreed reading of C candidates, exactly `dispatcherSlots` dispatch - two at least once C is two - and all pools together stay within budget + slots/2 + 2 (R - slots). |
| Turns.TransitionRuns | engine/execution.go:1089-1103 | Every path - arrival or not, any number of retries, failing or not - hands back its turn around each wait and leaves nothing held. |
| Turns.AttemptsAndSleeps | engine/persist.go:73-172 | A write retried n times is tried n + 1 times with n sleeps between. |
| Turns.AttemptsAlike | engine/persist.go:240-257 | Every attempt is made with the turn and the stripe of the first; a sleep gives up the turn and keeps the stripe. |
| Turns.WorkBounded | engine/dbturn.go:83-123 | At no time do more workers work against a shard than it has turns. |
| Turns.WaitsLight | engine/dbturn.go:83-123 | Who waits for a stripe holds no turn and no stripe. |
| Turns.SomebodyMoves | engine/dbturn.go:83-123 | With any number of workers and a turn a shard, somebody can always move. |
| Turns.RunAll | engine/execution.go:1374-1390 | Under every schedule all workers finish, holding nothing. |

## Left out

- SQL text, dialects, drivers, migrations, JSON and the placement of state in rows: a statement is its WHERE and SET.
- Host calls, panics, tracing, metrics, fault injection, priorities, fairness and the candidate queue.
- Payloads on the step path: which `changes` a re-executed step sees, state references beyond the ancestors they may name, `mergeWithOverrides`.
- Delete, Purge and the reaper's choice of due roots: the machine has a stamp that stops an interrupted flow, and a removal of whole terminal flows.
- A sweep racing a worker that is still alive, failures of the failure handling on the spawn and revive paths, and the reset of a lease generation that was never granted.
- Liveness after a crash between the completion write and the transition: the engine only reports it (engine/wedge.go:299-325).
- Fork of subgraph flows off the rewind path, which are cloned whole; Fork's own choice of the rewind step from a key.
- Several simultaneous interrupts in one subgraph child.
- Links from a child flow to its caller are not columns of the core tables: waking, interrupt chains and flow trees have tables of their own, and what they assume of each other is listed above.
- A fork's fitting is decided for the flow on the rewind chain, in the ids of its origin; new ids change nothing about it.
- Interpolation between vCPU tiers (`log`, `exp`), rounding of float64, RTT probing and tuning constants; arithmetic is over `real`.
- Listing's filters and text search: the matching flows of a shard are given. Numbers in cursors are those of 64-bit `Atoi`.
- The latch's key parsing and the order its chunks are sorted in.
- History rendering, step navigation, search clauses, thread lookup and option defaults.
- Wakeups.NoLostWakeup: a caller nobody is at work for is seen by the sweep, whose minimum age and period are not modelled.
- CohortState.FanInState: says nothing about the state when a reducer fails, because the engine then logs and keeps whatever was merged so far.
- Turns.RunAll: one worker's program is its path of turns and stripes; what the work between them does is the rest of this project.
