/**
 Interrupt and Resume along a chain of subgraph callers. An interrupt walks up from the leaf to the root and
 pauses every caller on the way; a resume walks down from the root to find the leaf again. On a chain of any
 depth the second undoes the first.
 */
module Chains {
  datatype Option<+T> = None | Some(value: T)

  datatype StepStatus = Pending | Running | Interrupted | Over

  datatype CStep = CStep(flow: nat, status: StepStatus, parked: bool, leaseSeq: nat, interruptDone: bool)

  datatype FlowStatus = Going | Paused | Stopped

  /** `parentFlow` and `parentStep` are the surgraph links, 0 for a root. */
  datatype CFlow = CFlow(status: FlowStatus, parentFlow: nat, parentStep: nat)

  datatype Tree = Tree(steps: map<nat, CStep>, flows: map<nat, CFlow>)

  /** A child flow is younger than its parent, and its caller is a step of the parent. */
  ghost predicate Linked(t: Tree) {
    && 0 !in t.flows && 0 !in t.steps
    && (forall s <- t.steps :: t.steps[s].flow in t.flows)
    && (forall f {:trigger t.flows[f].parentFlow} :: f in t.flows && t.flows[f].parentFlow != 0 ==>
          var r := t.flows[f];
          r.parentFlow < f && r.parentFlow in t.flows && r.parentStep in t.steps && t.steps[r.parentStep].flow == r.parentFlow)
    && (forall f {:trigger t.flows[f].parentStep} :: f in t.flows && t.flows[f].parentFlow == 0 ==> t.flows[f].parentStep == 0)
  }

  // ----- The walk up

  /** The flows from f to its root, and the caller steps between them. */
  function UpFlows(t: Tree, f: nat): (r: seq<nat>)
    requires f in t.flows
    ensures |r| > 0 && r[0] == f
    decreases f
  {
    var p := t.flows[f].parentFlow;
    [f] + (if p != 0 && p < f && p in t.flows then UpFlows(t, p) else [])
  }

  function UpSteps(t: Tree, f: nat): (r: seq<nat>)
    requires f in t.flows
    ensures |r| + 1 == |UpFlows(t, f)|
    decreases f
  {
    var p := t.flows[f].parentFlow;
    if p != 0 && p < f && p in t.flows then [t.flows[f].parentStep] + UpSteps(t, p) else []
  }

  lemma UpMore(t: Tree, cur: nat)
    requires Linked(t) && cur in t.flows && t.flows[cur].parentFlow != 0
    ensures var n := t.flows[cur];
            && n.parentFlow < cur && n.parentFlow in t.flows
            && UpFlows(t, cur)[1..] == [n.parentFlow] + UpFlows(t, n.parentFlow)[1..]
            && UpSteps(t, cur) == [n.parentStep] + UpSteps(t, n.parentFlow)
  {
    var n := t.flows[cur];
    assert UpFlows(t, cur)[1..] == UpFlows(t, n.parentFlow) == [n.parentFlow] + UpFlows(t, n.parentFlow)[1..];
  }

  lemma PushOn(a: seq<nat>, h: nat, rest: seq<nat>)
    ensures a + ([h] + rest) == a + [h] + rest
  {
  }

  /** surgraphChain. */
  method SurgraphChain(t: Tree, f: nat) returns (flowIds: seq<nat>, stepIds: seq<nat>)
    requires Linked(t) && f in t.flows
    ensures flowIds == UpFlows(t, f) && stepIds == UpSteps(t, f)
  {
    flowIds, stepIds := [f], [];
    var cur := f;
    while t.flows[cur].parentFlow != 0
      invariant cur in t.flows
      invariant flowIds + UpFlows(t, cur)[1..] == UpFlows(t, f)
      invariant stepIds + UpSteps(t, cur) == UpSteps(t, f)
      decreases cur
    {
      var n := t.flows[cur];
      UpMore(t, cur);
      PushOn(flowIds, n.parentFlow, UpFlows(t, n.parentFlow)[1..]);
      PushOn(stepIds, n.parentStep, UpSteps(t, n.parentFlow));
      flowIds := flowIds + [n.parentFlow];
      stepIds := stepIds + [n.parentStep];
      cur := n.parentFlow;
    }
  }

  /** All the steps an interrupt of x pauses: x itself, then its callers. */
  function ChainSteps(t: Tree, x: nat): seq<nat>
    requires x in t.steps && t.steps[x].flow in t.flows
  {
    [x] + UpSteps(t, t.steps[x].flow)
  }

  function ChainFlows(t: Tree, x: nat): seq<nat>
    requires x in t.steps && t.steps[x].flow in t.flows
  {
    UpFlows(t, t.steps[x].flow)
  }

  /** How the two lists of a walk up hang together. */
  lemma {:induction false} ChainLinks(t: Tree, f: nat, i: nat)
    requires Linked(t) && f in t.flows && i < |UpFlows(t, f)|
    ensures UpFlows(t, f)[i] in t.flows && UpFlows(t, f)[i] <= f
    ensures i > 0 ==> UpFlows(t, f)[i] < UpFlows(t, f)[i - 1] && UpSteps(t, f)[i - 1] in t.steps
                      && UpFlows(t, f)[i - 1] in t.flows
                      && t.flows[UpFlows(t, f)[i - 1]].parentStep == UpSteps(t, f)[i - 1]
                      && t.flows[UpFlows(t, f)[i - 1]].parentFlow == UpFlows(t, f)[i]
                      && t.steps[UpSteps(t, f)[i - 1]].flow == UpFlows(t, f)[i]
    ensures i + 1 == |UpFlows(t, f)| ==> t.flows[UpFlows(t, f)[i]].parentFlow == 0
    decreases f
  {
    var p := t.flows[f].parentFlow;
    if i > 0 {
      ChainLinks(t, p, i - 1);
      assert UpFlows(t, f)[i] == UpFlows(t, p)[i - 1];
      if i > 1 {
        assert UpFlows(t, f)[i - 1] == UpFlows(t, p)[i - 2];
        assert UpSteps(t, f)[i - 1] == UpSteps(t, p)[i - 2];
      }
    } else if p != 0 {
      assert |UpFlows(t, p)| > 0;
    }
  }

  // ----- handleInterrupt

  predicate Movable(st: StepStatus) { st.Running? || st.Interrupted? }

  /** The chain UPDATE, the fence, and the flow UPDATE; a fenced interrupt rolls everything back. */
  function Interrupt(t: Tree, x: nat, g: nat): Tree
    requires x in t.steps && t.steps[x].flow in t.flows
  {
    var chain := ChainSteps(t, x);
    var steps := map s | s in t.steps ::
      if s in chain && Movable(t.steps[s].status)
      then t.steps[s].(status := Interrupted, parked := false, interruptDone := if s == x then true else t.steps[s].interruptDone)
      else t.steps[s];
    if steps[x].leaseSeq != g || !steps[x].status.Interrupted? then t
    else
      Tree(steps, map f | f in t.flows :: if f in ChainFlows(t, x) && !t.flows[f].status.Stopped?
                                          then t.flows[f].(status := Paused) else t.flows[f])
  }

  /** The step is at work, waits for its child, or was paused before. */
  predicate Pausable(t: Tree, s: nat) { s in t.steps && t.steps[s].status in {Running, Interrupted} }

  /** A worker whose leaf was re-granted, or put back to pending, leaves the whole chain as it was; any other pauses it. */
  lemma InterruptAllOrNothing(t: Tree, x: nat, g: nat)
    requires x in t.steps && t.steps[x].flow in t.flows
    ensures t.steps[x].leaseSeq != g || !Pausable(t, x) ==> Interrupt(t, x, g) == t
    ensures t.steps[x].leaseSeq == g && Pausable(t, x) ==>
              var t' := Interrupt(t, x, g);
              && t'.steps[x].status.Interrupted? && t'.steps[x].interruptDone
              && (forall s <- ChainSteps(t, x) | s in t.steps && Pausable(t, s) :: t'.steps[s].status.Interrupted?)
              && (forall f <- ChainFlows(t, x) | f in t.flows && !t.flows[f].status.Stopped? :: t'.flows[f].status.Paused?)
              && t'.steps.Keys == t.steps.Keys && t'.flows.Keys == t.flows.Keys
              && (forall s <- t.steps :: if s in ChainSteps(t, x) && Pausable(t, s)
                                         then !t'.steps[s].parked && (s != x ==> t'.steps[s].interruptDone == t.steps[s].interruptDone)
                                         else t'.steps[s] == t.steps[s])
              && (forall f <- t.flows | f !in ChainFlows(t, x) || t.flows[f].status.Stopped? :: t'.flows[f] == t.flows[f])
  {
    var chain := ChainSteps(t, x);
    assert chain[0] == x;
  }

  // ----- The walk down

  /** interruptedSubgraphChain's two maps: a flow's interrupted step, and a caller's interrupted child flow. */
  ghost predicate Loaded(t: Tree, leaf: map<nat, nat>, child: map<nat, nat>) {
    && (forall f <- leaf :: leaf[f] in t.steps && t.steps[leaf[f]].flow == f && t.steps[leaf[f]].status.Interrupted?)
    && (forall s <- t.steps | t.steps[s].status.Interrupted? :: t.steps[s].flow in leaf)
    && (forall s <- child :: child[s] in t.flows && t.flows[child[s]].parentStep == s && t.flows[child[s]].status.Paused?)
    && (forall f <- t.flows | t.flows[f].status.Paused? && t.flows[f].parentStep != 0 :: t.flows[f].parentStep in child)
  }

  /** The first interrupted step of each flow, rows coming ordered by flow, age and id. */
  method LoadLeaves(t: Tree, rows: seq<nat>) returns (leaf: map<nat, nat>)
    requires forall s :: s in rows <==> s in t.steps && t.steps[s].status.Interrupted?
    ensures forall f <- leaf :: leaf[f] in t.steps && t.steps[leaf[f]].flow == f && t.steps[leaf[f]].status.Interrupted?
    ensures forall s <- t.steps | t.steps[s].status.Interrupted? :: t.steps[s].flow in leaf
    ensures forall i :: 0 <= i < |rows| && (forall j :: 0 <= j < i ==> t.steps[rows[j]].flow != t.steps[rows[i]].flow)
              ==> leaf[t.steps[rows[i]].flow] == rows[i]
  {
    leaf := map[];
    for i := 0 to |rows|
      invariant forall f <- leaf :: leaf[f] in t.steps && t.steps[leaf[f]].flow == f && t.steps[leaf[f]].status.Interrupted?
      invariant forall f :: f in leaf <==> exists j :: 0 <= j < i && t.steps[rows[j]].flow == f
      invariant forall k :: 0 <= k < i && (forall j :: 0 <= j < k ==> t.steps[rows[j]].flow != t.steps[rows[k]].flow)
                  ==> leaf[t.steps[rows[k]].flow] == rows[k]
    {
      var sid := rows[i];
      assert sid in rows;
      if t.steps[sid].flow !in leaf { leaf := leaf[t.steps[sid].flow := sid]; }
    }
    forall s | s in t.steps && t.steps[s].status.Interrupted? ensures t.steps[s].flow in leaf {
      var j :| 0 <= j < |rows| && rows[j] == s;
    }
  }

  method LoadChildren(t: Tree, rows: seq<nat>) returns (child: map<nat, nat>)
    requires forall f :: f in rows <==> f in t.flows
    ensures forall s <- child :: child[s] in t.flows && t.flows[child[s]].parentStep == s && t.flows[child[s]].status.Paused?
    ensures forall f <- t.flows | t.flows[f].status.Paused? && t.flows[f].parentStep != 0 :: t.flows[f].parentStep in child
  {
    child := map[];
    for i := 0 to |rows|
      invariant forall s <- child :: child[s] in t.flows && t.flows[child[s]].parentStep == s && t.flows[child[s]].status.Paused?
      invariant forall j :: 0 <= j < i && t.flows[rows[j]].status.Paused? && t.flows[rows[j]].parentStep != 0
                  ==> t.flows[rows[j]].parentStep in child
    {
      var f := rows[i];
      assert f in rows;
      if t.flows[f].parentStep != 0 && t.flows[f].status.Paused? { child := child[t.flows[f].parentStep := f]; }
    }
    forall f | f in t.flows && t.flows[f].status.Paused? && t.flows[f].parentStep != 0 ensures t.flows[f].parentStep in child {
      var j :| 0 <= j < |rows| && rows[j] == f;
    }
  }

  /** A flow's interrupted child is younger than the flow, so the walk down ends. */
  ghost predicate Descends(leaf: map<nat, nat>, child: map<nat, nat>, top: nat) {
    forall f {:trigger leaf[f]} :: f in leaf && leaf[f] in child ==> f < child[leaf[f]] < top
  }

  /** The flows and steps from cur down to the leaf; None when a flow on the way holds no interrupted step. */
  ghost function Down(leaf: map<nat, nat>, child: map<nat, nat>, cur: nat, top: nat): Option<(seq<nat>, seq<nat>)>
    requires Descends(leaf, child, top)
    decreases top - cur
  {
    if cur !in leaf then None
    else if leaf[cur] !in child then Some(([cur], [leaf[cur]]))
    else
      match Down(leaf, child, child[leaf[cur]], top)
      case None => None
      case Some(r) => Some(([cur] + r.0, [leaf[cur]] + r.1))
  }

  method InterruptedChain(leaf: map<nat, nat>, child: map<nat, nat>, root: nat, ghost top: nat)
    returns (found: bool, flowIds: seq<nat>, stepIds: seq<nat>)
    requires Descends(leaf, child, top)
    ensures if found then Down(leaf, child, root, top) == Some((flowIds, stepIds)) else Down(leaf, child, root, top).None?
  {
    flowIds, stepIds := [root], [];
    var cur := root;
    if Down(leaf, child, root, top).Some? {
      ghost var r := Down(leaf, child, root, top).value;
      assert flowIds[..0] + r.0 == r.0 && stepIds + r.1 == r.1;
    }
    while true
      invariant |flowIds| == |stepIds| + 1 && flowIds[|stepIds|] == cur
      invariant match Down(leaf, child, cur, top)
                case None => Down(leaf, child, root, top).None?
                case Some(r) => Down(leaf, child, root, top) == Some((flowIds[..|stepIds|] + r.0, stepIds + r.1))
      decreases top - cur
    {
      if cur !in leaf { return false, [], []; }
      var step := leaf[cur];
      ghost var before := (flowIds, stepIds);
      stepIds := stepIds + [step];
      if step !in child {
        assert flowIds[..|before.1|] + [cur] == flowIds;
        return true, flowIds, stepIds;
      }
      flowIds := flowIds + [child[step]];
      assert flowIds[..|stepIds|] == before.0 == before.0[..|before.1|] + [cur];
      if Down(leaf, child, child[step], top).Some? {
        ghost var r := Down(leaf, child, child[step], top).value;
        assert before.0[..|before.1|] + ([cur] + r.0) == flowIds[..|stepIds|] + r.0;
        assert before.1 + ([step] + r.1) == stepIds + r.1;
      }
      cur := child[step];
    }
  }

  // ----- The round trip

  /** The leaf runs, its callers wait for it, their flows are going, and nothing in the tree is paused. */
  ghost predicate ReadyToPause(t: Tree, x: nat) {
    && Linked(t) && x in t.steps && t.steps[x].status.Running? && !t.steps[x].parked
    && (forall s <- t.steps :: !t.steps[s].status.Interrupted?)
    && (forall f <- t.flows :: !t.flows[f].status.Paused?)
    && (forall s <- UpSteps(t, t.steps[x].flow) :: s in t.steps && t.steps[s].status.Running? && t.steps[s].parked && s != x)
    && (forall f <- ChainFlows(t, x) :: f in t.flows && t.flows[f].status.Going?)
  }

  function Root(t: Tree, x: nat): nat
    requires x in t.steps && t.steps[x].flow in t.flows
  {
    ChainFlows(t, x)[|ChainFlows(t, x)| - 1]
  }

  /** Place i of the chain: its flow, and the step of that flow that is paused. */
  lemma Place(t: Tree, x: nat, i: nat)
    requires Linked(t) && x in t.steps && i < |ChainFlows(t, x)|
    ensures |ChainSteps(t, x)| == |ChainFlows(t, x)|
    ensures ChainFlows(t, x)[i] in t.flows && ChainSteps(t, x)[i] in t.steps
    ensures t.steps[ChainSteps(t, x)[i]].flow == ChainFlows(t, x)[i]
    ensures i > 0 ==> ChainFlows(t, x)[i] < ChainFlows(t, x)[i - 1] && ChainFlows(t, x)[i - 1] in t.flows
                      && t.flows[ChainFlows(t, x)[i - 1]].parentStep == ChainSteps(t, x)[i]
  {
    ChainLinks(t, t.steps[x].flow, i);
  }

  lemma {:induction false} FlowsFall(t: Tree, x: nat, i: nat, j: nat)
    requires Linked(t) && x in t.steps && i < j < |ChainFlows(t, x)|
    ensures ChainFlows(t, x)[j] < ChainFlows(t, x)[i]
    decreases j
  {
    Place(t, x, j);
    if i < j - 1 { FlowsFall(t, x, i, j - 1); }
  }

  /** Of t', only the chain of x is paused. */
  ghost predicate OnlyChainPaused(t: Tree, t': Tree, x: nat)
    requires x in t.steps && t.steps[x].flow in t.flows
  {
    && t'.steps.Keys == t.steps.Keys && t'.flows.Keys == t.flows.Keys
    && (forall s <- t.steps :: t'.steps[s].flow == t.steps[s].flow
                               && (t'.steps[s].status.Interrupted? <==> s in ChainSteps(t, x)))
    && (forall f <- t.flows :: t'.flows[f].parentStep == t.flows[f].parentStep
                               && (t'.flows[f].status.Paused? <==> f in ChainFlows(t, x)))
  }

  /** What an interrupt leaves paused: the chain's steps and flows, and nothing else. */
  lemma PausedExactly(t: Tree, x: nat, g: nat)
    requires ReadyToPause(t, x) && t.steps[x].leaseSeq == g
    ensures OnlyChainPaused(t, Interrupt(t, x, g), x)
  {
    var chain := ChainSteps(t, x);
    assert chain[0] == x;
    forall s | s in chain ensures s in t.steps && Movable(t.steps[s].status) {
      if s != x { assert s in UpSteps(t, t.steps[x].flow); }
    }
  }

  /** At place i the two maps of the walk down know exactly the chain. */
  lemma MapsKnowChain(t: Tree, t': Tree, x: nat, leaf: map<nat, nat>, child: map<nat, nat>, i: nat)
    requires Linked(t) && x in t.steps && OnlyChainPaused(t, t', x) && Loaded(t', leaf, child)
    requires i < |ChainFlows(t, x)|
    ensures |ChainSteps(t, x)| == |ChainFlows(t, x)|
    ensures ChainFlows(t, x)[i] in leaf && leaf[ChainFlows(t, x)[i]] == ChainSteps(t, x)[i]
    ensures i == 0 ==> x !in child
    ensures i > 0 ==> ChainSteps(t, x)[i] in child && child[ChainSteps(t, x)[i]] == ChainFlows(t, x)[i - 1]
  {
    Place(t, x, i);
    var s, f := ChainSteps(t, x)[i], ChainFlows(t, x)[i];
    assert s in ChainSteps(t, x);
    // The flow's interrupted step is on the chain, at the flow's own place.
    var s' := leaf[f];
    var j :| 0 <= j < |ChainSteps(t, x)| && ChainSteps(t, x)[j] == s';
    Place(t, x, j);
    if j < i { FlowsFall(t, x, j, i); } else if i < j { FlowsFall(t, x, i, j); }
    if i > 0 {
      assert ChainFlows(t, x)[i - 1] in ChainFlows(t, x);
      Linked0(t, x, i);
      ChildIs(t, t', x, leaf, child, i);
    } else if x in child {
      ChildIs(t, t', x, leaf, child, 0);
    }
  }

  lemma Linked0(t: Tree, x: nat, i: nat)
    requires Linked(t) && x in t.steps && 0 < i < |ChainFlows(t, x)|
    ensures |ChainSteps(t, x)| == |ChainFlows(t, x)| && ChainSteps(t, x)[i] != 0
  {
    Place(t, x, i);
  }

  /** The chain flow whose caller sits at place i sits right below it. */
  lemma ParentPlace(t: Tree, x: nat, k: nat, i: nat)
    requires Linked(t) && x in t.steps && k < |ChainFlows(t, x)| && i < |ChainFlows(t, x)|
    requires |ChainSteps(t, x)| == |ChainFlows(t, x)| && ChainFlows(t, x)[k] in t.flows
    requires t.flows[ChainFlows(t, x)[k]].parentStep == ChainSteps(t, x)[i]
    ensures i == k + 1
  {
    Place(t, x, i);
    ChainLinks(t, t.steps[x].flow, k);
    if k + 1 < |ChainFlows(t, x)| {
      Place(t, x, k + 1);
      if k + 1 < i { FlowsFall(t, x, k + 1, i); } else if i < k + 1 { FlowsFall(t, x, i, k + 1); }
    }
  }

  lemma ChildIs(t: Tree, t': Tree, x: nat, leaf: map<nat, nat>, child: map<nat, nat>, i: nat)
    requires Linked(t) && x in t.steps && OnlyChainPaused(t, t', x) && Loaded(t', leaf, child)
    requires i < |ChainFlows(t, x)| && |ChainSteps(t, x)| == |ChainFlows(t, x)|
    requires ChainSteps(t, x)[i] in child
    ensures i > 0 && child[ChainSteps(t, x)[i]] == ChainFlows(t, x)[i - 1]
  {
    var c := child[ChainSteps(t, x)[i]];
    assert t'.flows[c].parentStep == ChainSteps(t, x)[i] && t'.flows[c].status.Paused? && c in ChainFlows(t, x);
    var k :| 0 <= k < |ChainFlows(t, x)| && ChainFlows(t, x)[k] == c;
    ParentPlace(t, x, k, i);
  }

  lemma MapsDescend(t: Tree, t': Tree, x: nat, leaf: map<nat, nat>, child: map<nat, nat>)
    requires Linked(t) && x in t.steps && OnlyChainPaused(t, t', x) && Loaded(t', leaf, child)
    ensures Descends(leaf, child, t.steps[x].flow + 1)
  {
    forall f | f in leaf && leaf[f] in child ensures f < child[leaf[f]] < t.steps[x].flow + 1 {
      var i :| 0 <= i < |ChainSteps(t, x)| && ChainSteps(t, x)[i] == leaf[f];
      Place(t, x, 0);
      Place(t, x, i);
      ChildIs(t, t', x, leaf, child, i);
      ChainLinks(t, t.steps[x].flow, i - 1);
    }
  }

  function Reversed(s: seq<nat>): (r: seq<nat>)
    ensures |r| == |s| && forall i :: 0 <= i < |s| ==> r[i] == s[|s| - 1 - i]
  {
    if s == [] then [] else Reversed(s[1..]) + [s[0]]
  }

  /** At place i of the chain the two maps of the walk down know the step and the child. */
  ghost predicate KnowsAt(fs: seq<nat>, ss: seq<nat>, leaf: map<nat, nat>, child: map<nat, nat>, i: nat)
    requires i < |fs| == |ss|
  {
    && fs[i] in leaf && leaf[fs[i]] == ss[i]
    && (if i == 0 then ss[0] !in child else ss[i] in child && child[ss[i]] == fs[i - 1])
  }

  ghost predicate KnowsChain(fs: seq<nat>, ss: seq<nat>, leaf: map<nat, nat>, child: map<nat, nat>) {
    |ss| == |fs| && forall i {:trigger KnowsAt(fs, ss, leaf, child, i)} :: 0 <= i < |fs| ==> KnowsAt(fs, ss, leaf, child, i)
  }

  lemma {:induction false} DownFrom(fs: seq<nat>, ss: seq<nat>, leaf: map<nat, nat>, child: map<nat, nat>, top: nat, i: nat)
    requires KnowsChain(fs, ss, leaf, child) && Descends(leaf, child, top) && i < |fs|
    ensures Down(leaf, child, fs[i], top) == Some((Reversed(fs[..i + 1]), Reversed(ss[..i + 1])))
    decreases i
  {
    assert KnowsAt(fs, ss, leaf, child, i);
    if i > 0 {
      DownFrom(fs, ss, leaf, child, top, i - 1);
      ReversedMore(fs, i);
      ReversedMore(ss, i);
    } else {
      assert fs[..1] == [fs[0]] && ss[..1] == [ss[0]];
      assert Reversed(fs[..1]) == [fs[0]] && Reversed(ss[..1]) == [ss[0]];
    }
  }

  lemma ReversedMore(s: seq<nat>, i: nat)
    requires i < |s|
    ensures Reversed(s[..i + 1]) == [s[i]] + Reversed(s[..i])
  {
  }

  /** The walk down from the root finds the walk up's chain, the other way round, at any depth. */
  lemma DownIsUpReversed(t: Tree, x: nat, g: nat, leaf: map<nat, nat>, child: map<nat, nat>)
    requires ReadyToPause(t, x) && t.steps[x].leaseSeq == g && Loaded(Interrupt(t, x, g), leaf, child)
    ensures Descends(leaf, child, t.steps[x].flow + 1)
    ensures Down(leaf, child, Root(t, x), t.steps[x].flow + 1)
            == Some((Reversed(ChainFlows(t, x)), Reversed(ChainSteps(t, x))))
  {
    PausedExactly(t, x, g);
    FindsChain(t, Interrupt(t, x, g), x, leaf, child);
  }

  lemma FindsChain(t: Tree, t': Tree, x: nat, leaf: map<nat, nat>, child: map<nat, nat>)
    requires Linked(t) && x in t.steps && OnlyChainPaused(t, t', x) && Loaded(t', leaf, child)
    ensures Descends(leaf, child, t.steps[x].flow + 1)
    ensures Down(leaf, child, Root(t, x), t.steps[x].flow + 1)
            == Some((Reversed(ChainFlows(t, x)), Reversed(ChainSteps(t, x))))
  {
    var fs, ss := ChainFlows(t, x), ChainSteps(t, x);
    MapsDescend(t, t', x, leaf, child);
    MapsKnowAll(t, t', x, leaf, child);
    DownFrom(fs, ss, leaf, child, t.steps[x].flow + 1, |fs| - 1);
    assert fs[..|fs|] == fs && ss[..|ss|] == ss;
  }

  lemma MapsKnowAll(t: Tree, t': Tree, x: nat, leaf: map<nat, nat>, child: map<nat, nat>)
    requires Linked(t) && x in t.steps && OnlyChainPaused(t, t', x) && Loaded(t', leaf, child)
    ensures KnowsChain(ChainFlows(t, x), ChainSteps(t, x), leaf, child)
  {
    Place(t, x, 0);
    forall i | 0 <= i < |ChainFlows(t, x)| ensures KnowsAt(ChainFlows(t, x), ChainSteps(t, x), leaf, child, i) {
      MapsKnowChain(t, t', x, leaf, child, i);
    }
  }

  // ----- resume

  /** The steps' UPDATEs: the callers park again, the leaf becomes pending. */
  function ResumeSteps(t: Tree, leafStep: nat, parkSteps: set<nat>): map<nat, CStep> {
    map s | s in t.steps ::
      if !t.steps[s].status.Interrupted? then t.steps[s]
      else if s == leafStep then t.steps[s].(status := Pending)
      else if s in parkSteps then t.steps[s].(status := Running, parked := true)
      else t.steps[s]
  }

  /** All but the last of a root-first chain: the callers that wait again. */
  function ParkSteps(stepIds: seq<nat>): set<nat> { set i | 0 <= i < |stepIds| - 1 :: stepIds[i] }

  predicate HoldsInterrupt(steps: map<nat, CStep>, f: nat) {
    exists s :: s in steps && steps[s].flow == f && steps[s].status.Interrupted?
  }

  /** resume's transaction, gated on the root: a root that a Delete or Terminate stopped first rolls it back. */
  function Resume(t: Tree, root: nat, flowIds: seq<nat>, stepIds: seq<nat>): Tree
    requires |stepIds| > 0
  {
    var leafStep := stepIds[|stepIds| - 1];
    if root !in t.flows || !t.flows[root].status.Paused? then t
    else if leafStep !in t.steps || !t.steps[leafStep].interruptDone then t
    else
      var steps := ResumeSteps(t, leafStep, ParkSteps(stepIds));
      Tree(steps, ResumeFlows(t.flows, steps, flowIds))
  }

  /** The flows' UPDATEs: a flow that still holds an interrupted step stays paused. */
  function ResumeFlows(flows: map<nat, CFlow>, steps: map<nat, CStep>, flowIds: seq<nat>): map<nat, CFlow> {
    map f | f in flows :: if f in flowIds && flows[f].status.Paused? && !HoldsInterrupt(steps, f)
                          then flows[f].(status := Going) else flows[f]
  }

  /**
   A resume takes effect only while the root is paused and its leaf is an interrupt's own; then the leaf is to be run
   again, the callers above it wait for their children, and each flow of the chain goes again exactly if no step of it is
   left interrupted. Nothing else changes.
   */
  lemma ResumeExactly(t: Tree, root: nat, flowIds: seq<nat>, stepIds: seq<nat>)
    requires |stepIds| > 0
    ensures var t', leaf := Resume(t, root, flowIds, stepIds), stepIds[|stepIds| - 1];
            if root in t.flows && t.flows[root].status.Paused? && leaf in t.steps && t.steps[leaf].interruptDone then
              && t'.steps.Keys == t.steps.Keys && t'.flows.Keys == t.flows.Keys
              && (t.steps[leaf].status.Interrupted? ==> t'.steps[leaf] == t.steps[leaf].(status := Pending))
              && (forall i | 0 <= i < |stepIds| - 1 && stepIds[i] != leaf && stepIds[i] in t.steps && t.steps[stepIds[i]].status.Interrupted? ::
                    t'.steps[stepIds[i]] == t.steps[stepIds[i]].(status := Running, parked := true))
              && (forall s <- t.steps | s !in stepIds || !t.steps[s].status.Interrupted? :: t'.steps[s] == t.steps[s])
              && (forall f <- t.flows | f in flowIds && t.flows[f].status.Paused? ::
                    if exists s <- t'.steps :: t'.steps[s].flow == f && t'.steps[s].status.Interrupted?
                    then t'.flows[f] == t.flows[f] else t'.flows[f] == t.flows[f].(status := Going))
              && (forall f <- t.flows | f !in flowIds || !t.flows[f].status.Paused? :: t'.flows[f] == t.flows[f])
            else t' == t
  {
    var leaf := stepIds[|stepIds| - 1];
    forall i | 0 <= i < |stepIds| - 1 ensures stepIds[i] in ParkSteps(stepIds) {}
    forall s | s in ParkSteps(stepIds) ensures s in stepIds {}
  }

  lemma FlowsGoAgain(flows: map<nat, CFlow>, flows': map<nat, CFlow>, steps: map<nat, CStep>, ids: seq<nat>)
    requires flows'.Keys == flows.Keys && forall f :: !HoldsInterrupt(steps, f)
    requires forall f <- flows :: flows'[f] == (if f in ids then flows[f].(status := Paused) else flows[f])
                                  && (if f in ids then flows[f].status.Going? else !flows[f].status.Paused?)
    ensures ResumeFlows(flows', steps, Reversed(ids)) == flows
  {
    forall f | f in flows ensures f in Reversed(ids) <==> f in ids {
      if ids == [] {} else { ReversedHas(ids, f); }
    }
  }

  lemma ReversedHas(s: seq<nat>, y: nat)
    requires |s| > 0
    ensures y in Reversed(s) <==> y in s
    ensures Reversed(s)[|s| - 1] == s[0]
    ensures (forall i, j :: 0 <= i < j < |s| ==> s[i] != s[j])
            ==> (y in ParkSteps(Reversed(s)) <==> y in s && y != s[0])
  {
    var r := Reversed(s);
    if y in s {
      var i :| 0 <= i < |s| && s[i] == y;
      assert r[|s| - 1 - i] == y;
    }
    if y in r {
      var i :| 0 <= i < |r| && r[i] == y;
      assert s[|s| - 1 - i] == y;
    }
  }

  lemma StepsApart(t: Tree, x: nat)
    requires Linked(t) && x in t.steps
    ensures |ChainSteps(t, x)| == |ChainFlows(t, x)| > 0
    ensures forall i, j :: 0 <= i < j < |ChainSteps(t, x)| ==> ChainSteps(t, x)[i] != ChainSteps(t, x)[j]
  {
    Place(t, x, 0);
    forall i, j | 0 <= i < j < |ChainSteps(t, x)| ensures ChainSteps(t, x)[i] != ChainSteps(t, x)[j] {
      Place(t, x, i);
      Place(t, x, j);
      FlowsFall(t, x, i, j);
    }
  }

  lemma ResumedSteps(t: Tree, x: nat, g: nat)
    requires ReadyToPause(t, x) && t.steps[x].leaseSeq == g && |ChainSteps(t, x)| > 0
    ensures ResumeSteps(Interrupt(t, x, g), x, ParkSteps(Reversed(ChainSteps(t, x))))
            == t.steps[x := t.steps[x].(status := Pending, interruptDone := true)]
  {
    StepsApart(t, x);
    assert ChainSteps(t, x)[0] == x;
    ParkSet(ChainSteps(t, x));
    StepsGoAgain(t, x, g, ParkSteps(Reversed(ChainSteps(t, x))));
  }

  /** All of a reversed list but its end is all of the list but its start. */
  lemma ParkSet(chain: seq<nat>)
    requires |chain| > 0 && forall i, j :: 0 <= i < j < |chain| ==> chain[i] != chain[j]
    ensures forall s :: s in ParkSteps(Reversed(chain)) <==> s in chain && s != chain[0]
  {
    forall s ensures s in ParkSteps(Reversed(chain)) <==> s in chain && s != chain[0] {
      ReversedHas(chain, s);
    }
  }

  lemma StepsGoAgain(t: Tree, x: nat, g: nat, parks: set<nat>)
    requires ReadyToPause(t, x) && t.steps[x].leaseSeq == g && x in ChainSteps(t, x)
    requires forall s <- t.steps :: s in parks <==> s in ChainSteps(t, x) && s != x
    ensures ResumeSteps(Interrupt(t, x, g), x, parks) == t.steps[x := t.steps[x].(status := Pending, interruptDone := true)]
  {
    forall s | s in ChainSteps(t, x) && s != x ensures s in t.steps && t.steps[s].status.Running? && t.steps[s].parked {
      assert s in UpSteps(t, t.steps[x].flow);
    }
  }

  /**
   Interrupt, then Resume, on a chain of any depth: every caller waits again, every flow of the chain is going
   again, and of the whole tree only the leaf has changed - it is pending, to be run again.
   */
  lemma ResumeUndoesInterrupt(t: Tree, x: nat, g: nat, leaf: map<nat, nat>, child: map<nat, nat>)
    requires ReadyToPause(t, x) && t.steps[x].leaseSeq == g && Loaded(Interrupt(t, x, g), leaf, child)
    ensures Descends(leaf, child, t.steps[x].flow + 1)
    ensures Down(leaf, child, Root(t, x), t.steps[x].flow + 1).Some?
    ensures var d := Down(leaf, child, Root(t, x), t.steps[x].flow + 1).value;
            && |d.1| > 0
            && Resume(Interrupt(t, x, g), Root(t, x), d.0, d.1)
               == t.(steps := t.steps[x := t.steps[x].(status := Pending, interruptDone := true)])
  {
    DownIsUpReversed(t, x, g, leaf, child);
    StepsApart(t, x);
    ResumedTree(t, x, g);
  }

  lemma ResumedTree(t: Tree, x: nat, g: nat)
    requires ReadyToPause(t, x) && t.steps[x].leaseSeq == g && |ChainSteps(t, x)| > 0
    ensures Resume(Interrupt(t, x, g), Root(t, x), Reversed(ChainFlows(t, x)), Reversed(ChainSteps(t, x)))
            == t.(steps := t.steps[x := t.steps[x].(status := Pending, interruptDone := true)])
  {
    var fs, ss := ChainFlows(t, x), ChainSteps(t, x);
    var t' := Interrupt(t, x, g);
    PausedExactly(t, x, g);
    ResumedSteps(t, x, g);
    LeafPaused(t, x, g);
    var steps := t.steps[x := t.steps[x].(status := Pending, interruptDone := true)];
    assert fs[|fs| - 1] in fs;
    assert Reversed(ss)[|ss| - 1] == x;
    assert Resume(t', Root(t, x), Reversed(fs), Reversed(ss)).steps == steps;
    forall f ensures !HoldsInterrupt(steps, f) {}
    FlowsGoAgain(t.flows, t'.flows, steps, fs);
  }

  lemma LeafPaused(t: Tree, x: nat, g: nat)
    requires ReadyToPause(t, x) && t.steps[x].leaseSeq == g
    ensures var t' := Interrupt(t, x, g); x in t'.steps && t'.steps[x].interruptDone && t'.steps[x].status.Interrupted?
  {
    InterruptAllOrNothing(t, x, g);
  }
}
