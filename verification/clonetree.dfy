/**
 Fork's walk over the flow tree. An explicit stack stands in for the recursion, and clones the flows in the same
 order, with the same new ids and under the same new parents, at any depth.
 */
module CloneTree {
  /** A flow and the new flow its clone hangs under. */
  datatype Pending = Pending(flow: nat, parent: nat)

  /** One flow cloned. */
  datatype Clone = Clone(origin: nat, id: nat, parent: nat)

  /** The kept children of each flow, in the order of their caller steps. A child flow is younger than its parent. */
  ghost predicate Tree(children: map<nat, seq<nat>>) {
    forall f, i {:trigger children[f][i]} :: f in children && 0 <= i < |children[f]|
      ==> f < children[f][i] && children[f][i] in children
  }

  lemma {:induction false} Above(ids: set<nat>) returns (top: nat)
    ensures forall f <- ids :: f < top
    decreases ids
  {
    if ids == {} {
      top := 0;
    } else {
      var f :| f in ids;
      var rest := Above(ids - {f});
      top := if rest > f then rest else f + 1;
      forall g | g in ids ensures g < top {
        if g != f { assert g in ids - {f}; }
      }
    }
  }

  /** The recursive clone of f: the flow itself, then each child's subtree, ids handed out as flows are cloned. */
  ghost function CloneFlow(children: map<nat, seq<nat>>, top: nat, f: nat, parent: nat, next: nat): (r: seq<Clone>)
    requires Tree(children) && f in children && forall g <- children :: g < top
    ensures |r| >= 1
    decreases top - f, 1, 0
  {
    [Clone(f, next, parent)] + CloneKids(children, top, f, children[f], next, next + 1)
  }

  ghost function CloneKids(children: map<nat, seq<nat>>, top: nat, f: nat, kids: seq<nat>, parent: nat, next: nat): seq<Clone>
    requires Tree(children) && f in children && (forall g <- children :: g < top)
    requires forall k <- kids :: f < k && k in children
    decreases top - f, 0, |kids|
  {
    if kids == [] then []
    else
      var first := CloneFlow(children, top, kids[0], parent, next);
      assert forall k <- kids[1..] :: k in kids;
      first + CloneKids(children, top, f, kids[1..], parent, next + |first|)
  }

  /** What a list of flows still to be cloned amounts to. */
  ghost function CloneAll(children: map<nat, seq<nat>>, top: nat, todo: seq<Pending>, next: nat): seq<Clone>
    requires Tree(children) && (forall g <- children :: g < top) && forall p <- todo :: p.flow in children
  {
    if todo == [] then []
    else
      var first := CloneFlow(children, top, todo[0].flow, todo[0].parent, next);
      first + CloneAll(children, top, todo[1..], next + |first|)
  }

  function Under(kids: seq<nat>, parent: nat): (r: seq<Pending>)
    ensures |r| == |kids| && forall i :: 0 <= i < |kids| ==> r[i] == Pending(kids[i], parent)
  {
    seq(|kids|, i requires 0 <= i < |kids| => Pending(kids[i], parent))
  }

  lemma {:induction false} KidsAreTodo(children: map<nat, seq<nat>>, top: nat, f: nat, kids: seq<nat>, parent: nat, next: nat)
    requires Tree(children) && f in children && (forall g <- children :: g < top)
    requires forall k <- kids :: f < k && k in children
    ensures CloneKids(children, top, f, kids, parent, next) == CloneAll(children, top, Under(kids, parent), next)
    decreases |kids|
  {
    if kids != [] {
      var first := CloneFlow(children, top, kids[0], parent, next);
      assert forall k <- kids[1..] :: k in kids;
      assert Under(kids, parent)[1..] == Under(kids[1..], parent);
      KidsAreTodo(children, top, f, kids[1..], parent, next + |first|);
    }
  }

  lemma {:induction false} CloneAllJoins(children: map<nat, seq<nat>>, top: nat, a: seq<Pending>, b: seq<Pending>, next: nat)
    requires Tree(children) && (forall g <- children :: g < top)
    requires (forall p <- a :: p.flow in children) && (forall p <- b :: p.flow in children)
    ensures CloneAll(children, top, a + b, next)
            == CloneAll(children, top, a, next) + CloneAll(children, top, b, next + |CloneAll(children, top, a, next)|)
    decreases |a|
  {
    if a == [] {
      assert a + b == b;
    } else {
      var first := CloneFlow(children, top, a[0].flow, a[0].parent, next);
      assert (a + b)[1..] == a[1..] + b;
      CloneAllJoins(children, top, a[1..], b, next + |first|);
    }
  }

  function Reversed<T>(s: seq<T>): (r: seq<T>)
    ensures |r| == |s| && forall i :: 0 <= i < |s| ==> r[i] == s[|s| - 1 - i]
  {
    if s == [] then [] else Reversed(s[1..]) + [s[0]]
  }

  lemma FlowsOf(children: map<nat, seq<nat>>, stack: seq<Pending>)
    requires forall p <- stack :: p.flow in children
    ensures forall p <- Reversed(stack) :: p.flow in children
  {
    forall p | p in Reversed(stack) ensures p.flow in children {
      var i :| 0 <= i < |stack| && Reversed(stack)[i] == p;
      assert p == stack[|stack| - 1 - i];
    }
  }

  lemma StackReversed(rest: seq<Pending>, it: Pending, kids: seq<Pending>)
    ensures Reversed(rest + [it]) == [it] + Reversed(rest)
    ensures Reversed(rest + Reversed(kids)) == kids + Reversed(rest)
  {
  }

  /** One turn of the loop: the popped flow is cloned, its children take its place on top of the stack. */
  lemma OneTurn(children: map<nat, seq<nat>>, top: nat, rest: seq<Pending>, it: Pending, next: nat)
    requires Tree(children) && (forall g <- children :: g < top)
    requires it.flow in children && forall p <- rest :: p.flow in children
    ensures var kids := Under(children[it.flow], next);
            && (forall p <- Reversed(rest + [it]) :: p.flow in children)
            && (forall p <- Reversed(rest + Reversed(kids)) :: p.flow in children)
            && CloneAll(children, top, Reversed(rest + [it]), next)
               == [Clone(it.flow, next, it.parent)] + CloneAll(children, top, Reversed(rest + Reversed(kids)), next + 1)
  {
    var kids := Under(children[it.flow], next);
    forall p | p in kids ensures p.flow in children {
      var i :| 0 <= i < |kids| && kids[i] == p;
      assert p.flow == children[it.flow][i];
    }
    FlowsOf(children, rest);
    FlowsOf(children, rest + [it]);
    FlowsOf(children, kids);
    FlowsOf(children, rest + Reversed(kids));
    StackReversed(rest, it, kids);
    KidsAreTodo(children, top, it.flow, children[it.flow], next, next + 1);
    CloneAllJoins(children, top, kids, Reversed(rest), next + 1);
  }

  /** What is cloned, and what the stack still holds, make up the whole clone. */
  ghost predicate AtWork(children: map<nat, seq<nat>>, top: nat, stack: seq<Pending>, clones: seq<Clone>, next: nat, all: seq<Clone>)
    requires Tree(children) && forall g <- children :: g < top
  {
    && (forall p <- stack :: p.flow in children) && (forall p <- Reversed(stack) :: p.flow in children)
    && clones + CloneAll(children, top, Reversed(stack), next + |clones|) == all
  }

  lemma Turn(children: map<nat, seq<nat>>, top: nat, rest: seq<Pending>, it: Pending, clones: seq<Clone>, next: nat, all: seq<Clone>)
    requires Tree(children) && (forall g <- children :: g < top)
    requires AtWork(children, top, rest + [it], clones, next, all)
    ensures it.flow in children && |clones| < |all|
    ensures AtWork(children, top, rest + Reversed(Under(children[it.flow], next + |clones|)),
                   clones + [Clone(it.flow, next + |clones|, it.parent)], next, all)
  {
    var id := next + |clones|;
    var kids := Under(children[it.flow], id);
    assert (rest + [it])[|rest|] == it;
    assert forall p <- rest :: p in rest + [it];
    OneTurn(children, top, rest, it, id);
    forall p | p in kids ensures p.flow in children {
      var i :| 0 <= i < |kids| && kids[i] == p;
      assert p.flow == children[it.flow][i];
    }
    FlowsOf(children, kids);
    var tail := CloneAll(children, top, Reversed(rest + Reversed(kids)), id + 1);
    assert clones + ([Clone(it.flow, id, it.parent)] + tail) == clones + [Clone(it.flow, id, it.parent)] + tail;
  }

  lemma Start(children: map<nat, seq<nat>>, top: nat, root: nat, next: nat)
    requires Tree(children) && root in children && forall g <- children :: g < top
    ensures AtWork(children, top, [Pending(root, 0)], [], next, CloneFlow(children, top, root, 0, next))
  {
    var stack := [Pending(root, 0)];
    var all := CloneFlow(children, top, root, 0, next);
    assert Reversed(stack) == stack;
    assert stack[1..] == [];
    assert CloneAll(children, top, stack, next) == all + [] == all;
  }

  /** cloneTree. */
  method CloneWholeTree(children: map<nat, seq<nat>>, root: nat, next: nat, ghost top: nat) returns (clones: seq<Clone>)
    requires Tree(children) && root in children && forall g <- children :: g < top
    ensures clones == CloneFlow(children, top, root, 0, next)
  {
    clones := [];
    var stack := [Pending(root, 0)];
    ghost var all := CloneFlow(children, top, root, 0, next);
    Start(children, top, root, next);
    while stack != []
      invariant AtWork(children, top, stack, clones, next, all)
      decreases |all| - |clones|
    {
      var it := stack[|stack| - 1];
      var rest := stack[..|stack| - 1];
      assert stack == rest + [it];
      Turn(children, top, rest, it, clones, next, all);
      var newId := next + |clones|;
      clones := clones + [Clone(it.flow, newId, it.parent)];
      // Pushed in reverse, so that the first child is popped first.
      stack := rest + Reversed(Under(children[it.flow], newId));
    }
  }

  /** Every clone hangs under the clone of its origin's parent, and ids follow the order of cloning. */
  lemma {:induction false} ClonesLinked(children: map<nat, seq<nat>>, top: nat, f: nat, parent: nat, next: nat, i: nat)
    requires Tree(children) && f in children && forall g <- children :: g < top
    requires i < |CloneFlow(children, top, f, parent, next)|
    ensures var r := CloneFlow(children, top, f, parent, next);
            && r[i].id == next + i && r[i].origin in children
            && (i == 0 ==> r[0].origin == f && r[0].parent == parent)
            && (i > 0 ==> exists j :: 0 <= j < i && r[j].origin in children && r[i].parent == r[j].id
                                    && r[i].origin in children[r[j].origin])
    decreases top - f, 1, 0
  {
    if i > 0 {
      KidsLinked(children, top, f, children[f], next, next + 1, i - 1);
      var r := CloneFlow(children, top, f, parent, next);
      var kids := CloneKids(children, top, f, children[f], next, next + 1);
      assert r[i] == kids[i - 1] && r[0].id == next && r[0].origin == f;
      if kids[i - 1].parent != next || kids[i - 1].origin !in children[f] {
        var j :| 0 <= j < i - 1 && kids[j].origin in children && kids[i - 1].parent == kids[j].id
                 && kids[i - 1].origin in children[kids[j].origin];
        assert r[j + 1] == kids[j];
      }
    }
  }

  lemma {:induction false} KidsLinked(children: map<nat, seq<nat>>, top: nat, f: nat, kids: seq<nat>, parent: nat, next: nat, i: nat)
    requires Tree(children) && f in children && (forall g <- children :: g < top)
    requires forall k <- kids :: f < k && k in children && k in children[f]
    requires i < |CloneKids(children, top, f, kids, parent, next)|
    ensures var r := CloneKids(children, top, f, kids, parent, next);
            && r[i].id == next + i && r[i].origin in children
            && ((r[i].parent == parent && r[i].origin in children[f])
                || exists j :: 0 <= j < i && r[j].origin in children && r[i].parent == r[j].id && r[i].origin in children[r[j].origin])
    decreases top - f, 0, |kids|
  {
    var first := CloneFlow(children, top, kids[0], parent, next);
    var r := CloneKids(children, top, f, kids, parent, next);
    if i < |first| {
      ClonesLinked(children, top, kids[0], parent, next, i);
      assert r[i] == first[i];
      if i > 0 {
        var j :| 0 <= j < i && first[j].origin in children && first[i].parent == first[j].id
                 && first[i].origin in children[first[j].origin];
        ClonesLinked(children, top, kids[0], parent, next, j);
        assert r[j] == first[j];
      }
    } else {
      assert forall k <- kids[1..] :: k in kids;
      var rest := CloneKids(children, top, f, kids[1..], parent, next + |first|);
      KidsLinked(children, top, f, kids[1..], parent, next + |first|, i - |first|);
      assert r[i] == rest[i - |first|];
      if !(rest[i - |first|].parent == parent && rest[i - |first|].origin in children[f]) {
        var j :| 0 <= j < i - |first| && rest[j].origin in children && rest[i - |first|].parent == rest[j].id
                 && rest[i - |first|].origin in children[rest[j].origin];
        assert r[j + |first|] == rest[j];
      }
    }
  }
}
