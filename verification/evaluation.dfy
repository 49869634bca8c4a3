/** Choosing a step's successors from the graph, and the order in which a fan-out's branches come out. */
module Evaluation {
  datatype Result<+T> = Ok(value: T) | Error

  datatype Transition = Transition(from: string, to: string, when: string, switch: bool, withGoto: bool,
                                   onError: bool, forEach: string, asKey: string)

  /** What reading a forEach's source field gives. */
  datatype Source<+V> = Absent | Null | Items(items: seq<V>) | NotArray | Unreadable

  datatype Candidate<+V> = Plain(task: string) | Element(task: string, item: V, itemKey: string, index: nat, count: nat)

  /** The step's own outcome: its goto request, how conditions evaluate over its state (None fails), its fields. */
  datatype Outcome<!V> = Outcome(goto: string, eval: string -> Result<bool>, field: string -> Source<V>)

  // ----- What is chosen

  function FirstGoto(ts: seq<Transition>, task: string, target: string): Result<string> {
    if ts == [] then Error
    else if ts[0].from == task && ts[0].withGoto && ts[0].to == target then Ok(ts[0].to)
    else FirstGoto(ts[1..], task, target)
  }

  predicate Switches(ts: seq<Transition>, task: string) {
    exists t <- ts :: t.from == task && t.switch
  }

  /** The first switch edge whose condition holds; no edge at all when none does. */
  function FirstMatch<V>(ts: seq<Transition>, task: string, o: Outcome<V>): Result<seq<Candidate<V>>> {
    if ts == [] then Ok([])
    else if ts[0].from != task || !ts[0].switch then FirstMatch(ts[1..], task, o)
    else
      match o.eval(ts[0].when)
      case Error => Error
      case Ok(true) => Ok([Plain(ts[0].to)])
      case Ok(false) => FirstMatch(ts[1..], task, o)
  }

  function ItemKey(t: Transition): string { if t.asKey == "" then "item" else t.asKey }

  function Elements<V>(t: Transition, items: seq<V>): (r: seq<Candidate<V>>)
    ensures |r| == |items|
    ensures forall i :: 0 <= i < |items| ==> r[i] == Element(t.to, items[i], ItemKey(t), i, |items|)
  {
    seq(|items|, i requires 0 <= i < |items| => Element(t.to, items[i], ItemKey(t), i, |items|))
  }

  /** What one edge contributes. */
  function Expand<V>(t: Transition, task: string, o: Outcome<V>): Result<seq<Candidate<V>>> {
    if t.from != task || t.withGoto || t.onError then Ok([])
    else
      var taken := if t.when == "" then Ok(true) else o.eval(t.when);
      match taken
      case Error => Error
      case Ok(false) => Ok([])
      case Ok(true) =>
        if t.forEach == "" then Ok([Plain(t.to)])
        else
          match o.field(t.forEach)
          case Absent => Ok([])
          case Null => Ok([])
          case Items(items) => Ok(Elements(t, items))
          case _ => Error
  }

  /** The edges' contributions, in the order of the graph; the first failure fails the whole. */
  function ExpandAll<V>(ts: seq<Transition>, task: string, o: Outcome<V>): Result<seq<Candidate<V>>> {
    if ts == [] then Ok([])
    else
      var first := Expand(ts[0], task, o);
      if first.Error? then Error
      else
        var rest := ExpandAll(ts[1..], task, o);
        if rest.Error? then Error else Ok(first.value + rest.value)
  }

  function Chosen<V>(ts: seq<Transition>, task: string, o: Outcome<V>): Result<seq<Candidate<V>>> {
    if o.goto != "" then
      match FirstGoto(ts, task, o.goto)
      case Error => Error
      case Ok(to) => Ok([Plain(to)])
    else if Switches(ts, task) then FirstMatch(ts, task, o)
    else ExpandAll(ts, task, o)
  }

  // ----- evaluateTransitions

  lemma {:induction false} ExpandMore<V>(a: seq<Transition>, t: Transition, task: string, o: Outcome<V>)
    ensures ExpandAll(a + [t], task, o)
            == var r := ExpandAll(a, task, o);
               var e := Expand(t, task, o);
               if r.Error? || e.Error? then Error else Ok(r.value + e.value)
    decreases |a|
  {
    if a == [] {
      assert [t][1..] == [];
      assert ([] + [t]) == [t];
      if Expand(t, task, o).Ok? {
        assert Expand(t, task, o).value + [] == Expand(t, task, o).value;
        assert [] + Expand(t, task, o).value == Expand(t, task, o).value;
      }
    } else {
      assert (a + [t])[1..] == a[1..] + [t];
      ExpandMore(a[1..], t, task, o);
      var r, e := ExpandAll(a[1..], task, o), Expand(t, task, o);
      if r.Ok? && e.Ok? && Expand(a[0], task, o).Ok? {
        assert Expand(a[0], task, o).value + (r.value + e.value) == Expand(a[0], task, o).value + r.value + e.value;
      }
    }
  }

  lemma {:induction false} ErrorStays<V>(ts: seq<Transition>, i: nat, task: string, o: Outcome<V>)
    requires i <= |ts| && ExpandAll(ts[..i], task, o).Error?
    ensures ExpandAll(ts, task, o).Error?
    decreases |ts|
  {
    if i > 0 {
      assert ts[..i][1..] == ts[1..][..i - 1];
      if Expand(ts[0], task, o).Ok? { ErrorStays(ts[1..], i - 1, task, o); }
    }
  }

  method TakeGoto(graph: seq<Transition>, task: string, target: string) returns (r: Result<string>)
    ensures r == FirstGoto(graph, task, target)
  {
    for i := 0 to |graph|
      invariant FirstGoto(graph, task, target) == FirstGoto(graph[i..], task, target)
    {
      var tr := graph[i];
      if tr.from != task || !tr.withGoto { continue; }
      if tr.to == target { return Ok(tr.to); }
    }
    return Error;
  }

  method TakeSwitch<V>(graph: seq<Transition>, task: string, o: Outcome<V>) returns (r: Result<seq<Candidate<V>>>)
    ensures r == FirstMatch(graph, task, o)
  {
    for j := 0 to |graph|
      invariant FirstMatch(graph, task, o) == FirstMatch(graph[j..], task, o)
    {
      var sw := graph[j];
      if sw.from != task || !sw.switch { continue; }
      var matched := o.eval(sw.when);
      match matched
      case Error => return Error;
      case Ok(m) => if m { return Ok([Plain(sw.to)]); }
    }
    return Ok([]);
  }

  /** The candidates one edge adds: one for a plain edge, one for each element of a forEach's array. */
  method ExpandEdge<V>(tr: Transition, task: string, o: Outcome<V>) returns (r: Result<seq<Candidate<V>>>)
    ensures r == Expand(tr, task, o)
  {
    if tr.from != task || tr.withGoto || tr.onError { return Ok([]); }
    if tr.when != "" {
      var matched := o.eval(tr.when);
      if matched.Error? { return Error; }
      if !matched.value { return Ok([]); }
    }
    if tr.forEach == "" { return Ok([Plain(tr.to)]); }
    match o.field(tr.forEach)
    case Absent => return Ok([]);
    case Null => return Ok([]);
    case Items(items) =>
      var candidates: seq<Candidate<V>> := [];
      for idx := 0 to |items|
        invariant candidates == Elements(tr, items)[..idx]
      {
        candidates := candidates + [Element(tr.to, items[idx], ItemKey(tr), idx, |items|)];
      }
      assert Elements(tr, items)[..|items|] == Elements(tr, items);
      return Ok(candidates);
    case NotArray => return Error;
    case Unreadable => return Error;
  }

  method EvaluateTransitions<V>(graph: seq<Transition>, task: string, o: Outcome<V>) returns (r: Result<seq<Candidate<V>>>)
    ensures r == Chosen(graph, task, o)
  {
    if o.goto != "" {
      var to := TakeGoto(graph, task, o.goto);
      if to.Error? { return Error; }
      return Ok([Plain(to.value)]);
    }
    for i := 0 to |graph|
      invariant !Switches(graph[..i], task)
    {
      assert graph[..i + 1] == graph[..i] + [graph[i]];
      if graph[i].from != task || !graph[i].switch { continue; }
      assert graph[i] in graph;
      r := TakeSwitch(graph, task, o);
      return;
    }
    assert graph[..|graph|] == graph;
    var candidates: seq<Candidate<V>> := [];
    for i := 0 to |graph|
      invariant ExpandAll(graph[..i], task, o) == Ok(candidates)
    {
      assert graph[..i + 1] == graph[..i] + [graph[i]];
      ExpandMore(graph[..i], graph[i], task, o);
      var more := ExpandEdge(graph[i], task, o);
      if more.Error? {
        ErrorStays(graph, i + 1, task, o);
        return Error;
      }
      candidates := candidates + more.value;
    }
    return Ok(candidates);
  }

  // ----- What the order means

  /** A goto or a switch leads to at most one successor; only a plain or forEach fan-out can branch. */
  lemma {:induction false} OneWayOut<V>(ts: seq<Transition>, task: string, o: Outcome<V>)
    requires o.goto != "" || Switches(ts, task)
    ensures Chosen(ts, task, o).Ok? ==> |Chosen(ts, task, o).value| <= 1
  {
    if o.goto == "" { MatchesOnce(ts, task, o); }
  }

  lemma {:induction false} MatchesOnce<V>(ts: seq<Transition>, task: string, o: Outcome<V>)
    ensures FirstMatch(ts, task, o).Ok? ==> |FirstMatch(ts, task, o).value| <= 1
    decreases |ts|
  {
    if ts != [] { MatchesOnce(ts[1..], task, o); }
  }

  /** From `start` on, the candidates are those of t's elements, one for each and in their order. */
  ghost predicate ElementsAt<V>(candidates: seq<Candidate<V>>, start: nat, t: Transition, items: seq<V>) {
    start + |items| <= |candidates|
    && forall i :: 0 <= i < |items| ==> candidates[start + i] == Element(t.to, items[i], ItemKey(t), i, |items|)
  }

  /**
   The branches of a forEach come out as one run, in the order of the source array: the candidate at place
   start + i is the array's i-th element, so a branch's position in the spawn loop tells its element.
   */
  lemma {:induction false} ElementsInOrder<V>(ts: seq<Transition>, task: string, o: Outcome<V>, j: nat, items: seq<V>) returns (start: nat)
    requires j < |ts| && ExpandAll(ts, task, o).Ok?
    requires ts[j].from == task && !ts[j].withGoto && !ts[j].onError && ts[j].forEach != ""
    requires ts[j].when == "" || o.eval(ts[j].when) == Ok(true)
    requires o.field(ts[j].forEach) == Items(items)
    ensures ElementsAt(ExpandAll(ts, task, o).value, start, ts[j], items)
    decreases |ts|
  {
    var first, others := Expand(ts[0], task, o), ExpandAll(ts[1..], task, o);
    assert ExpandAll(ts, task, o) == Ok(first.value + others.value);
    if j == 0 {
      start := 0;
      ElementsHead(ts[0], task, o, items, others.value);
    } else {
      var rest := ElementsInOrder(ts[1..], task, o, j - 1, items);
      start := |first.value| + rest;
      ElementsShift(first.value, others.value, rest, ts[j], items);
    }
  }

  lemma ElementsHead<V>(t: Transition, task: string, o: Outcome<V>, items: seq<V>, rest: seq<Candidate<V>>)
    requires t.from == task && !t.withGoto && !t.onError && t.forEach != ""
    requires t.when == "" || o.eval(t.when) == Ok(true)
    requires o.field(t.forEach) == Items(items)
    ensures Expand(t, task, o).Ok? && ElementsAt(Expand(t, task, o).value + rest, 0, t, items)
  {
    var first := Elements(t, items);
    forall i | 0 <= i < |items| ensures (first + rest)[0 + i] == Element(t.to, items[i], ItemKey(t), i, |items|) {
      assert (first + rest)[i] == first[i];
    }
  }

  lemma ElementsShift<V>(a: seq<Candidate<V>>, b: seq<Candidate<V>>, start: nat, t: Transition, items: seq<V>)
    requires ElementsAt(b, start, t, items)
    ensures ElementsAt(a + b, |a| + start, t, items)
  {
    forall i | 0 <= i < |items| ensures (a + b)[|a| + start + i] == Element(t.to, items[i], ItemKey(t), i, |items|) {
      assert (a + b)[|a| + (start + i)] == b[start + i];
    }
  }
}
