/** `assertJsonValue`: a walk over an object graph that may share nodes and may have cycles
    (src/validation.ts:30-69). */
module Validation {
  import opened Wrappers

  type Node = nat

  /** `Foreign` is a function, symbol or bigint. */
  datatype Value = Undefined | Null | Text | Boolean | Number(finite: bool) | Foreign | Ref(node: Node)

  /** An array or object: its prototype, whether it has symbol properties, and its items or
      property values in order. */
  datatype Object = Object(isArray: bool, plainPrototype: bool, symbols: bool, items: seq<Value>)

  type Graph = map<Node, Object>

  datatype Error = NotJson | Cycle | NotPlain | Symbols

  predicate Closed(g: Graph) {
    forall n :: n in g ==> forall i :: 0 <= i < |g[n].items| ==> Inside(g, g[n].items[i])
  }

  predicate Inside(g: Graph, v: Value) { v.Ref? ==> v.node in g }

  predicate Leaf(v: Value) { v.Null? || v.Text? || v.Boolean? || (v.Number? && v.finite) }

  // The walk ---------------------------------------------------------------------------------

  function Visit(g: Graph, v: Value, ancestors: set<Node>): Option<Error>
    requires Closed(g) && Inside(g, v)
    decreases g.Keys - ancestors, 0
  {
    if Leaf(v) then None
    else if !v.Ref? then Some(NotJson)
    else if v.node in ancestors then Some(Cycle)
    else
      var found := g[v.node];
      if !found.isArray && !found.plainPrototype then Some(NotPlain)
      else if found.symbols then Some(Symbols)
      else
        assert v.node in g.Keys - ancestors;
        VisitItems(g, found.items, ancestors + {v.node})
  }

  /** The first error in order. */
  function VisitItems(g: Graph, items: seq<Value>, ancestors: set<Node>): Option<Error>
    requires Closed(g) && forall i :: 0 <= i < |items| ==> Inside(g, items[i])
    decreases g.Keys - ancestors, 1 + |items|
  {
    if items == [] then None else
    var first := Visit(g, items[0], ancestors);
    if first.Some? then first else VisitItems(g, items[1..], ancestors)
  }

  function Assert(g: Graph, v: Value, allowUndefined: bool): Option<Error>
    requires Closed(g) && Inside(g, v)
  {
    if v.Undefined? && allowUndefined then None else Visit(g, v, {})
  }

  // What it accepts --------------------------------------------------------------------------

  /** Each node holds a reference to the next. */
  ghost predicate Path(g: Graph, p: seq<Node>) {
    && p != [] && (forall i :: 0 <= i < |p| ==> p[i] in g)
    && forall i :: 0 < i < |p| ==> Edge(g, p[i - 1], p[i])
  }

  ghost predicate Edge(g: Graph, from: Node, to: Node) { from in g && Ref(to) in g[from].items }

  ghost predicate Acyclic(p: seq<Node>) { forall i, j :: 0 <= i < j < |p| ==> p[i] != p[j] }

  /** A plain array or object without symbol keys whose own leaves are JSON primitives. */
  ghost predicate Sound(found: Object) {
    && (found.isArray || found.plainPrototype) && !found.symbols
    && forall i :: 0 <= i < |found.items| && !found.items[i].Ref? ==> Leaf(found.items[i])
  }

  ghost predicate Acceptable(g: Graph, v: Value, allowUndefined: bool) {
    match v
    case Ref(n) => forall p :: Path(g, p) && p[0] == n ==> Acyclic(p) && Sound(g[p[|p| - 1]])
    case Undefined => allowUndefined
    case _ => Leaf(v)
  }

  /** The same for a node below its ancestors. */
  ghost predicate AcceptableBelow(g: Graph, n: Node, ancestors: set<Node>) {
    forall p :: Path(g, p) && p[0] == n ==> Fresh(p, ancestors) && Acyclic(p) && Sound(g[p[|p| - 1]])
  }

  ghost predicate Fresh(p: seq<Node>, ancestors: set<Node>) { forall i :: 0 <= i < |p| ==> p[i] !in ancestors }

  lemma {:induction false} ItemsPass(g: Graph, items: seq<Value>, ancestors: set<Node>)
    requires Closed(g) && forall i :: 0 <= i < |items| ==> Inside(g, items[i])
    ensures VisitItems(g, items, ancestors).None? <==> forall i :: 0 <= i < |items| ==> Visit(g, items[i], ancestors).None?
  {
    if items != [] {
      ItemsPass(g, items[1..], ancestors);
      assert forall i :: 0 < i < |items| ==> items[i] == items[1..][i - 1];
    }
  }

  lemma PathExtends(g: Graph, n: Node, p: seq<Node>)
    requires Path(g, p) && Edge(g, n, p[0])
    ensures Path(g, [n] + p)
  {
    var q := [n] + p;
    forall i | 0 < i < |q| ensures Edge(g, q[i - 1], q[i]) {
      if 1 < i { assert Edge(g, p[i - 2], p[i - 1]); }
    }
  }

  lemma PathRest(g: Graph, p: seq<Node>)
    requires Path(g, p) && 1 < |p|
    ensures Path(g, p[1..]) && Edge(g, p[0], p[1])
  {
    forall i | 0 < i < |p[1..]| ensures Edge(g, p[1..][i - 1], p[1..][i]) { assert Edge(g, p[i], p[i + 1]); }
  }

  lemma {:induction false} PassingIsAcceptable(g: Graph, n: Node, ancestors: set<Node>)
    requires Closed(g) && n in g && Visit(g, Ref(n), ancestors).None?
    ensures AcceptableBelow(g, n, ancestors)
    decreases g.Keys - ancestors
  {
    ItemsPass(g, g[n].items, ancestors + {n});
    forall p | Path(g, p) && p[0] == n ensures Fresh(p, ancestors) && Acyclic(p) && Sound(g[p[|p| - 1]]) {
      if 1 < |p| {
        PathRest(g, p);
        var rest := p[1..];
        assert Visit(g, Ref(p[1]), ancestors + {n}).None?;
        assert n in g.Keys - ancestors;
        PassingIsAcceptable(g, p[1], ancestors + {n});
        assert Fresh(rest, ancestors + {n}) && Acyclic(rest) && Sound(g[rest[|rest| - 1]]);
        assert forall i :: 0 < i < |p| ==> p[i] == rest[i - 1];
      }
    }
  }

  lemma {:induction false} AcceptablePasses(g: Graph, n: Node, ancestors: set<Node>)
    requires Closed(g) && n in g && AcceptableBelow(g, n, ancestors)
    ensures Visit(g, Ref(n), ancestors).None?
    decreases g.Keys - ancestors
  {
    assert Path(g, [n]);
    assert Fresh([n], ancestors) && Sound(g[n]) by { assert [n][0] == n; }
    assert n !in ancestors by { assert [n][0] !in ancestors; }
    forall i | 0 <= i < |g[n].items| ensures Visit(g, g[n].items[i], ancestors + {n}).None? {
      if g[n].items[i].Ref? {
        var m := g[n].items[i].node;
        assert Edge(g, n, m);
        ChildIsAcceptable(g, n, m, ancestors);
        assert n in g.Keys - ancestors;
        AcceptablePasses(g, m, ancestors + {n});
      }
    }
    ItemsPass(g, g[n].items, ancestors + {n});
  }

  lemma ChildIsAcceptable(g: Graph, n: Node, m: Node, ancestors: set<Node>)
    requires AcceptableBelow(g, n, ancestors) && Edge(g, n, m)
    ensures AcceptableBelow(g, m, ancestors + {n})
  {
    forall p | Path(g, p) && p[0] == m ensures Fresh(p, ancestors + {n}) && Acyclic(p) && Sound(g[p[|p| - 1]]) {
      var longer := [n] + p;
      PathExtends(g, n, p);
      assert Fresh(longer, ancestors) && Acyclic(longer) && Sound(g[longer[|longer| - 1]]);
      assert forall i :: 0 <= i < |p| ==> p[i] == longer[i + 1];
    }
  }

  /** On every finite graph, cyclic ones included, the walk ends, and it accepts exactly when
      no path from the root repeats a node, every node on one is a plain array or object without
      symbol keys, and every leaf is a JSON primitive. Nodes may be shared. */
  lemma AcceptsExactlyJson(g: Graph, v: Value, allowUndefined: bool)
    requires Closed(g) && Inside(g, v)
    ensures Assert(g, v, allowUndefined).None? <==> Acceptable(g, v, allowUndefined)
  {
    if v.Ref? {
      if Visit(g, v, {}).None? {
        PassingIsAcceptable(g, v.node, {});
      } else if Acceptable(g, v, allowUndefined) {
        assert AcceptableBelow(g, v.node, {});
        AcceptablePasses(g, v.node, {});
      }
    }
  }

  /** What the error says is true of the end of the path: a value that JSON cannot hold, a node met
      again, a class instance, or symbol keys. */
  ghost predicate Faulty(g: Graph, p: seq<Node>, ancestors: set<Node>, error: Error) {
    && Path(g, p)
    && var last := p[|p| - 1];
    match error
    case NotJson => exists i :: 0 <= i < |g[last].items| && !g[last].items[i].Ref? && !Leaf(g[last].items[i])
    case Cycle => last in ancestors || last in p[..|p| - 1]
    case NotPlain => !g[last].isArray && !g[last].plainPrototype
    case Symbols => (g[last].isArray || g[last].plainPrototype) && g[last].symbols
  }

  lemma {:induction false} FirstFailingItem(g: Graph, items: seq<Value>, ancestors: set<Node>) returns (i: nat)
    requires Closed(g) && forall k :: 0 <= k < |items| ==> Inside(g, items[k])
    requires VisitItems(g, items, ancestors).Some?
    ensures i < |items| && Visit(g, items[i], ancestors) == VisitItems(g, items, ancestors)
    ensures forall k :: 0 <= k < i ==> Visit(g, items[k], ancestors).None?
  {
    if Visit(g, items[0], ancestors).Some? {
      i := 0;
    } else {
      i := FirstFailingItem(g, items[1..], ancestors);
      i := i + 1;
      forall k | 0 <= k < i ensures Visit(g, items[k], ancestors).None? {
        if 0 < k { assert items[k] == items[1..][k - 1]; }
      }
    }
  }

  lemma FaultExtends(g: Graph, n: Node, p: seq<Node>, ancestors: set<Node>, error: Error)
    requires Faulty(g, p, ancestors + {n}, error) && Edge(g, n, p[0])
    ensures Faulty(g, [n] + p, ancestors, error)
  {
    PathExtends(g, n, p);
    var q := [n] + p;
    assert q[|q| - 1] == p[|p| - 1];
    if error.Cycle? {
      assert q[..|q| - 1][0] == n;
      assert p[..|p| - 1] == q[..|q| - 1][1..];
    }
  }

  /** A refusal names a real fault, at the end of some path from the node. */
  lemma {:induction false} ErrorsNameAFault(g: Graph, n: Node, ancestors: set<Node>) returns (p: seq<Node>)
    requires Closed(g) && n in g && Visit(g, Ref(n), ancestors).Some?
    ensures p != [] && p[0] == n && Faulty(g, p, ancestors, Visit(g, Ref(n), ancestors).value)
    decreases g.Keys - ancestors
  {
    var found, inside := g[n], ancestors + {n};
    p := [n];
    if n !in ancestors && (found.isArray || found.plainPrototype) && !found.symbols {
      var i := FirstFailingItem(g, found.items, inside);
      if found.items[i].Ref? {
        var m := found.items[i].node;
        assert Edge(g, n, m);
        if m in inside {
          p := [n, m];
        } else {
          assert n in g.Keys - ancestors;
          var rest := ErrorsNameAFault(g, m, inside);
          FaultExtends(g, n, rest, ancestors, Visit(g, Ref(m), inside).value);
          p := [n] + rest;
        }
      }
    }
  }

  /** One array referenced twice passes; an array that holds itself does not. */
  lemma SharingIsNotACycle(leaf: Object)
    requires leaf == Object(true, true, false, [Text])
    ensures Assert(map[0 := Object(false, true, false, [Ref(1), Ref(1)]), 1 := leaf], Ref(0), false).None?
    ensures Assert(map[0 := Object(true, true, false, [Ref(0)])], Ref(0), false) == Some(Cycle)
  {
    var shared := map[0 := Object(false, true, false, [Ref(1), Ref(1)]), 1 := leaf];
    var inside := {} + {0};
    assert VisitItems(shared, leaf.items, inside + {1}).None?;
    assert Visit(shared, Ref(1), inside).None?;
    ItemsPass(shared, shared[0].items, inside);
    assert Visit(shared, Ref(0), {}).None?;
    var loop := map[0 := Object(true, true, false, [Ref(0)])];
    assert VisitItems(loop, loop[0].items, inside) == Some(Cycle);
  }

  // The loop -----------------------------------------------------------------------------------

  class Walk {
    const graph: Graph
    var ancestors: set<Node>

    constructor (graph: Graph)
      ensures this.graph == graph && ancestors == {}
    {
      this.graph, ancestors := graph, {};
    }

    /** Leaves the ancestors as they were, unless it throws. */
    method VisitValue(input: Value, root: bool, allowUndefined: bool) returns (error: Option<Error>)
      requires Closed(graph) && Inside(graph, input)
      modifies this
      ensures error == if root && allowUndefined && input.Undefined? then None else Visit(graph, input, old(ancestors))
      ensures error.None? ==> ancestors == old(ancestors)
      decreases graph.Keys - ancestors
    {
      if input.Undefined? && root && allowUndefined { return None; }
      if Leaf(input) { return None; }
      if !input.Ref? { return Some(NotJson); }
      if input.node in ancestors { return Some(Cycle); }
      var found := graph[input.node];
      if !found.isArray && !found.plainPrototype { return Some(NotPlain); }
      if found.symbols { return Some(Symbols); }
      ghost var before := ancestors;
      assert input.node in graph.Keys - before;
      ancestors := ancestors + {input.node};
      for i := 0 to |found.items|
        invariant ancestors == before + {input.node}
        invariant VisitItems(graph, found.items, ancestors) == VisitItems(graph, found.items[i..], ancestors)
      {
        assert found.items[i..][0] == found.items[i] && found.items[i..][1..] == found.items[i + 1..];
        error := VisitValue(found.items[i], false, allowUndefined);
        if error.Some? { return; }
      }
      ancestors := ancestors - {input.node};
      assert ancestors == before;
      error := None;
    }
  }
}
