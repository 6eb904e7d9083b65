/** Routing between color models: a breadth-first search over the direct conversions, and the
    composition of the conversions along the route found. */
module Routes {
  import opened Wrappers

  type Model = string

  /** The direct conversions: for each model the models it converts to, in order. */
  type Conversions = map<Model, seq<Model>>

  /** A model's entry in the search graph; distance -1 means not reached. */
  datatype Info = Info(distance: int, parent: Option<Model>)

  type Graph = map<Model, Info>

  predicate Closed(conversions: Conversions) {
    forall m | m in conversions :: forall i | 0 <= i < |conversions[m]| :: conversions[m][i] in conversions
  }

  predicate Edge(conversions: Conversions, a: Model, b: Model) {
    a in conversions && b in conversions[a]
  }

  /** A chain of direct conversions. */
  ghost predicate Path(conversions: Conversions, path: seq<Model>, from: Model, to: Model) {
    && path != [] && path[0] == from && path[|path| - 1] == to
    && forall i | 0 <= i < |path| - 1 :: Edge(conversions, path[i], path[i + 1])
  }

  /** The distances are those of shortest paths, and each parent is one step closer. */
  ghost predicate Shortest(conversions: Conversions, from: Model, graph: Graph) {
    && graph.Keys == conversions.Keys
    && (forall m, path | m in graph && Path(conversions, path, from, m) :: 0 <= graph[m].distance <= |path| - 1)
    && (forall m | m in graph && graph[m].distance >= 0 ::
          exists path :: Path(conversions, path, from, m) && |path| == graph[m].distance + 1)
    && Parents(conversions, from, graph)
  }

  ghost predicate Parents(conversions: Conversions, from: Model, graph: Graph) {
    && graph.Keys == conversions.Keys && from in graph && graph[from] == Info(0, None)
    && forall m | m in graph && m != from ::
         if graph[m].distance == -1 then graph[m].parent.None?
         else
           && graph[m].parent.Some? && graph[m].parent.value in graph
           && Edge(conversions, graph[m].parent.value, m)
           && graph[m].distance == graph[graph[m].parent.value].distance + 1
           && graph[graph[m].parent.value].distance >= 0
  }

  // ----- The search

  /** No edge out of a finished model leads further than one step. */
  ghost predicate Relaxed(conversions: Conversions, graph: Graph, m: Model, upTo: nat) {
    m in conversions && m in graph &&
    forall i | 0 <= i < upTo && i < |conversions[m]| ::
      conversions[m][i] in graph && 0 <= graph[conversions[m][i]].distance <= graph[m].distance + 1
  }

  /** The queue, last to leave first, holds reached models of falling distance, and nothing is
      further than one step beyond `d`, the distance now being served. */
  ghost predicate QueueOk(graph: Graph, queue: seq<Model>, d: int) {
    && (forall i | 0 <= i < |queue| :: queue[i] in graph && d <= graph[queue[i]].distance)
    && (forall i, j | 0 <= i < j < |queue| :: graph[queue[i]].distance >= graph[queue[j]].distance)
    && (forall m | m in graph :: graph[m].distance <= d + 1)
  }

  ghost function Unreached(graph: Graph): set<Model> {
    set m | m in graph && graph[m].distance == -1
  }

  /** Every reached model is relaxed, except those still to be served. */
  ghost predicate Served(conversions: Conversions, graph: Graph, pending: seq<Model>) {
    graph.Keys == conversions.Keys &&
    forall m | m in graph && graph[m].distance >= 0 && m !in pending :: Relaxed(conversions, graph, m, |conversions[m]|)
  }

  ghost predicate Searching(conversions: Conversions, from: Model, graph: Graph, queue: seq<Model>, d: int) {
    Parents(conversions, from, graph) && QueueOk(graph, queue, d) && d >= 0 && Served(conversions, graph, queue)
  }

  lemma SearchStarts(conversions: Conversions, from: Model, graph: Graph)
    requires from in conversions && graph.Keys == conversions.Keys
    requires forall m | m in graph :: graph[m] == if m == from then Info(0, None) else Info(-1, None)
    ensures Searching(conversions, from, graph, [from], 0)
  {
  }

  /** Taking the next model out of the queue. */
  lemma SearchGoesOn(conversions: Conversions, from: Model, graph: Graph, queue: seq<Model>, d: int)
    requires Searching(conversions, from, graph, queue, d) && queue != []
    ensures var rest, current := queue[..|queue| - 1], queue[|queue| - 1];
      && current in graph && graph[current].distance >= 0
      && QueueOk(graph, rest, graph[current].distance) && Served(conversions, graph, rest + [current])
  {
    assert queue[..|queue| - 1] + [queue[|queue| - 1]] == queue;
  }

  method DeriveBFS(conversions: Conversions, from: Model) returns (graph: Graph)
    requires Closed(conversions) && from in conversions
    ensures Shortest(conversions, from, graph)
  {
    graph := map m | m in conversions :: Info(-1, None);
    var queue := [from];
    graph := graph[from := Info(0, None)];
    ghost var d := 0;
    SearchStarts(conversions, from, graph);
    while queue != []
      invariant Searching(conversions, from, graph, queue, d)
      decreases |Unreached(graph)|, |queue|
    {
      var current := queue[|queue| - 1];
      SearchGoesOn(conversions, from, graph, queue, d);
      d := graph[current].distance;
      graph, queue := Expand(conversions, from, graph, queue[..|queue| - 1], current);
    }
    FinishedIsShortest(conversions, from, graph);
  }

  /** Reaches the models next to `current`, and puts the new ones at the end of the line. */
  method Expand(conversions: Conversions, ghost from: Model, graph0: Graph, queue0: seq<Model>, current: Model)
    returns (graph: Graph, queue: seq<Model>)
    requires Closed(conversions) && current in graph0 && graph0[current].distance >= 0
    requires Parents(conversions, from, graph0)
    requires QueueOk(graph0, queue0, graph0[current].distance)
    requires Served(conversions, graph0, queue0 + [current])
    ensures Parents(conversions, from, graph)
    ensures QueueOk(graph, queue, graph0[current].distance)
    ensures Served(conversions, graph, queue)
    ensures (graph == graph0 && queue == queue0) || |Unreached(graph)| < |Unreached(graph0)|
  {
    graph, queue := graph0, queue0;
    ghost var d := graph[current].distance;
    var adjacents := conversions[current];
    for i := 0 to |adjacents|
      invariant Parents(conversions, from, graph) && graph[current].distance == d
      invariant QueueOk(graph, queue, d)
      invariant Relaxed(conversions, graph, current, i)
      invariant Served(conversions, graph, queue + [current])
      invariant (graph == graph0 && queue == queue0) || |Unreached(graph)| < |Unreached(graph0)|
    {
      var adjacent := adjacents[i];
      if graph[adjacent].distance == -1 {
        ReachKeepsParents(conversions, from, graph, current, adjacent);
        ReachKeepsQueue(graph, queue, current, adjacent);
        ReachKeepsServed(conversions, graph, queue, current, i, adjacent);
        graph := graph[adjacent := Info(graph[current].distance + 1, Some(current))];
        queue := [adjacent] + queue;
      }
    }
  }

  function Reached(graph: Graph, current: Model, adjacent: Model): Graph
    requires current in graph
  {
    graph[adjacent := Info(graph[current].distance + 1, Some(current))]
  }

  lemma ReachKeepsParents(conversions: Conversions, from: Model, graph: Graph, current: Model, adjacent: Model)
    requires Parents(conversions, from, graph) && current in graph && graph[current].distance >= 0
    requires adjacent in graph && graph[adjacent].distance == -1 && Edge(conversions, current, adjacent)
    ensures Parents(conversions, from, Reached(graph, current, adjacent))
    ensures |Unreached(Reached(graph, current, adjacent))| < |Unreached(graph)|
  {
    assert Unreached(Reached(graph, current, adjacent)) == Unreached(graph) - {adjacent};
  }

  lemma ReachKeepsQueue(graph: Graph, queue: seq<Model>, current: Model, adjacent: Model)
    requires current in graph && graph[current].distance >= 0 && QueueOk(graph, queue, graph[current].distance)
    requires adjacent in graph && graph[adjacent].distance == -1
    ensures QueueOk(Reached(graph, current, adjacent), [adjacent] + queue, graph[current].distance)
  {
    assert forall i | 0 <= i < |queue| :: queue[i] != adjacent;
  }

  lemma ReachKeepsServed(conversions: Conversions, graph: Graph, queue: seq<Model>, current: Model, i: nat,
                         adjacent: Model)
    requires Closed(conversions) && current in graph && graph[current].distance >= 0
    requires Served(conversions, graph, queue + [current]) && Relaxed(conversions, graph, current, i)
    requires adjacent in graph && graph[adjacent].distance == -1
    requires i < |conversions[current]| && conversions[current][i] == adjacent
    ensures Served(conversions, Reached(graph, current, adjacent), [adjacent] + queue + [current])
    ensures Relaxed(conversions, Reached(graph, current, adjacent), current, i + 1)
  {
    var graph', queue' := Reached(graph, current, adjacent), [adjacent] + queue + [current];
    forall m | m in graph' && graph'[m].distance >= 0 && m !in queue'
      ensures Relaxed(conversions, graph', m, |conversions[m]|)
    {
      assert m != adjacent by { assert queue'[0] == adjacent; }
      assert Relaxed(conversions, graph, m, |conversions[m]|);
    }
  }

  ghost predicate Finished(conversions: Conversions, graph: Graph) {
    && graph.Keys == conversions.Keys
    && (forall m | m in graph && graph[m].distance >= 0 :: Relaxed(conversions, graph, m, |conversions[m]|))
    && (forall m | m in graph :: graph[m].distance >= -1)
  }

  lemma FinishedIsShortest(conversions: Conversions, from: Model, graph: Graph)
    requires Parents(conversions, from, graph) && Finished(conversions, graph)
    ensures Shortest(conversions, from, graph)
  {
    forall m, path | m in graph && Path(conversions, path, from, m)
      ensures 0 <= graph[m].distance <= |path| - 1
    {
      RelaxedBound(conversions, from, graph, path);
    }
    forall m | m in graph && graph[m].distance >= 0
      ensures exists path :: Path(conversions, path, from, m) && |path| == graph[m].distance + 1
    {
      ParentsMakePath(conversions, from, graph, m);
    }
  }

  /** When every reached model is relaxed, no path is shorter than the recorded distance. */
  lemma {:induction false} RelaxedBound(conversions: Conversions, from: Model, graph: Graph, path: seq<Model>)
    requires Parents(conversions, from, graph)
    requires Finished(conversions, graph)
    requires path != [] && Path(conversions, path, from, path[|path| - 1])
    ensures path[|path| - 1] in graph && 0 <= graph[path[|path| - 1]].distance <= |path| - 1
  {
    if |path| > 1 {
      var n := |path| - 1;
      var rest := path[..n];
      RelaxedBound(conversions, from, graph, rest);
      var a, b := path[n - 1], path[n];
      assert Edge(conversions, a, b);
      var i :| 0 <= i < |conversions[a]| && conversions[a][i] == b;
    }
  }

  /** Following the parents back gives a path as long as the recorded distance. */
  lemma {:induction false} ParentsMakePath(conversions: Conversions, from: Model, graph: Graph, m: Model)
    requires Parents(conversions, from, graph) && m in graph && graph[m].distance >= 0
    requires Finished(conversions, graph)
    ensures exists path :: Path(conversions, path, from, m) && |path| == graph[m].distance + 1
    decreases graph[m].distance
  {
    if m == from {
      assert Path(conversions, [from], from, m);
    } else {
      var p := graph[m].parent.value;
      ParentsMakePath(conversions, from, graph, p);
      var path :| Path(conversions, path, from, p) && |path| == graph[p].distance + 1;
      assert Path(conversions, path + [m], from, m);
    }
  }

  // ----- Routes

  /** The direct conversions as functions. */
  type Converter<!C> = (Model, Model) -> C -> C

  /** The result of the direct conversions along a path, in path order. */
  function Along<C>(convert: Converter<C>, path: seq<Model>, args: C): C {
    if |path| <= 1 then args else Along(convert, path[1..], convert(path[0], path[1])(args))
  }

  /** A synthetic conversion with its `.conversion` property. */
  datatype Conversion<!C> = Conversion(fn: C -> C, path: seq<Model>)

  function Link<C>(from: C -> C, to: C -> C): C -> C {
    args => to(from(args))
  }

  /** A conversion that follows a shortest path and does what its steps do. */
  ghost predicate Routed<C(!new)>(conversions: Conversions, convert: Converter<C>, graph: Graph,
                                  from: Model, to: Model, c: Conversion<C>)
  {
    && to in graph
    && Path(conversions, c.path, from, to) && |c.path| == graph[to].distance + 1
    && forall args :: c.fn(args) == Along(convert, c.path, args)
  }

  method WrapConversion<C(!new)>(conversions: Conversions, convert: Converter<C>, from: Model, to: Model, graph: Graph)
    returns (c: Conversion<C>)
    requires Shortest(conversions, from, graph) && to in graph && graph[to].parent.Some?
    ensures Routed(conversions, convert, graph, from, to, c)
  {
    var path := [graph[to].parent.value, to];
    var fn := convert(graph[to].parent.value, to);
    var cur := graph[to].parent.value;
    while graph[cur].parent.Some?
      invariant cur in graph && 0 <= graph[cur].distance
      invariant Path(conversions, path, cur, to) && |path| == graph[to].distance - graph[cur].distance + 1
      invariant |path| >= 2 && forall args :: fn(args) == Along(convert, path, args)
      decreases graph[cur].distance
    {
      var parent := graph[cur].parent.value;
      path := [parent] + path;
      fn := Link(convert(parent, cur), fn);
      cur := parent;
    }
    c := Conversion(fn, path);
  }

  /** Routes from one model to every other that can be reached, and to no others. */
  method Route<C(!new)>(conversions: Conversions, convert: Converter<C>, from: Model)
    returns (conversion: map<Model, Conversion<C>>, ghost graph: Graph)
    requires Closed(conversions) && from in conversions
    ensures Shortest(conversions, from, graph)
    ensures forall m | m in conversion :: m != from && Routed(conversions, convert, graph, from, m, conversion[m])
    ensures forall m, path | m in conversions && m != from && Path(conversions, path, from, m) :: m in conversion
  {
    var found := DeriveBFS(conversions, from);
    graph := found;
    conversion := map[];
    var models := found.Keys;
    while models != {}
      invariant models <= found.Keys
      invariant forall m | m in conversion :: m != from && Routed(conversions, convert, graph, from, m, conversion[m])
      invariant forall m | m in found && m !in models && found[m].parent.Some? :: m in conversion
    {
      var to :| to in models;
      models := models - {to};
      if found[to].parent.Some? {
        var c := WrapConversion(conversions, convert, from, to, found);
        conversion := conversion[to := c];
      }
    }
  }
}
