/** Ordering a validated graph for execution (modules/automation/compiler.js). */
module Compiler {
  import opened Wrappers
  import opened Ordering
  import opened JsonValue
  import opened GraphSchema
  import opened Paths
  import opened GraphValidator

  ghost function EdgeArcs(edges: seq<Edge>): Arcs { set e | e in edges :: (e.from, e.to) }

  predicate KnownEndpoints(g: Graph) {
    forall e | e in g.edges :: e.from in Ids(g.nodes) && e.to in Ids(g.nodes)
  }

  /** `n` is not yet listed, and everything with an edge into it is. */
  ghost predicate Available(g: Graph, listed: seq<string>, n: string) {
    && n in Ids(g.nodes)
    && n !in listed
    && forall e | e in g.edges && e.to == n :: e.from in listed
  }

  /** Every step lists the least available node, and the list stops only when none is left. */
  ghost predicate IsGreedy(g: Graph, lt: Collation, order: seq<string>) {
    GreedySoFar(g, lt, order) && forall n :: !Available(g, order, n)
  }

  ghost predicate GreedySoFar(g: Graph, lt: Collation, order: seq<string>) {
    forall i | 0 <= i < |order| :: LeastAvailable(g, lt, order[..i], order[i])
  }

  ghost predicate LeastAvailable(g: Graph, lt: Collation, listed: seq<string>, n: string) {
    Available(g, listed, n) && forall m | Available(g, listed, m) :: m == n || lt(n, m)
  }

  // ----- counting the edges a node still waits for

  /** How many edges into `n` start outside `done`; parallel edges count separately. */
  ghost function Waiting(edges: seq<Edge>, done: set<string>, n: string): nat {
    if edges == [] then 0
    else
      var last := edges[|edges| - 1];
      Waiting(edges[..|edges| - 1], done, n) + if last.to == n && last.from !in done then 1 else 0
  }

  /** The targets of the edges out of `a`, in edge order. */
  ghost function Targets(edges: seq<Edge>, a: string): seq<string> {
    if edges == [] then []
    else
      var last := edges[|edges| - 1];
      Targets(edges[..|edges| - 1], a) + if last.from == a then [last.to] else []
  }

  lemma WaitingZero(edges: seq<Edge>, done: set<string>, n: string)
    ensures Waiting(edges, done, n) == 0 <==> forall e | e in edges && e.to == n :: e.from in done
  {
    if edges != [] {
      var last := |edges| - 1;
      assert edges == edges[..last] + [edges[last]];
      WaitingZero(edges[..last], done, n);
    }
  }

  lemma WaitingAfter(edges: seq<Edge>, done: set<string>, a: string, n: string)
    requires a !in done
    ensures Waiting(edges, done, n) == Waiting(edges, done + {a}, n) + multiset(Targets(edges, a))[n]
  {
    if edges != [] {
      WaitingAfter(edges[..|edges| - 1], done, a, n);
    }
  }

  // ----- the loop

  lemma CountsStep(edges: seq<Edge>, e: Edge)
    ensures forall n :: Waiting(edges + [e], {}, n) == Waiting(edges, {}, n) + if e.to == n then 1 else 0
    ensures forall a :: Targets(edges + [e], a) == Targets(edges, a) + if e.from == a then [e.to] else []
  {
    var longer := edges + [e];
    assert longer[..|longer| - 1] == edges && longer[|longer| - 1] == e;
  }

  lemma CountsNone()
    ensures forall n :: Waiting([], {}, n) == 0
    ensures forall a :: Targets([], a) == []
  {
  }

  method CountEdges(g: Graph) returns (incoming: map<string, int>, outgoing: map<string, seq<string>>)
    requires KnownEndpoints(g)
    ensures CountsMatch(g, incoming, {}) && ListsMatch(g, outgoing)
  {
    hide Waiting, Targets, Ids;
    incoming := map id | id in Ids(g.nodes) :: 0;
    outgoing := map id | id in Ids(g.nodes) :: [];
    CountsNone();
    assert g.edges[..0] == [];
    for i := 0 to |g.edges|
      invariant incoming.Keys == outgoing.Keys == Ids(g.nodes)
      invariant forall n | n in incoming :: incoming[n] == Waiting(g.edges[..i], {}, n)
      invariant forall a | a in outgoing :: outgoing[a] == Targets(g.edges[..i], a)
    {
      var edge := g.edges[i];
      assert edge in g.edges;
      assert g.edges[..i + 1] == g.edges[..i] + [edge];
      CountsStep(g.edges[..i], edge);
      incoming := incoming[edge.to := incoming[edge.to] + 1];
      outgoing := outgoing[edge.from := outgoing[edge.from] + [edge.to]];
    }
    assert g.edges[..|g.edges|] == g.edges;
  }

  /** Every count is the number of edges from nodes not yet emitted; emitted nodes wait for none. */
  ghost predicate CountsMatch(g: Graph, incoming: map<string, int>, done: set<string>) {
    && incoming.Keys == Ids(g.nodes)
    && (forall n | n in incoming :: incoming[n] == Waiting(g.edges, done, n))
    && (forall n | n in done :: Waiting(g.edges, done, n) == 0)
  }

  /** Sorting a list of targets in place keeps them. */
  ghost predicate ListsMatch(g: Graph, outgoing: map<string, seq<string>>) {
    && outgoing.Keys == Ids(g.nodes)
    && forall a | a in outgoing :: multiset(outgoing[a]) == multiset(Targets(g.edges, a))
  }

  /** `after` counts each listed target down once per occurrence. */
  ghost predicate CountedDown(before: map<string, int>, after: map<string, int>, targets: seq<string>) {
    after.Keys == before.Keys && forall n | n in after :: after[n] == before[n] - multiset(targets)[n]
  }

  /** The queue holds exactly the nodes outside `done` whose count is zero, sorted by id and without repetition. */
  ghost predicate ReadyQueue(g: Graph, lt: Collation, ready: seq<Node>, incoming: map<string, int>, done: set<string>) {
    && incoming.Keys == Ids(g.nodes)
    && DistinctIds(ready)
    && Sorted(ready, NodeId, lt)
    && (forall n | n in ready :: n in g.nodes && n.id !in done && incoming[n.id] == 0)
    && (forall n | n in g.nodes && n.id !in done && incoming[n.id] == 0 :: n in ready)
  }

  lemma RequeueSorted(g: Graph, lt: Collation, ready: seq<Node>)
    requires DistinctIds(ready)
    ensures DistinctIds(Sort(ready, NodeId, lt)) && Sorted(Sort(ready, NodeId, lt), NodeId, lt)
    ensures forall n :: n in Sort(ready, NodeId, lt) <==> n in ready
  {
    SortSorted(ready, NodeId, lt);
    DistinctOrderFree(ready, Sort(ready, NodeId, lt));
    forall n ensures n in Sort(ready, NodeId, lt) <==> n in ready { MultisetMembers(ready, Sort(ready, NodeId, lt), n); }
  }

  function Same(s: string): string { s }

  /** Counts down the targets of an emitted node, queueing every target that no longer waits. */
  method Release(g: Graph, lt: Collation, byId: map<string, Node>, targets: seq<string>,
                 incoming0: map<string, int>, ready0: seq<Node>, ghost done: set<string>)
    returns (incoming: map<string, int>, ready: seq<Node>)
    requires DistinctIds(g.nodes) && byId == ById(g.nodes)
    requires ReadyQueue(g, lt, ready0, incoming0, done)
    requires forall t | t in targets :: t in Ids(g.nodes) && t !in done
    requires forall t | t in targets :: t in incoming0 && incoming0[t] >= multiset(targets)[t]
    ensures CountedDown(incoming0, incoming, targets)
    ensures ReadyQueue(g, lt, ready, incoming, done)
  {
    incoming, ready := incoming0, ready0;
    hide ReadyQueue, ById, DistinctIds, Ids, StrictTotal, Sort, CountedDown;
    CountDownNone(incoming0);
    for k := 0 to |targets|
      invariant CountedDown(incoming0, incoming, targets[..k])
      invariant ReadyQueue(g, lt, ready, incoming, done)
    {
      var target := targets[k];
      assert target in targets;
      CountDownStep(incoming0, incoming, targets, k);
      Requeue(g, lt, ready, incoming, done, target);
      incoming := incoming[target := incoming[target] - 1];
      if incoming[target] == 0 {
        ready := ready + [byId[target]];
      }
      ready := Sort(ready, NodeId, lt);
    }
    assert targets[..|targets|] == targets;
  }

  lemma CountDownNone(incoming: map<string, int>)
    ensures CountedDown(incoming, incoming, [])
  {
  }

  lemma CountDownStep(incoming0: map<string, int>, incoming: map<string, int>, targets: seq<string>, k: nat)
    requires k < |targets| && CountedDown(incoming0, incoming, targets[..k])
    requires targets[k] in incoming0 && incoming0[targets[k]] >= multiset(targets)[targets[k]]
    ensures targets[k] in incoming && incoming[targets[k]] >= 1
    ensures CountedDown(incoming0, incoming[targets[k] := incoming[targets[k]] - 1], targets[..k + 1])
  {
    assert targets == targets[..k] + [targets[k]] + targets[k + 1..];
    assert targets[..k + 1] == targets[..k] + [targets[k]];
  }

  lemma SortQueue(g: Graph, lt: Collation, queue: seq<Node>, incoming: map<string, int>, done: set<string>)
    requires incoming.Keys == Ids(g.nodes) && DistinctIds(queue)
    requires forall n | n in queue :: n in g.nodes && n.id !in done && incoming[n.id] == 0
    requires forall n | n in g.nodes && n.id !in done && incoming[n.id] == 0 :: n in queue
    ensures ReadyQueue(g, lt, Sort(queue, NodeId, lt), incoming, done)
  {
    RequeueSorted(g, lt, queue);
    hide StrictTotal, Sort, Sorted, DistinctIds;
  }

  lemma Requeue(g: Graph, lt: Collation, ready: seq<Node>, incoming: map<string, int>, done: set<string>, target: string)
    requires DistinctIds(g.nodes) && ReadyQueue(g, lt, ready, incoming, done)
    requires target in Ids(g.nodes) && target !in done && target in incoming && incoming[target] >= 1
    ensures
      var after := incoming[target := incoming[target] - 1];
      var queue := if after[target] == 0 then ready + [ById(g.nodes)[target]] else ready;
      ReadyQueue(g, lt, Sort(queue, NodeId, lt), after, done)
  {
    hide StrictTotal, Sort, Sorted;
    var after := incoming[target := incoming[target] - 1];
    var queue := if after[target] == 0 then ready + [ById(g.nodes)[target]] else ready;
    QueueMembers(g, lt, ready, incoming, done, target, after, queue);
    QueueDistinct(g, lt, ready, incoming, done, target);
    assert DistinctIds(queue);
    assert after.Keys == incoming.Keys;
    hide DistinctIds, Ids, ById;
    SortQueue(g, lt, queue, after, done);
  }

  lemma QueueDistinct(g: Graph, lt: Collation, ready: seq<Node>, incoming: map<string, int>, done: set<string>, target: string)
    requires DistinctIds(g.nodes) && ReadyQueue(g, lt, ready, incoming, done)
    requires target in Ids(g.nodes) && target in incoming && incoming[target] >= 1
    ensures DistinctIds(ready + [ById(g.nodes)[target]]) && DistinctIds(ready)
  {
    var node := ById(g.nodes)[target];
    UniqueById(g.nodes);
    assert node.id == target;
    assert forall i | 0 <= i < |ready| :: ready[i] in ready && ready[i].id != target;
  }

  /** Whether `target` joins the queue or not, the queue still holds exactly the nodes whose count is zero. */
  lemma QueueMembers(g: Graph, lt: Collation, ready: seq<Node>, incoming: map<string, int>, done: set<string>,
                     target: string, after: map<string, int>, queue: seq<Node>)
    requires DistinctIds(g.nodes) && ReadyQueue(g, lt, ready, incoming, done)
    requires target in Ids(g.nodes) && target !in done && incoming[target] >= 1
    requires after == incoming[target := incoming[target] - 1]
    requires queue == if after[target] == 0 then ready + [ById(g.nodes)[target]] else ready
    ensures forall n | n in queue :: n in g.nodes && n.id !in done && after[n.id] == 0
    ensures forall n | n in g.nodes && n.id !in done && after[n.id] == 0 :: n in queue
  {
    UniqueById(g.nodes);
    var node := ById(g.nodes)[target];
    assert node in g.nodes && node.id == target;
  }

  method InitialQueue(g: Graph, lt: Collation, incoming: map<string, int>) returns (ready: seq<Node>)
    requires DistinctIds(g.nodes) && incoming.Keys == Ids(g.nodes)
    ensures ReadyQueue(g, lt, ready, incoming, {})
  {
    ready := [];
    for i := 0 to |g.nodes|
      invariant DistinctIds(ready)
      invariant forall n :: n in ready <==> n in g.nodes[..i] && incoming[n.id] == 0
    {
      assert g.nodes[..i + 1] == g.nodes[..i] + [g.nodes[i]];
      assert forall n | n in ready :: exists k | 0 <= k < i :: g.nodes[k] == n;
      if incoming[g.nodes[i].id] == 0 { ready := ready + [g.nodes[i]]; }
    }
    assert g.nodes[..|g.nodes|] == g.nodes;
    RequeueSorted(g, lt, ready);
    ready := Sort(ready, NodeId, lt);
  }

  lemma Listed(sorted: seq<Node>, x: string)
    ensures x in Map(NodeId, sorted) <==> exists n | n in sorted :: n.id == x
  {
    if n :| n in sorted && n.id == x {
      var i :| 0 <= i < |sorted| && sorted[i] == n;
      assert Map(NodeId, sorted)[i] == x;
    }
    if x in Map(NodeId, sorted) {
      var i :| 0 <= i < |sorted| && Map(NodeId, sorted)[i] == x;
      assert sorted[i] in sorted;
    }
  }

  lemma AvailableMeans(g: Graph, sorted: seq<Node>, done: set<string>, n: string)
    requires done == Ids(sorted)
    ensures Available(g, Map(NodeId, sorted), n) <==> n in Ids(g.nodes) && n !in done && Waiting(g.edges, done, n) == 0
  {
    WaitingZero(g.edges, done, n);
    forall x ensures x in Map(NodeId, sorted) <==> x in done { Listed(sorted, x); }
  }

  lemma InQueue(g: Graph, lt: Collation, ready: seq<Node>, incoming: map<string, int>, done: set<string>, n: string)
    requires ReadyQueue(g, lt, ready, incoming, done)
    requires n in Ids(g.nodes) && n !in done && incoming[n] == 0
    ensures exists k :: 0 <= k < |ready| && ready[k].id == n
  {
    var node :| node in g.nodes && node.id == n;
    assert node in ready;
  }

  /** The head of the queue is the least available node. */
  lemma HeadIsLeast(g: Graph, lt: Collation, ready: seq<Node>, incoming: map<string, int>, done: set<string>, sorted: seq<Node>)
    requires DistinctIds(g.nodes) && ReadyQueue(g, lt, ready, incoming, done) && ready != []
    requires done == Ids(sorted)
    requires CountsMatch(g, incoming, done)
    ensures LeastAvailable(g, lt, Map(NodeId, sorted), ready[0].id)
  {
    var node := ready[0];
    assert node in ready;
    AvailableMeans(g, sorted, done, node.id);
    forall m | Available(g, Map(NodeId, sorted), m) ensures m == node.id || lt(node.id, m) {
      AvailableMeans(g, sorted, done, m);
      InQueue(g, lt, ready, incoming, done, m);
      var k :| 0 <= k < |ready| && ready[k].id == m;
      assert k > 0 ==> !lt(NodeId(ready[k]), NodeId(ready[0]));
    }
  }

  lemma GreedyStep(g: Graph, lt: Collation, sorted: seq<Node>, node: Node)
    requires GreedySoFar(g, lt, Map(NodeId, sorted)) && LeastAvailable(g, lt, Map(NodeId, sorted), node.id)
    ensures GreedySoFar(g, lt, Map(NodeId, sorted + [node]))
  {
    var before, after := Map(NodeId, sorted), Map(NodeId, sorted + [node]);
    assert after == before + [node.id];
    forall i | 0 <= i < |after| ensures LeastAvailable(g, lt, after[..i], after[i]) {
      assert after[..i] == before[..i];
    }
    assert before[..|before|] == before;
  }

  lemma Dequeue(g: Graph, lt: Collation, ready: seq<Node>, incoming: map<string, int>, done: set<string>)
    requires DistinctIds(g.nodes) && ReadyQueue(g, lt, ready, incoming, done) && ready != []
    ensures ready[0] in g.nodes && ready[0].id !in done && ready[0].id in Ids(g.nodes)
    ensures ready[0].id in incoming && incoming[ready[0].id] == 0
    ensures ReadyQueue(g, lt, ready[1..], incoming, done + {ready[0].id})
  {
    assert ready[0] in ready;
    forall n | n in ready[1..] ensures n in ready && n.id != ready[0].id {
      var i :| 0 <= i < |ready[1..]| && ready[1..][i] == n;
      assert ready[i + 1] == n;
    }
    forall n | n in g.nodes && n.id !in done + {ready[0].id} && incoming[n.id] == 0 ensures n in ready[1..] {
      assert n in ready;
    }
  }

  /** The targets of an emitted node are outside `done` and their counts cover every edge to be counted down. */
  lemma EmitTargets(g: Graph, incoming: map<string, int>, done: set<string>, node: string, targets: seq<string>)
    requires KnownEndpoints(g) && node !in done && node in incoming && incoming[node] == 0
    requires CountsMatch(g, incoming, done)
    requires multiset(targets) == multiset(Targets(g.edges, node))
    ensures forall t | t in targets ::
              t in Ids(g.nodes) && t !in done + {node} && t in incoming && incoming[t] >= multiset(targets)[t]
  {
    forall t | t in targets ensures t in Ids(g.nodes) && t !in done + {node} && incoming[t] >= multiset(targets)[t] {
      WaitingAfter(g.edges, done, node, t);
      MultisetMembers(targets, Targets(g.edges, node), t);
      TargetsKnown(g.edges, node, t);
      assert t in multiset(targets);
    }
  }

  lemma EmitCounts(g: Graph, before: map<string, int>, after: map<string, int>, done: set<string>, node: string, targets: seq<string>)
    requires node !in done && node in before && before[node] == 0
    requires CountsMatch(g, before, done) && CountedDown(before, after, targets)
    requires multiset(targets) == multiset(Targets(g.edges, node))
    ensures CountsMatch(g, after, done + {node})
  {
    forall n ensures Waiting(g.edges, done, n) == Waiting(g.edges, done + {node}, n) + multiset(targets)[n] {
      WaitingAfter(g.edges, done, node, n);
    }
  }

  lemma TargetsKnown(edges: seq<Edge>, a: string, t: string)
    ensures t in Targets(edges, a) ==> exists e | e in edges :: e.to == t
  {
    if edges != [] {
      var last := |edges| - 1;
      assert edges == edges[..last] + [edges[last]];
      TargetsKnown(edges[..last], a, t);
    }
  }

  lemma QueueEmpty(g: Graph, lt: Collation, incoming: map<string, int>, done: set<string>, sorted: seq<Node>)
    requires ReadyQueue(g, lt, [], incoming, done)
    requires done == Ids(sorted)
    requires CountsMatch(g, incoming, done)
    ensures forall n :: !Available(g, Map(NodeId, sorted), n)
  {
    forall n ensures !Available(g, Map(NodeId, sorted), n) {
      AvailableMeans(g, sorted, done, n);
      if n in Ids(g.nodes) && n !in done && incoming[n] == 0 {
        InQueue(g, lt, [], incoming, done, n);
      }
    }
  }

  method TopologicalNodes(g: Graph, lt: Collation) returns (sorted: seq<Node>)
    requires DistinctIds(g.nodes) && KnownEndpoints(g)
    ensures IsGreedy(g, lt, Map(NodeId, sorted))
    ensures forall n | n in sorted :: n in g.nodes
  {
    var byId := ById(g.nodes);
    var incoming, outgoing := CountEdges(g);
    var ready := InitialQueue(g, lt, incoming);
    sorted := [];
    ghost var done: set<string> := {};
    hide GreedySoFar, LeastAvailable, ReadyQueue, CountsMatch, ListsMatch, CountedDown, Map, Sort, Ids, Available,
      DistinctIds, KnownEndpoints, ById, StrictTotal;
    NothingGreedy(g, lt);
    while ready != []
      invariant done == Ids(sorted)
      invariant forall n | n in sorted :: n in g.nodes
      invariant ListsMatch(g, outgoing)
      invariant ReadyQueue(g, lt, ready, incoming, done)
      invariant CountsMatch(g, incoming, done)
      invariant GreedySoFar(g, lt, Map(NodeId, sorted))
      decreases Ids(g.nodes) - done
    {
      var node := ready[0];
      HeadIsLeast(g, lt, ready, incoming, done, sorted);
      GreedyStep(g, lt, sorted, node);
      Dequeue(g, lt, ready, incoming, done);
      IdsStep(sorted, node);
      ready := ready[1..];
      sorted := sorted + [node];
      ListsAt(g, outgoing, node.id);
      var targets := Sort(outgoing[node.id], Same, CodeUnitLess);
      ListsReplace(g, outgoing, node.id, targets);
      outgoing := outgoing[node.id := targets];
      EmitTargets(g, incoming, done, node.id, targets);
      ghost var before := incoming;
      incoming, ready := Release(g, lt, byId, targets, incoming, ready, done + {node.id});
      EmitCounts(g, before, incoming, done, node.id, targets);
      done := done + {node.id};
    }
    QueueEmpty(g, lt, incoming, done, sorted);
  }

  lemma IdsStep(sorted: seq<Node>, node: Node)
    ensures Ids(sorted + [node]) == Ids(sorted) + {node.id}
  {
  }

  lemma NothingGreedy(g: Graph, lt: Collation)
    ensures GreedySoFar(g, lt, Map(NodeId, [])) && Ids([]) == {}
  {
  }

  lemma ListsAt(g: Graph, outgoing: map<string, seq<string>>, a: string)
    requires ListsMatch(g, outgoing) && a in Ids(g.nodes)
    ensures a in outgoing && multiset(outgoing[a]) == multiset(Targets(g.edges, a))
  {
  }

  lemma ListsReplace(g: Graph, outgoing: map<string, seq<string>>, a: string, sorted: seq<string>)
    requires ListsMatch(g, outgoing) && a in outgoing && multiset(sorted) == multiset(Targets(g.edges, a))
    ensures ListsMatch(g, outgoing[a := sorted])
  {
    hide Targets;
    var replaced := outgoing[a := sorted];
    forall b | b in replaced ensures multiset(replaced[b]) == multiset(Targets(g.edges, b)) {
      if b != a { assert replaced[b] == outgoing[b]; }
    }
  }

  // ----- what the greedy order means

  ghost predicate Before(order: seq<string>, x: string, y: string) {
    exists i, j :: 0 <= i < j < |order| && order[i] == x && order[j] == y
  }

  /** A permutation of the nodes in which every edge points forward. */
  ghost predicate IsTopological(g: Graph, order: seq<string>) {
    && (forall i, j | 0 <= i < j < |order| :: order[i] != order[j])
    && (forall n :: n in order <==> n in Ids(g.nodes))
    && (forall e | e in g.edges :: Before(order, e.from, e.to))
  }

  /** Dictionary order on lists of ids: equal, or smaller at the first difference. */
  ghost predicate LexLeq(lt: Collation, a: seq<string>, b: seq<string>) {
    a == b || exists i :: 0 <= i < |a| && i < |b| && a[..i] == b[..i] && lt(a[i], b[i])
  }

  lemma GreedyFacts(g: Graph, lt: Collation, order: seq<string>)
    requires GreedySoFar(g, lt, order)
    ensures forall i, j | 0 <= i < j < |order| :: order[i] != order[j]
    ensures forall n | n in order :: n in Ids(g.nodes)
    ensures SourcesFirst(EdgeArcs(g.edges), order)
  {
    hide StrictTotal;
    forall i, j | 0 <= i < j < |order| ensures order[i] != order[j] {
      assert LeastAvailable(g, lt, order[..j], order[j]);
      assert order[i] in order[..j];
    }
    forall n | n in order ensures n in Ids(g.nodes) {
      var i :| 0 <= i < |order| && order[i] == n;
      assert LeastAvailable(g, lt, order[..i], order[i]);
    }
    forall i, x | 0 <= i < |order| && (x, order[i]) in EdgeArcs(g.edges) ensures x in order[..i] {
      assert LeastAvailable(g, lt, order[..i], order[i]);
    }
  }

  lemma ListedHaveNoCyclicAncestor(g: Graph, lt: Collation, order: seq<string>, n: string, a: string)
    requires IsGreedy(g, lt, order) && n in order && Reaches(EdgeArcs(g.edges), a, n)
    ensures !OnCycle(EdgeArcs(g.edges), a)
  {
    var arcs := EdgeArcs(g.edges);
    GreedyFacts(g, lt, order);
    var j :| 0 <= j < |order| && order[j] == n;
    var w :| WalkFromTo(arcs, w, a, n);
    AncestorsFirst(arcs, order, w, a, j);
    var k :| 0 <= k <= j && order[k] == a;
    ListedOffCycle(arcs, order, k);
  }

  lemma {:induction false} NoCyclicAncestorIsListed(g: Graph, lt: Collation, order: seq<string>, n: string)
    requires KnownEndpoints(g) && IsGreedy(g, lt, order) && n in Ids(g.nodes)
    requires forall a | Reaches(EdgeArcs(g.edges), a, n) :: !OnCycle(EdgeArcs(g.edges), a)
    ensures n in order
    decreases Ancestors(EdgeArcs(g.edges), Ids(g.nodes), n)
  {
    var arcs := EdgeArcs(g.edges);
    if n !in order {
      assert !Available(g, order, n);
      var e :| e in g.edges && e.to == n && e.from !in order;
      assert (e.from, n) in arcs;
      ArcReaches(arcs, e.from, n);
      ReachesOnIsReaches(arcs, e.from, n);
      forall a | Reaches(arcs, a, e.from) ensures !OnCycle(arcs, a) {
        ReachesJoin(arcs, a, e.from, n);
      }
      ReachesSelf(arcs, e.from);
      FewerAncestors(arcs, Ids(g.nodes), e.from, n);
      NoCyclicAncestorIsListed(g, lt, order, e.from);
    }
  }

  /** The loop emits exactly the nodes with no cycle among their ancestors (a node is its own ancestor). */
  lemma {:induction false} EmittedExactly(g: Graph, lt: Collation, order: seq<string>, n: string)
    requires KnownEndpoints(g) && IsGreedy(g, lt, order)
    ensures n in order <==>
              n in Ids(g.nodes) && forall a | Reaches(EdgeArcs(g.edges), a, n) :: !OnCycle(EdgeArcs(g.edges), a)
  {
    GreedyFacts(g, lt, order);
    if n in order {
      forall a | Reaches(EdgeArcs(g.edges), a, n) ensures !OnCycle(EdgeArcs(g.edges), a) {
        ListedHaveNoCyclicAncestor(g, lt, order, n, a);
      }
    } else if n in Ids(g.nodes) && forall a | Reaches(EdgeArcs(g.edges), a, n) :: !OnCycle(EdgeArcs(g.edges), a) {
      NoCyclicAncestorIsListed(g, lt, order, n);
    }
  }

  /** The order is complete, hence topological, exactly when the graph has no cycle. */
  lemma {:induction false} CompleteIffAcyclic(g: Graph, lt: Collation, order: seq<string>)
    requires KnownEndpoints(g) && IsGreedy(g, lt, order)
    ensures IsTopological(g, order) <==> Acyclic(EdgeArcs(g.edges))
    ensures (forall n | n in Ids(g.nodes) :: n in order) <==> Acyclic(EdgeArcs(g.edges))
  {
    var arcs := EdgeArcs(g.edges);
    GreedyFacts(g, lt, order);
    if Acyclic(arcs) {
      forall n | n in Ids(g.nodes) ensures n in order { EmittedExactly(g, lt, order, n); }
      forall e | e in g.edges ensures Before(order, e.from, e.to) {
        assert e.to in order && (e.from, e.to) in arcs;
        var j :| 0 <= j < |order| && order[j] == e.to;
        assert e.from in order[..j];
      }
    }
    if forall n | n in Ids(g.nodes) :: n in order {
      forall a ensures !OnCycle(arcs, a) {
        OffCycle(g, lt, order, a);
      }
    }
  }

  lemma {:induction false} OffCycle(g: Graph, lt: Collation, order: seq<string>, a: string)
    requires KnownEndpoints(g) && IsGreedy(g, lt, order) && forall n | n in Ids(g.nodes) :: n in order
    ensures !OnCycle(EdgeArcs(g.edges), a)
  {
    var arcs := EdgeArcs(g.edges);
    if OnCycle(arcs, a) {
      var p := LastArc(arcs, a, a);
      assert a in Ids(g.nodes);
      ReachesSelf(arcs, a);
      EmittedExactly(g, lt, order, a);
    }
  }

  lemma TopologicalAvailable(g: Graph, t: seq<string>, i: nat)
    requires IsTopological(g, t) && i < |t|
    ensures Available(g, t[..i], t[i])
  {
    forall e | e in g.edges && e.to == t[i] ensures e.from in t[..i] {
      assert Before(t, e.from, e.to);
      var a, b :| 0 <= a < b < |t| && t[a] == e.from && t[b] == e.to;
      assert b == i;
    }
    assert t[i] in t;
  }

  lemma GreedyBeats(g: Graph, lt: Collation, order: seq<string>, t: seq<string>, i: nat)
    requires IsGreedy(g, lt, order) && IsTopological(g, t)
    requires i <= |order| && i <= |t| && order[..i] == t[..i]
    ensures LexLeq(lt, order, t)
    decreases |order| - i
  {
    hide StrictTotal;
    assert order[..|order|] == order && t[..|t|] == t;
    if i < |t| {
      TopologicalAvailable(g, t, i);
      if i < |order| {
        GreedyAt(g, lt, order, i);
        if order[i] == t[i] {
          assert order[..i + 1] == t[..i + 1];
          GreedyBeats(g, lt, order, t, i + 1);
        }
      }
    } else if i < |order| {
      GreedyAt(g, lt, order, i);
    }
  }

  lemma GreedyAt(g: Graph, lt: Collation, order: seq<string>, i: nat)
    requires IsGreedy(g, lt, order) && i < |order|
    ensures LeastAvailable(g, lt, order[..i], order[i])
  {
  }

  /** Among all topological orders the emitted one is the least in dictionary order. */
  lemma LeastTopological(g: Graph, lt: Collation, order: seq<string>, t: seq<string>)
    requires IsGreedy(g, lt, order) && IsTopological(g, t)
    ensures LexLeq(lt, order, t)
  {
    GreedyBeats(g, lt, order, t, 0);
  }

  /** There is only one greedy order, so the result depends on the graph alone. */
  lemma GreedyUnique(g: Graph, lt: Collation, a: seq<string>, b: seq<string>, i: nat)
    requires IsGreedy(g, lt, a) && IsGreedy(g, lt, b)
    requires i <= |a| && i <= |b| && a[..i] == b[..i]
    ensures a == b
    decreases |a| - i
  {
    assert a[..|a|] == a && b[..|b|] == b;
    if i < |a| {
      GreedyAt(g, lt, a, i);
      if i < |b| {
        GreedyAt(g, lt, b, i);
        assert a[i] == b[i];
        assert a[..i + 1] == b[..i + 1];
        GreedyUnique(g, lt, a, b, i + 1);
      }
    } else if i < |b| {
      GreedyAt(g, lt, b, i);
    }
  }

  lemma LegalArcsAll(g: Graph)
    requires forall e | e in g.edges :: LegalEdge(g, e)
    ensures ArcsOf(g) == EdgeArcs(g.edges) && KnownEndpoints(g)
  {
    hide LegalPort;
  }

  /**
   * The two cycle detectors agree: when the triggers reach every node, the loop drops a node if and only if
   * the depth-first walk reports a cycle.
   */
  lemma {:induction false} DetectorsAgree(g: Graph, lt: Collation, options: Options, order: seq<string>, errors: seq<GraphError>)
    requires forall e | e in g.edges :: LegalEdge(g, e)
    requires forall n | n in g.nodes :: FromTrigger(g, n.id)
    requires IsGreedy(g, lt, order) && ErrorsExact(g, options, errors)
    ensures (exists n | n in g.nodes :: n.id !in order) <==> ReportsCycle(errors)
  {
    LegalArcsAll(g);
    CompleteIffAcyclic(g, lt, order);
    CycleReported(g, errors);
    MissingNode(g, order);
    hide *;
  }

  lemma MissingNode(g: Graph, order: seq<string>)
    ensures (forall n | n in Ids(g.nodes) :: n in order) <==> !exists n | n in g.nodes :: n.id !in order
  {
  }

  lemma CycleReported(g: Graph, errors: seq<GraphError>)
    requires forall n | n in g.nodes :: FromTrigger(g, n.id)
    requires CyclesExact(g, errors)
    ensures !Acyclic(ArcsOf(g)) <==> ReportsCycle(errors)
  {
    if a :| OnCycle(ArcsOf(g), a) {
      CycleIsNode(g, a);
    }
    hide FromTrigger, LegalArcs, ReachesOn;
  }

  /** Nothing leads into the trigger, and something leads into every other node. */
  lemma {:induction false} TriggerIsOnlySource(g: Graph, options: Options, t: string)
    requires ValidGraph(g, options) && t in TriggerIds(g)
    ensures forall n | n in g.nodes :: (n.id == t <==> forall e | e in g.edges :: e.to != n.id)
  {
    LegalArcsAll(g);
    var arcs := ArcsOf(g);
    SingleTrigger(g, options, t);
    forall n | n in g.nodes ensures n.id == t <==> forall e | e in g.edges :: e.to != n.id {
      assert FromTrigger(g, n.id) && Reaches(arcs, t, n.id);
      if n.id == t {
        forall e | e in g.edges ensures e.to != t { NothingIntoTrigger(g, options, t, e); }
      } else {
        var w :| WalkFromTo(arcs, w, t, n.id);
        assert |w| >= 2;
        var p := LastArc(arcs, t, n.id);
      }
    }
  }

  lemma SingleTrigger(g: Graph, options: Options, t: string)
    requires ValidGraph(g, options) && t in TriggerIds(g)
    ensures TriggerIds(g) == {t}
    ensures forall id | FromTrigger(g, id) :: Reaches(ArcsOf(g), t, id)
  {
    hide LegalEdge, ReachesOn;
    OnlyMember(TriggerIds(g), t);
  }

  lemma OnlyMember(s: set<string>, t: string)
    requires |s| == 1 && t in s
    ensures s == {t}
  {
    assert |s - {t}| == 0;
  }

  lemma {:induction false} NothingIntoTrigger(g: Graph, options: Options, t: string, e: Edge)
    requires ValidGraph(g, options) && t in TriggerIds(g) && e in g.edges
    ensures e.to != t
  {
    var arcs := ArcsOf(g);
    SingleTrigger(g, options, t);
    assert LegalEdge(g, e) && (e.from, e.to) in arcs;
    var n :| n in g.nodes && n.id == e.from;
    assert Reaches(arcs, t, e.from);
    ArcReaches(arcs, e.from, e.to);
    ReachesOnJoin(arcs, t, e.from, e.to);
    assert !OnCycle(arcs, t);
  }

  /** Everything promised about the compiled order of a valid graph. */
  ghost predicate CompiledOrder(g: Graph, lt: Collation, order: seq<string>) {
    && IsTopological(g, order)
    && (forall t | IsTopological(g, t) :: LexLeq(lt, order, t))
    && order != []
    && TriggerIds(g) == {order[0]}
  }

  lemma {:induction false} ValidGraphCompiles(g: Graph, lt: Collation, options: Options, order: seq<string>)
    requires ValidGraph(g, options) && IsGreedy(g, lt, order)
    ensures CompiledOrder(g, lt, order)
  {
    LegalArcsAll(g);
    CompleteIffAcyclic(g, lt, order);
    forall t | IsTopological(g, t) ensures LexLeq(lt, order, t) { LeastTopological(g, lt, order, t); }
    var t :| t in TriggerIds(g);
    SingleTrigger(g, options, t);
    TriggerIsOnlySource(g, options, t);
    TriggerIsNode(g, t);
    assert t in order;
    FirstIsSource(g, order, t);
  }

  lemma TriggerIsNode(g: Graph, t: string)
    requires t in TriggerIds(g)
    ensures t in Ids(g.nodes)
  {
  }

  lemma FirstIsSource(g: Graph, order: seq<string>, t: string)
    requires IsTopological(g, order) && order != []
    requires forall n | n in g.nodes :: (n.id == t <==> forall e | e in g.edges :: e.to != n.id)
    ensures order[0] == t
  {
    assert order[0] in order;
    var n :| n in g.nodes && n.id == order[0];
    TopologicalAvailable(g, order, 0);
  }

  // ----- compileGraph and simulateGraph

  datatype CompileResult = Compiled(graph: Graph, nodes: seq<Node>) | GraphInvalid(errors: seq<GraphError>)

  method CompileGraph(value: Json, options: Options, lt: Collation) returns (r: CompileResult)
    ensures r.Compiled? <==> NormalizeGraph(value, lt).Ok? && ValidGraph(NormalizeGraph(value, lt).value, options)
    ensures r.Compiled? ==>
              && r.graph == NormalizeGraph(value, lt).value
              && (forall n | n in r.nodes :: n in r.graph.nodes)
              && IsGreedy(r.graph, lt, Map(NodeId, r.nodes))
              && CompiledOrder(r.graph, lt, Map(NodeId, r.nodes))
    ensures r.GraphInvalid? && NormalizeGraph(value, lt).Ok? ==>
              r.errors != [] && ErrorsExact(NormalizeGraph(value, lt).value, options, r.errors)
  {
    hide *;
    var validation := ValidateGraph(value, options, lt);
    if !validation.valid {
      InvalidHasErrors(value, options, lt, validation);
      return GraphInvalid(validation.errors);
    }
    var g := validation.graph.value;
    ReadyToCompile(value, options, lt);
    var nodes := TopologicalNodes(g, lt);
    ValidGraphCompiles(g, lt, options, Map(NodeId, nodes));
    return Compiled(g, nodes);
  }

  lemma ReadyToCompile(value: Json, options: Options, lt: Collation)
    requires NormalizeGraph(value, lt).Ok? && ValidGraph(NormalizeGraph(value, lt).value, options)
    ensures DistinctIds(NormalizeGraph(value, lt).value.nodes) && KnownEndpoints(NormalizeGraph(value, lt).value)
  {
    LegalArcsAll(NormalizeGraph(value, lt).value);
    hide ValidGraph;
  }

  lemma InvalidHasErrors(value: Json, options: Options, lt: Collation, v: Validation)
    requires NormalizeGraph(value, lt).Ok? ==> ErrorsExact(NormalizeGraph(value, lt).value, options, v.errors)
    requires NormalizeGraph(value, lt).Ok? ==> !ValidGraph(NormalizeGraph(value, lt).value, options)
    ensures NormalizeGraph(value, lt).Ok? ==> v.errors != []
  {
    hide *;
    if NormalizeGraph(value, lt).Ok? {
      NoErrorsIffValid(NormalizeGraph(value, lt).value, options, v.errors);
    }
  }

  datatype TraceRow = TriggerRow(nodeId: string, typ: string, matched: bool) | ActionRow(nodeId: string, typ: string, config: Json)

  function TraceOf(node: Node, triggerType: string): TraceRow {
    if "trigger." <= node.typ then TriggerRow(node.id, node.typ, node.typ == triggerType)
    else ActionRow(node.id, node.typ, node.config)
  }

  /** `replace('.', '_')`. */
  function ReplaceFirstDot(s: string): string {
    if s == [] then []
    else if s[0] == '.' then ['_'] + s[1..]
    else [s[0]] + ReplaceFirstDot(s[1..])
  }

  /** The trigger type an event fires. */
  function TriggerTypeFor(eventType: string): string { "trigger." + ReplaceFirstDot(eventType) }

  /** The text before and after the first dot. */
  ghost predicate Parts(s: string, before: string, after: string) { '.' !in before && s == before + "." + after }

  /** An event `a.b` fires `trigger.a_b`, and one without a dot the trigger of its own name. */
  ghost predicate Fires(eventType: string, typ: string) {
    if '.' in eventType then exists a, b :: Parts(eventType, a, b) && typ == "trigger." + a + "_" + b
    else typ == "trigger." + eventType
  }

  lemma {:induction false} ReplaceParts(s: string, before: string, after: string)
    requires Parts(s, before, after)
    ensures ReplaceFirstDot(s) == before + "_" + after && '.' in s
    decreases before
  {
    assert s[|before|] == '.';
    if before != "" {
      assert s[0] == before[0] && s[1..] == before[1..] + "." + after;
      ReplaceParts(s[1..], before[1..], after);
    }
  }

  lemma {:induction false} ReplaceNothing(s: string)
    requires '.' !in s
    ensures ReplaceFirstDot(s) == s
    decreases s
  {
    if s != "" { ReplaceNothing(s[1..]); }
  }

  lemma {:induction false} FirstDot(s: string) returns (before: string, after: string)
    requires '.' in s
    ensures Parts(s, before, after)
    decreases s
  {
    if s[0] == '.' {
      before, after := "", s[1..];
    } else {
      before, after := FirstDot(s[1..]);
      before := [s[0]] + before;
    }
  }

  lemma FiresTriggerType(eventType: string, typ: string)
    ensures Fires(eventType, typ) <==> typ == TriggerTypeFor(eventType)
  {
    hide ReplaceFirstDot;
    if '.' in eventType {
      var a, b := FirstDot(eventType);
      ReplaceParts(eventType, a, b);
      assert "trigger." + (a + "_" + b) == "trigger." + a + "_" + b;
      forall c, d | Parts(eventType, c, d) ensures "trigger." + c + "_" + d == "trigger." + a + "_" + b {
        ReplaceParts(eventType, c, d);
        assert "trigger." + (c + "_" + d) == "trigger." + c + "_" + d;
      }
    } else {
      ReplaceNothing(eventType);
    }
  }

  /** Which row a node must get: a trigger's says whether the event fires it, an action's carries its config. */
  ghost predicate RowTells(row: TraceRow, node: Node, eventType: string) {
    if "trigger." <= node.typ then
      row.TriggerRow? && row.nodeId == node.id && row.typ == node.typ && (row.matched <==> Fires(eventType, node.typ))
    else row == ActionRow(node.id, node.typ, node.config)
  }

  lemma TraceOfTells(node: Node, eventType: string)
    ensures RowTells(TraceOf(node, TriggerTypeFor(eventType)), node, eventType)
  {
    hide Fires, TriggerTypeFor;
    FiresTriggerType(eventType, node.typ);
  }

  method SimulateGraph(value: Json, eventType: string, options: Options, lt: Collation)
    returns (ok: bool, rows: seq<TraceRow>)
    ensures ok <==> NormalizeGraph(value, lt).Ok? && ValidGraph(NormalizeGraph(value, lt).value, options)
    ensures ok ==> TraceFor(NormalizeGraph(value, lt).value, lt, eventType, rows)
    ensures ok ==> forall a, b, k | Parts(eventType, a, b) && 0 <= k < |rows| && rows[k].TriggerRow? ::
      rows[k].matched <==> rows[k].typ == "trigger." + a + "_" + b
    ensures ok && '.' !in eventType ==> forall k | 0 <= k < |rows| && rows[k].TriggerRow? ::
      rows[k].matched <==> rows[k].typ == "trigger." + eventType
  {
    var triggerType := TriggerTypeFor(eventType);
    rows := [];
    hide NormalizeGraph, ValidGraph, ErrorsExact, CompiledOrder, IsGreedy, Map, TraceOf, RowTells, TriggerTypeFor, Fires, Parts;
    var compiled := CompileGraph(value, options, lt);
    if compiled.GraphInvalid? { return false, []; }
    var nodes := compiled.nodes;
    for i := 0 to |nodes|
      invariant |rows| == i
      invariant forall k | 0 <= k < i :: RowTells(rows[k], nodes[k], eventType)
    {
      TraceOfTells(nodes[i], eventType);
      rows := rows + [TraceOf(nodes[i], triggerType)];
    }
    ok := true;
    assert IsTrace(compiled.graph, lt, eventType, rows, nodes);
    RowsMatch(rows, nodes, eventType);
  }

  lemma RowsMatch(rows: seq<TraceRow>, nodes: seq<Node>, eventType: string)
    requires |rows| == |nodes| && forall k | 0 <= k < |nodes| :: RowTells(rows[k], nodes[k], eventType)
    ensures forall a, b, k | Parts(eventType, a, b) && 0 <= k < |rows| && rows[k].TriggerRow? ::
      rows[k].matched <==> rows[k].typ == "trigger." + a + "_" + b
    ensures '.' !in eventType ==> forall k | 0 <= k < |rows| && rows[k].TriggerRow? ::
      rows[k].matched <==> rows[k].typ == "trigger." + eventType
  {
    hide ReplaceFirstDot, Fires;
    forall a, b, k | Parts(eventType, a, b) && 0 <= k < |rows| && rows[k].TriggerRow?
      ensures rows[k].matched <==> rows[k].typ == "trigger." + a + "_" + b
    {
      assert RowTells(rows[k], nodes[k], eventType);
      FiresTriggerType(eventType, rows[k].typ);
      ReplaceParts(eventType, a, b);
      assert "trigger." + (a + "_" + b) == "trigger." + a + "_" + b;
    }
    if '.' !in eventType {
      ReplaceNothing(eventType);
      forall k | 0 <= k < |rows| && rows[k].TriggerRow? ensures rows[k].matched <==> rows[k].typ == "trigger." + eventType {
        assert RowTells(rows[k], nodes[k], eventType);
        FiresTriggerType(eventType, rows[k].typ);
      }
    }
  }

  ghost predicate IsTrace(g: Graph, lt: Collation, eventType: string, rows: seq<TraceRow>, nodes: seq<Node>) {
    && (forall n | n in nodes :: n in g.nodes)
    && IsGreedy(g, lt, Map(NodeId, nodes))
    && |rows| == |nodes|
    && forall k | 0 <= k < |nodes| :: RowTells(rows[k], nodes[k], eventType)
  }

  ghost predicate TraceFor(g: Graph, lt: Collation, eventType: string, rows: seq<TraceRow>) {
    exists nodes :: IsTrace(g, lt, eventType, rows, nodes)
  }

  /** The simulation trace of a graph is determined by its set of nodes and multiset of edges. */
  lemma {:induction false} TraceOrderFree(v: Json, w: Json, lt: Collation, eventType: string, a: seq<TraceRow>, b: seq<TraceRow>)
    requires SameGraph(v, w) && NormalizeGraph(v, lt).Ok? && NormalizeGraph(w, lt).Ok?
    requires TraceFor(NormalizeGraph(v, lt).value, lt, eventType, a)
    requires TraceFor(NormalizeGraph(w, lt).value, lt, eventType, b)
    ensures a == b
  {
    NormalizeOrderFree(v, w, lt);
    NormalizeGraphNormal(v, lt);
    hide NormalizeGraph, SameGraph, RowTells;
    var g := NormalizeGraph(v, lt).value;
    var na :| IsTrace(g, lt, eventType, a, na);
    var nb :| IsTrace(g, lt, eventType, b, nb);
    SameNodes(g, lt, na, nb);
    forall k | 0 <= k < |a| ensures a[k] == b[k] { OneRow(a[k], b[k], na[k], eventType); }
  }

  lemma OneRow(a: TraceRow, b: TraceRow, node: Node, eventType: string)
    requires RowTells(a, node, eventType) && RowTells(b, node, eventType)
    ensures a == b
  {
    hide Fires;
  }

  lemma SameNodes(g: Graph, lt: Collation, na: seq<Node>, nb: seq<Node>)
    requires DistinctIds(g.nodes)
    requires (forall n | n in na :: n in g.nodes) && forall n | n in nb :: n in g.nodes
    requires IsGreedy(g, lt, Map(NodeId, na)) && IsGreedy(g, lt, Map(NodeId, nb))
    ensures na == nb
  {
    var ia, ib := Map(NodeId, na), Map(NodeId, nb);
    GreedyUnique(g, lt, ia, ib, 0);
    hide IsGreedy;
    UniqueById(g.nodes);
    forall i | 0 <= i < |na| ensures na[i] == nb[i] {
      assert ia[i] == na[i].id && ib[i] == nb[i].id;
      assert na[i] in na && nb[i] in nb;
    }
  }
}
