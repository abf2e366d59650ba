/** Validation of automation graphs (modules/automation/graph-validator.js): the depth-first walk and its verdict. */
module GraphValidator {
  import opened Wrappers
  import opened Ordering
  import opened JsonValue
  import opened GraphSchema
  import opened Paths

  datatype GraphError =
    | SchemaRejected(code: SchemaError)
    | TriggerCountInvalid
    | EdgeSourceUnknown(edge: Edge)
    | EdgeTargetUnknown(edge: Edge)
    | PortInvalid(edge: Edge)
    | CycleAt(nodeId: string)
    | NodeUnreachable(nodeId: string)
    | ReferenceTenantMismatch(nodeId: string, queueId: string)

  /** The tenant on whose behalf the graph is checked, and the owner of every queue the caller knows of. */
  datatype Options = Options(tenantId: string, queues: Option<map<string, string>>)

  datatype Validation = Validation(valid: bool, graph: Option<Graph>, errors: seq<GraphError>)

  /** Every supported type has the one port `next`. */
  predicate HasPort(typ: string, port: string) { typ in NODE_TYPES && port == "next" }

  ghost predicate LegalPort(g: Graph, e: Edge) {
    exists n | n in g.nodes :: n.id == e.from && HasPort(n.typ, e.port)
  }

  /** The edges the walk follows. */
  ghost predicate LegalEdge(g: Graph, e: Edge) {
    e.from in Ids(g.nodes) && e.to in Ids(g.nodes) && LegalPort(g, e)
  }

  ghost function ArcsOf(g: Graph): Arcs { LegalArcs(g, g.edges) }

  ghost function LegalArcs(g: Graph, edges: seq<Edge>): Arcs {
    set e | e in edges && LegalEdge(g, e) :: (e.from, e.to)
  }

  ghost function TriggerIds(g: Graph): set<string> { TriggerIdSet(g.nodes) }

  ghost predicate FromTrigger(g: Graph, id: string) {
    ReachedFrom(ArcsOf(g), TriggerIds(g), id)
  }

  /** `node` names a listed queue that belongs to another tenant. */
  predicate ForeignQueue(n: Node, options: Options) {
    var q := Get(n.config, "queueId");
    q.Str? && q.s != "" && options.queues.Some? && q.s in options.queues.value && options.queues.value[q.s] != options.tenantId
  }

  /** The declarative meaning of a valid graph. */
  ghost predicate ValidGraph(g: Graph, options: Options) {
    && |TriggerIds(g)| == 1
    && (forall e | e in g.edges :: LegalEdge(g, e))
    && Acyclic(ArcsOf(g))
    && (forall n | n in g.nodes :: FromTrigger(g, n.id))
    && (forall n | n in g.nodes :: !ForeignQueue(n, options))
  }

  /** Exactly which complaints a normalised graph deserves. */
  ghost predicate ErrorsExact(g: Graph, options: Options, errors: seq<GraphError>) {
    && (TriggerCountInvalid in errors <==> |TriggerIds(g)| != 1)
    && (forall c :: SchemaRejected(c) !in errors)
    && EdgesExact(g, errors)
    && CyclesExact(g, errors)
    && NodesExact(g, options, errors)
  }

  ghost predicate EdgesExact(g: Graph, errors: seq<GraphError>) {
    && (forall e :: EdgeSourceUnknown(e) in errors <==> e in g.edges && e.from !in Ids(g.nodes))
    && (forall e :: EdgeTargetUnknown(e) in errors <==> e in g.edges && e.from in Ids(g.nodes) && e.to !in Ids(g.nodes))
    && (forall e :: PortInvalid(e) in errors <==>
          e in g.edges && e.from in Ids(g.nodes) && e.to in Ids(g.nodes) && !LegalPort(g, e))
  }

  ghost predicate NodesExact(g: Graph, options: Options, errors: seq<GraphError>) {
    && (forall id :: NodeUnreachable(id) in errors <==> id in Ids(g.nodes) && !FromTrigger(g, id))
    && (forall id, q :: ReferenceTenantMismatch(id, q) in errors <==>
          exists n | n in g.nodes && n.id == id :: ForeignQueue(n, options) && Get(n.config, "queueId") == Str(q))
  }

  /** Every reported node lies on a cycle a trigger can reach, and some node is reported when there is such a cycle. */
  ghost predicate CyclesExact(g: Graph, errors: seq<GraphError>) {
    && (forall id | CycleAt(id) in errors :: OnCycle(ArcsOf(g), id) && FromTrigger(g, id))
    && ((exists id :: OnCycle(ArcsOf(g), id) && FromTrigger(g, id)) ==> exists id :: CycleAt(id) in errors)
  }

  ghost predicate ReportsCycle(errors: seq<GraphError>) { exists id :: CycleAt(id) in errors }

  /** A legal edge joins two nodes of the graph through the port `next`, the only one there is. */
  lemma LegalEdgeTells(g: Graph, e: Edge)
    requires forall n | n in g.nodes :: n.typ in NODE_TYPES
    ensures LegalEdge(g, e) <==>
      (exists n | n in g.nodes :: n.id == e.from) && (exists n | n in g.nodes :: n.id == e.to) && e.port == "next"
  {
  }

  /** No complaint is left exactly when the graph is valid. */
  lemma NoErrorsIffValid(g: Graph, options: Options, errors: seq<GraphError>)
    requires ErrorsExact(g, options, errors)
    ensures errors == [] <==> ValidGraph(g, options)
  {
    hide *;
    if errors == [] {
      NoErrorsValid(g, options, errors);
    }
    if ValidGraph(g, options) && errors != [] {
      var x := errors[0];
      assert x in errors;
      ValidNoError(g, options, errors, x);
    }
  }

  lemma ValidNoError(g: Graph, options: Options, errors: seq<GraphError>, x: GraphError)
    requires ErrorsExact(g, options, errors) && ValidGraph(g, options)
    ensures x !in errors
  {
    match x
    case NodeUnreachable(id) => assert id in Ids(g.nodes) ==> exists n | n in g.nodes :: n.id == id;
    case _ =>
  }

  lemma NoErrorsValid(g: Graph, options: Options, errors: seq<GraphError>)
    requires ErrorsExact(g, options, errors) && errors == []
    ensures ValidGraph(g, options)
  {
    forall e | e in g.edges ensures LegalEdge(g, e) {
      assert EdgeSourceUnknown(e) !in errors && EdgeTargetUnknown(e) !in errors && PortInvalid(e) !in errors;
    }
    forall n | n in g.nodes ensures FromTrigger(g, n.id) {
      assert NodeUnreachable(n.id) !in errors;
    }
    forall a ensures !OnCycle(ArcsOf(g), a) {
      NotOnCycle(g, errors, a);
    }
    forall n | n in g.nodes ensures !ForeignQueue(n, options) {
      var q := Get(n.config, "queueId");
      assert q.Str? ==> ReferenceTenantMismatch(n.id, q.s) !in errors;
    }
  }

  lemma NotOnCycle(g: Graph, errors: seq<GraphError>, a: string)
    requires CyclesExact(g, errors) && errors == []
    requires forall n | n in g.nodes :: FromTrigger(g, n.id)
    ensures !OnCycle(ArcsOf(g), a)
  {
    assert OnCycle(ArcsOf(g), a) ==> FromTrigger(g, a) by {
      if OnCycle(ArcsOf(g), a) { CycleIsNode(g, a); }
    }
    assert CycleAt(a) !in errors;
  }

  lemma CycleIsNode(g: Graph, a: string)
    requires OnCycle(ArcsOf(g), a)
    ensures exists n | n in g.nodes :: n.id == a
  {
    var p := LastArc(ArcsOf(g), a, a);
    assert a in Ids(g.nodes);
  }

  /** The arcs held in an adjacency map. */
  ghost function ArcsIn(outgoing: map<string, seq<string>>): Arcs {
    set a, b | a in outgoing && b in outgoing[a] :: (a, b)
  }

  /** The state the recursive walk shares: `visited`, `visiting` and the growing list of errors. */
  class GraphWalk {
    const outgoing: map<string, seq<string>>
    var visited: set<string>
    var visiting: set<string>
    var errors: seq<GraphError>
    ghost var finished: seq<string>

    constructor (outgoing: map<string, seq<string>>, errors: seq<GraphError>)
      ensures this.outgoing == outgoing && this.errors == errors
      ensures visited == {} && visiting == {} && finished == []
    {
      this.outgoing := outgoing;
      this.errors := errors;
      visited, visiting, finished := {}, {}, [];
    }

    ghost function Arcs(): Arcs { ArcsIn(outgoing) }

    /** Gray and black nodes are apart, and arcs out of a black node never lead to a white one. */
    ghost predicate Valid()
      reads this
    {
      && visited !! visiting
      && visited + visiting <= outgoing.Keys
      && (forall a | a in visited :: a in finished)
      && (forall a | a in finished :: a in visited)
      && (forall a, b | (a, b) in Arcs() :: b in outgoing)
      && (forall a, b | (a, b) in Arcs() && a in visited :: b in visited || b in visiting)
    }

    ghost function Now(): Progress
      reads this
    {
      Progress(visited, errors, finished)
    }

    /**
     * Visits exactly the nodes that a path leads to over nodes neither visited nor being visited when the walk starts.
     */
    method Walk(nodeId: string)
      requires Valid() && nodeId in outgoing
      requires forall g | g in visiting :: ReachesOn(Arcs(), g, nodeId)
      modifies this
      ensures Valid() && visiting == old(visiting) && old(visited) <= visited
      ensures nodeId in visited || nodeId in visiting
      ensures errors == old(errors) ==> nodeId in visited
      ensures Walked(Arcs(), {nodeId}, old(Now()), Now())
      ensures forall b :: b in visited <==> b in old(visited) || ReachesOff(Arcs(), old(visited + visiting), nodeId, b)
      decreases outgoing.Keys - visited - visiting
    {
      hide Walked, Reaches, ReachesOn, ReachedFrom, TargetsFirst, ArcsIn, ReachesOff;
      WalkedNothing(Arcs(), {nodeId}, Now());
      NotOff(Arcs(), visited + visiting, nodeId);
      if nodeId in visiting {
        WalkedBack(Arcs(), nodeId, Now());
        errors := errors + [CycleAt(nodeId)];
        return;
      }
      if nodeId in visited { return; }
      ghost var avoid := visited + visiting;
      OffSelf(Arcs(), avoid, nodeId);
      visiting := visiting + {nodeId};
      var targets := outgoing[nodeId];
      for i := 0 to |targets|
        invariant Valid() && visiting == old(visiting) + {nodeId} && old(visited) <= visited
        invariant Walked(Arcs(), {nodeId}, old(Now()), Now())
        invariant forall k | 0 <= k < i :: targets[k] in visited || targets[k] in visiting
        invariant errors == old(errors) ==> forall k | 0 <= k < i :: targets[k] in visited
        invariant forall b | b in visited :: b in old(visited) || ReachesOff(Arcs(), avoid, nodeId, b)
      {
        ArcsInAt(outgoing, nodeId);
        ReachStep(Arcs(), visiting, nodeId, targets[i]);
        ghost var before := Now();
        Walk(targets[i]);
        OffOnward(Arcs(), avoid, before.visited + visiting, nodeId, targets[i]);
        ReachedFromOne(Arcs(), nodeId, targets[i]);
        WalkedJoin(Arcs(), {nodeId}, targets[i], old(Now()), before, Now());
      }
      ArcsInAt(outgoing, nodeId);
      WalkedFinish(Arcs(), nodeId, old(Now()), Now());
      visiting := visiting - {nodeId};
      visited := visited + {nodeId};
      finished := finished + [nodeId];
      OffVisited(Arcs(), visited, visiting, avoid, nodeId);
    }

    /** Walks from every trigger in turn, as the validator does. */
    method WalkAll(triggers: seq<Node>)
      requires Valid() && visiting == {} && visited == {} && finished == []
      requires forall t | t in triggers :: t.id in outgoing
      modifies this
      ensures Valid() && visiting == {}
      ensures forall t | t in triggers :: t.id in visited
      ensures Walked(Arcs(), set t | t in triggers :: t.id, old(Now()), Now())
    {
      ghost var starts := set t | t in triggers :: t.id;
      hide Walked, ReachesOn, ReachedFrom, TargetsFirst, ArcsIn;
      WalkedNothing(Arcs(), starts, Now());
      for i := 0 to |triggers|
        invariant Valid() && visiting == {}
        invariant forall k | 0 <= k < i :: triggers[k].id in visited
        invariant Walked(Arcs(), starts, old(Now()), Now())
      {
        ghost var before := Now();
        assert triggers[i] in triggers;
        Walk(triggers[i].id);
        ReachedStart(Arcs(), starts, triggers[i].id);
        WalkedJoin(Arcs(), starts, triggers[i].id, old(Now()), before, Now());
      }
    }
  }

  lemma NotOff(arcs: Arcs, avoid: set<string>, a: string)
    ensures a in avoid ==> forall b :: !ReachesOff(arcs, avoid, a, b)
  {
  }

  lemma OffOnward(arcs: Arcs, avoid: set<string>, more: set<string>, a: string, b: string)
    requires avoid <= more && a !in avoid && (a, b) in arcs
    ensures forall c | ReachesOff(arcs, more, b, c) :: ReachesOff(arcs, avoid, a, c)
  {
    forall c | ReachesOff(arcs, more, b, c) ensures ReachesOff(arcs, avoid, a, c) { OffPrepend(arcs, avoid, more, a, b, c); }
  }

  /** Everything that can be reached has been visited, since no arc leads from a visited node to an untouched one. */
  lemma OffVisited(arcs: Arcs, visited: set<string>, visiting: set<string>, avoid: set<string>, a: string)
    requires forall x, y | (x, y) in arcs && x in visited :: y in visited || y in visiting
    requires a in visited && visiting <= avoid
    ensures forall b | ReachesOff(arcs, avoid, a, b) :: b in visited
  {
    forall b | ReachesOff(arcs, avoid, a, b) ensures b in visited {
      ClosedOff(arcs, visited, avoid, a, b);
    }
  }

  lemma ArcsInAt(outgoing: map<string, seq<string>>, a: string)
    requires a in outgoing
    ensures forall b :: (a, b) in ArcsIn(outgoing) <==> b in outgoing[a]
    ensures forall i | 0 <= i < |outgoing[a]| :: (a, outgoing[a][i]) in ArcsIn(outgoing)
  {
  }

  /** What the walk has found so far: nodes entered and left, errors, and nodes in the order they were left. */
  datatype Progress = Progress(visited: set<string>, errors: seq<GraphError>, finished: seq<string>)

  /**
   * Walking from `starts` takes `p` to `q`: only nodes reached from there are added, only cycles reached from
   * there are reported, and while nothing is reported every arc leads to a node left earlier.
   */
  ghost predicate Walked(arcs: Arcs, starts: set<string>, p: Progress, q: Progress) {
    && p.visited <= q.visited
    && (forall a | a in q.visited && a !in p.visited :: ReachedFrom(arcs, starts, a))
    && p.errors <= q.errors
    && (forall i | |p.errors| <= i < |q.errors| :: IsReachedCycle(arcs, starts, q.errors[i]))
    && (p.errors == q.errors && TargetsFirst(arcs, p.finished) ==> TargetsFirst(arcs, q.finished))
  }

  ghost predicate IsReachedCycle(arcs: Arcs, starts: set<string>, e: GraphError) {
    e.CycleAt? && OnCycle(arcs, e.nodeId) && ReachedFrom(arcs, starts, e.nodeId)
  }

  lemma WalkedNothing(arcs: Arcs, starts: set<string>, p: Progress)
    ensures Walked(arcs, starts, p, p)
  {
  }

  /** Meeting a gray node is a back edge: the node lies on a cycle. */
  lemma WalkedBack(arcs: Arcs, start: string, p: Progress)
    requires OnCycle(arcs, start)
    ensures Walked(arcs, {start}, p, p.(errors := p.errors + [CycleAt(start)]))
  {
    ReachedStart(arcs, {start}, start);
  }

  lemma WalkedFinish(arcs: Arcs, start: string, p: Progress, q: Progress)
    requires Walked(arcs, {start}, p, q)
    requires p.errors == q.errors ==> forall y | (start, y) in arcs :: y in q.finished
    ensures Walked(arcs, {start}, p, q.(visited := q.visited + {start}, finished := q.finished + [start]))
  {
    ReachedStart(arcs, {start}, start);
    if p.errors == q.errors && TargetsFirst(arcs, q.finished) {
      TargetsFirstExtend(arcs, q.finished, start);
    }
  }

  lemma WalkedJoin(arcs: Arcs, starts: set<string>, target: string, p: Progress, q: Progress, r: Progress)
    requires ReachedFrom(arcs, starts, target)
    requires Walked(arcs, starts, p, q) && Walked(arcs, {target}, q, r)
    ensures Walked(arcs, starts, p, r)
    ensures p.errors == r.errors ==> p.errors == q.errors
  {
    assert p.errors == r.errors ==> p.errors == q.errors by {
      assert |p.errors| <= |q.errors| <= |r.errors|;
    }
    forall a | ReachedFrom(arcs, {target}, a) ensures ReachedFrom(arcs, starts, a) {
      ReachedFromOne(arcs, target, a);
      ReachedOnward(arcs, starts, target, a);
    }
    hide ReachedFrom;
    forall i | |p.errors| <= i < |r.errors| ensures IsReachedCycle(arcs, starts, r.errors[i]) {
      if i < |q.errors| {
        assert r.errors[i] == q.errors[i];
      }
    }
  }

  lemma ReachStep(arcs: Arcs, visiting: set<string>, nodeId: string, target: string)
    requires (nodeId, target) in arcs
    requires forall g | g in visiting && g != nodeId :: ReachesOn(arcs, g, nodeId)
    ensures Reaches(arcs, nodeId, target)
    ensures forall g | g in visiting :: ReachesOn(arcs, g, target)
  {
    ArcReaches(arcs, nodeId, target);
    ReachesOnIsReaches(arcs, nodeId, target);
    forall g | g in visiting && g != nodeId ensures ReachesOn(arcs, g, target) {
      ReachesOnJoin(arcs, g, nodeId, target);
    }
  }

  // ----- the whole validation

  function TriggerNodes(nodes: seq<Node>): (r: seq<Node>)
    ensures forall n :: n in r <==> n in nodes && n.typ in TRIGGER_TYPES
  {
    if nodes == [] then []
    else
      assert nodes == [nodes[0]] + nodes[1..];
      (if nodes[0].typ in TRIGGER_TYPES then [nodes[0]] else []) + TriggerNodes(nodes[1..])
  }

  ghost function TriggerIdSet(nodes: seq<Node>): set<string> {
    set n | n in nodes && n.typ in TRIGGER_TYPES :: n.id
  }

  lemma TriggerIdStep(node: Node, rest: seq<Node>)
    ensures TriggerIdSet([node] + rest) == TriggerIdSet(rest) + if node.typ in TRIGGER_TYPES then {node.id} else {}
  {
  }

  lemma TriggerIdNew(nodes: seq<Node>)
    requires DistinctIds(nodes) && nodes != []
    ensures nodes[0].id !in TriggerIdSet(nodes[1..]) && DistinctIds(nodes[1..])
  {
  }

  lemma {:induction false} TriggerCount(nodes: seq<Node>)
    requires DistinctIds(nodes)
    ensures |TriggerNodes(nodes)| == |TriggerIdSet(nodes)|
  {
    if nodes != [] {
      TriggerIdStep(nodes[0], nodes[1..]);
      assert nodes == [nodes[0]] + nodes[1..];
      TriggerIdNew(nodes);
      TriggerCount(nodes[1..]);
      hide TriggerIdSet, DistinctIds, TRIGGER_TYPES;
    }
  }

  function ById(nodes: seq<Node>): map<string, Node>
    requires DistinctIds(nodes)
    ensures ById(nodes).Keys == Ids(nodes)
    ensures forall n | n in nodes :: ById(nodes)[n.id] == n
  {
    UniqueById(nodes);
    map n | n in nodes :: n.id := n
  }

  lemma UniqueById(nodes: seq<Node>)
    requires DistinctIds(nodes)
    ensures forall a, b | a in nodes && b in nodes && a.id == b.id :: a == b
  {
    NodeIdDetermines(nodes);
    forall a, b | a in nodes && b in nodes && a.id == b.id ensures a == b {
      assert NodeId(a) == NodeId(b);
    }
  }

  /** The complaint about one edge, if any. */
  ghost function EdgeComplaint(g: Graph, e: Edge): Option<GraphError> {
    if e.from !in Ids(g.nodes) then Some(EdgeSourceUnknown(e))
    else if e.to !in Ids(g.nodes) then Some(EdgeTargetUnknown(e))
    else if !LegalPort(g, e) then Some(PortInvalid(e))
    else None
  }

  ghost function EdgeComplaints(g: Graph, edges: seq<Edge>): seq<GraphError> {
    if edges == [] then []
    else
      var last := |edges| - 1;
      EdgeComplaints(g, edges[..last]) +
      (match EdgeComplaint(g, edges[last]) case Some(x) => [x] case None => [])
  }

  /** Sorts the edges into complaints and adjacency lists. */
  method CollectEdges(g: Graph, byId: map<string, Node>) returns (outgoing: map<string, seq<string>>, errors: seq<GraphError>)
    requires DistinctIds(g.nodes) && byId == ById(g.nodes)
    ensures outgoing.Keys == Ids(g.nodes)
    ensures errors == EdgeComplaints(g, g.edges)
    ensures ArcsIn(outgoing) == ArcsOf(g)
  {
    errors := [];
    outgoing := map id | id in byId :: [];
    for i := 0 to |g.edges|
      invariant outgoing.Keys == Ids(g.nodes)
      invariant errors == EdgeComplaints(g, g.edges[..i])
      invariant ArcsIn(outgoing) == LegalArcs(g, g.edges[..i])
    {
      var edge := g.edges[i];
      hide LegalArcs, ArcsIn, HasPort;
      assert g.edges[..i + 1] == g.edges[..i] + [edge];
      LegalArcsAdd(g, g.edges[..i], edge);
      PortLookup(g, edge);
      if edge.from !in byId {
        errors := errors + [EdgeSourceUnknown(edge)];
      } else if edge.to !in byId {
        errors := errors + [EdgeTargetUnknown(edge)];
      } else if !HasPort(byId[edge.from].typ, edge.port) {
        errors := errors + [PortInvalid(edge)];
      } else {
        ArcsInAdd(outgoing, edge.from, edge.to);
        outgoing := outgoing[edge.from := outgoing[edge.from] + [edge.to]];
      }
    }
    assert g.edges[..|g.edges|] == g.edges;
  }

  lemma LegalArcsAdd(g: Graph, edges: seq<Edge>, e: Edge)
    ensures LegalArcs(g, edges + [e]) == LegalArcs(g, edges) + if LegalEdge(g, e) then {(e.from, e.to)} else {}
  {
  }

  lemma ArcsInAdd(outgoing: map<string, seq<string>>, a: string, b: string)
    requires a in outgoing
    ensures ArcsIn(outgoing[a := outgoing[a] + [b]]) == ArcsIn(outgoing) + {(a, b)}
  {
  }

  lemma PortLookup(g: Graph, e: Edge)
    requires DistinctIds(g.nodes)
    ensures e.from in ById(g.nodes) ==> (LegalPort(g, e) <==> HasPort(ById(g.nodes)[e.from].typ, e.port))
  {
    UniqueById(g.nodes);
  }

  /** After the walk, visited nodes are exactly those a trigger reaches, and cycles are reported exactly. */
  lemma WalkComplete(g: Graph, arcs: Arcs, p: Progress, q: Progress)
    requires arcs == ArcsOf(g) && TriggerIds(g) <= q.visited && p.visited == {} && p.finished == []
    requires Walked(arcs, TriggerIds(g), p, q)
    requires forall a, b | (a, b) in arcs && a in q.visited :: b in q.visited
    requires forall a | a in q.visited :: a in q.finished
    ensures forall id :: id in q.visited <==> FromTrigger(g, id)
    ensures forall i | |p.errors| <= i < |q.errors| :: IsReachedCycle(arcs, TriggerIds(g), q.errors[i])
    ensures p.errors <= q.errors
    ensures (exists id :: OnCycle(arcs, id) && FromTrigger(g, id)) ==> |p.errors| < |q.errors|
  {
    forall id | FromTrigger(g, id) ensures id in q.visited {
      var t :| t in TriggerIds(g) && Reaches(arcs, t, id);
      ClosedSet(arcs, q.visited, t, id);
    }
    if id :| OnCycle(arcs, id) && FromTrigger(g, id) {
      if |p.errors| == |q.errors| {
        assert p.errors == q.errors;
        assert TargetsFirst(arcs, p.finished);
        FinishedOffCycle(arcs, q.finished, id);
      }
    }
  }

  function NodeComplaint(node: Node, options: Options, visited: set<string>): seq<GraphError> {
    (if node.id !in visited then [NodeUnreachable(node.id)] else []) +
    (if ForeignQueue(node, options) then [ReferenceTenantMismatch(node.id, Get(node.config, "queueId").s)] else [])
  }

  ghost function NodeComplaints(nodes: seq<Node>, options: Options, visited: set<string>): seq<GraphError> {
    if nodes == [] then []
    else
      var last := |nodes| - 1;
      NodeComplaints(nodes[..last], options, visited) + NodeComplaint(nodes[last], options, visited)
  }

  /** The complaints about single nodes. */
  method CheckNodes(g: Graph, options: Options, visited: set<string>) returns (errors: seq<GraphError>)
    ensures errors == NodeComplaints(g.nodes, options, visited)
  {
    errors := [];
    for i := 0 to |g.nodes|
      invariant errors == NodeComplaints(g.nodes[..i], options, visited)
    {
      var node := g.nodes[i];
      assert g.nodes[..i + 1] == g.nodes[..i] + [node];
      errors := errors + NodeComplaint(node, options, visited);
    }
    assert g.nodes[..|g.nodes|] == g.nodes;
  }

  lemma EdgeComplaintsMember(g: Graph, edges: seq<Edge>, x: GraphError)
    ensures x in EdgeComplaints(g, edges) <==> exists e | e in edges :: EdgeComplaint(g, e) == Some(x)
  {
    hide LegalPort;
    if edges != [] {
      var last := |edges| - 1;
      assert edges == edges[..last] + [edges[last]];
      EdgeComplaintsMember(g, edges[..last], x);
    }
  }

  lemma NodeComplaintsMember(nodes: seq<Node>, options: Options, visited: set<string>, x: GraphError)
    ensures x in NodeComplaints(nodes, options, visited) <==> exists n | n in nodes :: x in NodeComplaint(n, options, visited)
  {
    hide NodeComplaint;
    if nodes != [] {
      var last := |nodes| - 1;
      assert nodes == nodes[..last] + [nodes[last]];
      NodeComplaintsMember(nodes[..last], options, visited, x);
    }
  }

  predicate IsEdgeError(x: GraphError) { x.EdgeSourceUnknown? || x.EdgeTargetUnknown? || x.PortInvalid? }

  predicate IsNodeError(x: GraphError) { x.NodeUnreachable? || x.ReferenceTenantMismatch? }

  /** An edge error is in the list exactly when an edge draws it. */
  lemma EdgesTogether(g: Graph, errors: seq<GraphError>)
    requires forall x | IsEdgeError(x) :: x in errors <==> x in EdgeComplaints(g, g.edges)
    ensures EdgesExact(g, errors)
  {
    forall e: Edge ensures
      && (EdgeSourceUnknown(e) in errors <==> e in g.edges && EdgeComplaint(g, e) == Some(EdgeSourceUnknown(e)))
      && (EdgeTargetUnknown(e) in errors <==> e in g.edges && EdgeComplaint(g, e) == Some(EdgeTargetUnknown(e)))
      && (PortInvalid(e) in errors <==> e in g.edges && EdgeComplaint(g, e) == Some(PortInvalid(e)))
    {
      hide LegalPort;
      EdgeComplaintsMember(g, g.edges, EdgeSourceUnknown(e));
      EdgeComplaintsMember(g, g.edges, EdgeTargetUnknown(e));
      EdgeComplaintsMember(g, g.edges, PortInvalid(e));
    }
  }

  lemma NodesTogether(g: Graph, options: Options, visited: set<string>, errors: seq<GraphError>)
    requires forall id :: id in visited <==> FromTrigger(g, id)
    requires forall x | IsNodeError(x) :: x in errors <==> x in NodeComplaints(g.nodes, options, visited)
    ensures NodesExact(g, options, errors)
  {
    hide FromTrigger, NodeComplaints;
    forall id ensures NodeUnreachable(id) in errors <==> id in Ids(g.nodes) && id !in visited {
      NodeComplaintsMember(g.nodes, options, visited, NodeUnreachable(id));
      if id in Ids(g.nodes) && id !in visited {
        var n :| n in g.nodes && n.id == id;
        assert NodeUnreachable(id) in NodeComplaint(n, options, visited);
      }
    }
    forall id, q ensures ReferenceTenantMismatch(id, q) in errors <==>
        exists n | n in g.nodes && n.id == id :: ForeignQueue(n, options) && Get(n.config, "queueId") == Str(q) {
      NodeComplaintsMember(g.nodes, options, visited, ReferenceTenantMismatch(id, q));
    }
  }

  lemma {:induction false} ComplaintKinds(g: Graph, options: Options, visited: set<string>)
    ensures forall x | x in EdgeComplaints(g, g.edges) :: IsEdgeError(x)
    ensures forall x | x in NodeComplaints(g.nodes, options, visited) :: IsNodeError(x)
  {
    forall x | x in EdgeComplaints(g, g.edges) ensures IsEdgeError(x) { EdgeComplaintsMember(g, g.edges, x); }
    forall x | x in NodeComplaints(g.nodes, options, visited) ensures IsNodeError(x) {
      NodeComplaintsMember(g.nodes, options, visited, x);
    }
  }

  /** The three lists of complaints together are exactly the complaints the graph deserves. */
  lemma ErrorsTogether(g: Graph, options: Options, triggers: seq<GraphError>, cycles: seq<GraphError>, visited: set<string>)
    requires triggers == if |TriggerIds(g)| != 1 then [TriggerCountInvalid] else []
    requires forall i | 0 <= i < |cycles| :: IsReachedCycle(ArcsOf(g), TriggerIds(g), cycles[i])
    requires (exists id :: OnCycle(ArcsOf(g), id) && FromTrigger(g, id)) ==> cycles != []
    requires forall id :: id in visited <==> FromTrigger(g, id)
    ensures ErrorsExact(g, options,
              triggers + EdgeComplaints(g, g.edges) + cycles + NodeComplaints(g.nodes, options, visited))
  {
    var edgeErrors, nodeErrors := EdgeComplaints(g, g.edges), NodeComplaints(g.nodes, options, visited);
    var errors := triggers + edgeErrors + cycles + nodeErrors;
    ComplaintKinds(g, options, visited);
    hide OnCycle, FromTrigger, EdgeComplaints, NodeComplaints, TriggerIds, ArcsOf, EdgesExact, NodesExact;
    forall x ensures x in errors <==> x in triggers || x in edgeErrors || x in cycles || x in nodeErrors {}
    assert forall x | x in cycles :: x.CycleAt?;
    EdgesTogether(g, errors);
    NodesTogether(g, options, visited, errors);
    CyclesTogether(g, cycles, errors);
  }

  lemma CyclesTogether(g: Graph, cycles: seq<GraphError>, errors: seq<GraphError>)
    requires forall i | 0 <= i < |cycles| :: IsReachedCycle(ArcsOf(g), TriggerIds(g), cycles[i])
    requires (exists id :: OnCycle(ArcsOf(g), id) && FromTrigger(g, id)) ==> cycles != []
    requires forall x: GraphError | x.CycleAt? :: x in errors <==> x in cycles
    ensures CyclesExact(g, errors)
  {
    hide OnCycle, ReachedFrom, LegalArcs, TriggerIdSet;
    forall id | CycleAt(id) in errors ensures OnCycle(ArcsOf(g), id) && FromTrigger(g, id) {
      var i :| 0 <= i < |cycles| && cycles[i] == CycleAt(id);
    }
    if cycles != [] {
      assert cycles[0] in cycles && cycles[0].CycleAt?;
      assert CycleAt(cycles[0].nodeId) in errors;
    }
  }

  method ValidateNormalized(g: Graph, options: Options) returns (r: Validation)
    requires DistinctIds(g.nodes)
    ensures r.graph == Some(g)
    ensures ErrorsExact(g, options, r.errors)
    ensures r.valid <==> ValidGraph(g, options)
  {
    hide *;
    var triggers, triggerErrors := CheckTriggers(g);
    var outgoing, edgeErrors := CollectEdges(g, ById(g.nodes));
    var walk := new GraphWalk(outgoing, triggerErrors + edgeErrors);
    WalkFrom(g, triggers, walk);
    var nodeErrors := CheckNodes(g, options, walk.visited);
    var errors := walk.errors + nodeErrors;
    ghost var cycles := walk.errors[|triggerErrors + edgeErrors|..];
    assert errors == triggerErrors + edgeErrors + cycles + nodeErrors;
    ErrorsTogether(g, options, triggerErrors, cycles, walk.visited);
    NoErrorsIffValid(g, options, errors);
    r := Validation(errors == [], Some(g), errors);
  }

  method CheckTriggers(g: Graph) returns (triggers: seq<Node>, errors: seq<GraphError>)
    requires DistinctIds(g.nodes)
    ensures triggers == TriggerNodes(g.nodes)
    ensures errors == if |TriggerIds(g)| != 1 then [TriggerCountInvalid] else []
  {
    triggers := TriggerNodes(g.nodes);
    TriggerCount(g.nodes);
    errors := if |triggers| != 1 then [TriggerCountInvalid] else [];
  }

  method WalkFrom(g: Graph, triggers: seq<Node>, walk: GraphWalk)
    requires walk.visiting == walk.visited == {} && walk.finished == []
    requires walk.outgoing.Keys == Ids(g.nodes) && ArcsIn(walk.outgoing) == ArcsOf(g)
    requires triggers == TriggerNodes(g.nodes)
    modifies walk
    ensures old(walk.errors) <= walk.errors
    ensures forall id :: id in walk.visited <==> FromTrigger(g, id)
    ensures forall i | |old(walk.errors)| <= i < |walk.errors| :: IsReachedCycle(ArcsOf(g), TriggerIds(g), walk.errors[i])
    ensures (exists id :: OnCycle(ArcsOf(g), id) && FromTrigger(g, id)) ==> |old(walk.errors)| < |walk.errors|
  {
    ghost var before := walk.Now();
    ArcsStay(g, walk.outgoing);
    hide OnCycle, ReachedFrom, Walked, TargetsFirst, LegalArcs, ArcsIn;
    walk.WalkAll(triggers);
    assert TriggerIds(g) == set t | t in triggers :: t.id;
    WalkComplete(g, ArcsOf(g), before, walk.Now());
  }

  method ValidateGraph(value: Json, options: Options, lt: Collation) returns (r: Validation)
    ensures NormalizeGraph(value, lt).Err? ==> r == Validation(false, None, [SchemaRejected(NormalizeGraph(value, lt).error)])
    ensures NormalizeGraph(value, lt).Ok? ==>
              && r.graph == Some(NormalizeGraph(value, lt).value)
              && ErrorsExact(r.graph.value, options, r.errors)
              && (r.valid <==> ValidGraph(r.graph.value, options))
  {
    var normalized := NormalizeGraph(value, lt);
    if normalized.Err? {
      return Validation(false, None, [SchemaRejected(normalized.error)]);
    }
    r := ValidateNormalized(normalized.value, options);
  }

  lemma ArcsStay(g: Graph, outgoing: map<string, seq<string>>)
    requires outgoing.Keys == Ids(g.nodes) && ArcsIn(outgoing) == ArcsOf(g)
    ensures forall a, b | (a, b) in ArcsIn(outgoing) :: b in outgoing
  {
  }

  // ----- validity in plain terms

  /** One trigger that reaches every node, edges between nodes of the graph through `next`, no cycle, no foreign queue. */
  ghost predicate PlainlyValid(g: Graph, options: Options) {
    var arcs := set e | e in g.edges :: (e.from, e.to);
    && (exists t | t in g.nodes :: IsStart(g, t) && forall n | n in g.nodes :: Reaches(arcs, t.id, n.id))
    && (forall e | e in g.edges :: PlainEdge(g, e))
    && (forall a :: !OnCycle(arcs, a))
    && (forall n | n in g.nodes :: !PlainlyForeign(n, options))
  }

  /** The only trigger. */
  ghost predicate IsStart(g: Graph, t: Node) {
    t in g.nodes && "trigger." <= t.typ && forall n | n in g.nodes && "trigger." <= n.typ :: n == t
  }

  ghost predicate PlainEdge(g: Graph, e: Edge) {
    (exists n | n in g.nodes :: n.id == e.from) && (exists n | n in g.nodes :: n.id == e.to) && e.port == "next"
  }

  ghost predicate PlainlyForeign(n: Node, options: Options) {
    exists q :: Get(n.config, "queueId") == Str(q) && q != ""
                && options.queues.Some? && q in options.queues.value && options.queues.value[q] != options.tenantId
  }

  lemma TriggerTypesTell(typ: string)
    ensures typ in NODE_TYPES <==>
      typ == "trigger.conversation_opened" || typ == "trigger.message_received" || typ == "trigger.sla_breached"
      || typ == "trigger.schedule_elapsed" || typ == "action.assign_queue" || typ == "action.assign_user"
      || typ == "action.add_tag" || typ == "action.send_template" || typ == "action.create_task" || typ == "action.handoff"
    ensures typ in NODE_TYPES ==> (typ in TRIGGER_TYPES <==> "trigger." <= typ)
  {
    assert typ in ACTION_TYPES ==> typ[0] == 'a';
    assert "trigger."[0] == 't';
    if typ in TRIGGER_TYPES { assert typ[..8] == "trigger."; }
  }

  lemma ForeignTells(n: Node, options: Options)
    ensures ForeignQueue(n, options) <==> PlainlyForeign(n, options)
  {
    if ForeignQueue(n, options) { assert Get(n.config, "queueId") == Str(Get(n.config, "queueId").s); }
  }

  lemma Singleton(s: set<string>, a: string, b: string)
    requires |s| == 1 && a in s && b in s
    ensures a == b
  {
    assert |s - {a}| == 0;
  }

  lemma StartTriggers(g: Graph, t: Node)
    requires (forall n | n in g.nodes :: n.typ in NODE_TYPES) && IsStart(g, t)
    ensures TriggerIds(g) == {t.id}
  {
    hide NODE_TYPES, TRIGGER_TYPES;
    forall n | n in g.nodes ensures n.typ in TRIGGER_TYPES <==> "trigger." <= n.typ { TriggerTypesTell(n.typ); }
  }

  lemma TheStart(g: Graph) returns (t: Node)
    requires DistinctIds(g.nodes) && (forall n | n in g.nodes :: n.typ in NODE_TYPES) && |TriggerIds(g)| == 1
    ensures IsStart(g, t)
  {
    hide NODE_TYPES, TRIGGER_TYPES;
    forall n | n in g.nodes ensures n.typ in TRIGGER_TYPES <==> "trigger." <= n.typ { TriggerTypesTell(n.typ); }
    UniqueById(g.nodes);
    var id :| id in TriggerIds(g);
    t :| t in g.nodes && t.typ in TRIGGER_TYPES && t.id == id;
    forall n | n in g.nodes && "trigger." <= n.typ ensures n == t {
      assert n.id in TriggerIds(g);
      Singleton(TriggerIds(g), n.id, t.id);
    }
  }

  lemma StartReaches(g: Graph, t: Node, id: string)
    requires TriggerIds(g) == {t.id}
    ensures FromTrigger(g, id) <==> Reaches(ArcsOf(g), t.id, id)
  {
    hide LegalArcs, TriggerIds;
    ReachedFromOne(ArcsOf(g), t.id, id);
  }

  lemma PlainArcs(g: Graph)
    requires forall e | e in g.edges :: LegalEdge(g, e)
    ensures ArcsOf(g) == set e | e in g.edges :: (e.from, e.to)
  {
    hide LegalEdge;
  }

  /** A normalised graph is valid in the sense of the validator exactly when it is in plain terms. */
  lemma ValidGraphTells(g: Graph, options: Options)
    requires DistinctIds(g.nodes) && forall n | n in g.nodes :: n.typ in NODE_TYPES
    ensures ValidGraph(g, options) <==> PlainlyValid(g, options)
  {
    hide LegalEdge, PlainEdge, ForeignQueue, PlainlyForeign, Reaches, OnCycle, TriggerIds, DistinctIds, IsStart, FromTrigger,
      LegalArcs, NODE_TYPES, TRIGGER_TYPES;
    forall e | e in g.edges ensures LegalEdge(g, e) <==> PlainEdge(g, e) { PlainEdgeTells(g, e); }
    forall n | n in g.nodes ensures ForeignQueue(n, options) <==> PlainlyForeign(n, options) { ForeignTells(n, options); }
    if forall e | e in g.edges :: LegalEdge(g, e) { PlainArcs(g); }
    if ValidGraph(g, options) {
      var t := TheStart(g);
      StartIn(g, t);
      StartTriggers(g, t);
      forall n | n in g.nodes ensures Reaches(ArcsOf(g), t.id, n.id) { StartReaches(g, t, n.id); }
    }
    if PlainlyValid(g, options) {
      var t :| t in g.nodes && IsStart(g, t) && forall n | n in g.nodes :: Reaches(ArcsOf(g), t.id, n.id);
      StartTriggers(g, t);
      forall n | n in g.nodes ensures FromTrigger(g, n.id) { StartReaches(g, t, n.id); }
    }
  }

  lemma PlainEdgeTells(g: Graph, e: Edge)
    requires forall n | n in g.nodes :: n.typ in NODE_TYPES
    ensures LegalEdge(g, e) <==> PlainEdge(g, e)
  {
    LegalEdgeTells(g, e);
  }

  lemma StartIn(g: Graph, t: Node)
    requires IsStart(g, t)
    ensures t in g.nodes
  {
  }
}
