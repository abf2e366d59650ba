/** Canonical form of automation graphs (modules/automation/graph-schema.js). */
module GraphSchema {
  import opened Ordering
  import opened JsonValue

  datatype Node = Node(id: string, typ: string, config: Json)
  datatype Edge = Edge(from: string, to: string, port: string)
  datatype Graph = Graph(nodes: seq<Node>, edges: seq<Edge>)

  datatype SchemaError =
    | NodesInvalid
    | EdgesInvalid
    | NodeIdInvalid
    | NodeTypeUnsupported
    | NodeIdDuplicate
    | EdgeInvalid

  datatype Result<T> = Ok(value: T) | Err(error: SchemaError)

  const TRIGGER_TYPES: set<string> := {
    "trigger.conversation_opened", "trigger.message_received", "trigger.sla_breached", "trigger.schedule_elapsed"
  }

  const ACTION_TYPES: set<string> := {
    "action.assign_queue", "action.assign_user", "action.add_tag",
    "action.send_template", "action.create_task", "action.handoff"
  }

  const NODE_TYPES: set<string> := TRIGGER_TYPES + ACTION_TYPES

  predicate IsIdChar(c: char) {
    'A' <= c <= 'Z' || 'a' <= c <= 'z' || '0' <= c <= '9' || c == '_' || c == '-'
  }

  predicate IsId(s: string) {
    1 <= |s| <= 128 && forall i | 0 <= i < |s| :: IsIdChar(s[i])
  }

  predicate IsObject(v: Json) { v.Obj? || v.Arr? }

  function IdText(v: Json, name: string): string {
    ToText(Or(Get(v, name), Str("")))
  }

  function NormalizeNode(v: Json): (r: Result<Node>) {
    if !IsObject(v) || !IsId(IdText(v, "id")) then Err(NodeIdInvalid)
    else
      var typ := Get(v, "type");
      if !typ.Str? || typ.s !in NODE_TYPES then Err(NodeTypeUnsupported)
      else Ok(Node(IdText(v, "id"), typ.s, SortObject(Or(Get(v, "config"), Obj([])))))
  }

  function NormalizeEdge(v: Json): (r: Result<Edge>) {
    if !IsObject(v) || !IsId(IdText(v, "from")) || !IsId(IdText(v, "to")) then Err(EdgeInvalid)
    else Ok(Edge(IdText(v, "from"), IdText(v, "to"), ToText(Or(Get(v, "port"), Str("next")))))
  }

  /** `values.map(f)` where the first throw wins. */
  function MapAll<T>(f: Json -> Result<T>, values: seq<Json>): (r: Result<seq<T>>)
    ensures r.Ok? <==> forall v | v in values :: f(v).Ok?
    ensures r.Ok? ==> |r.value| == |values| && forall i | 0 <= i < |values| :: f(values[i]) == Ok(r.value[i])
    ensures r.Err? ==> exists v | v in values :: f(v) == Err(r.error)
  {
    if values == [] then Ok([])
    else
      match f(values[0])
      case Err(e) => Err(e)
      case Ok(x) =>
        match MapAll(f, values[1..])
        case Err(e) => Err(e)
        case Ok(xs) => Ok([x] + xs)
  }

  function NodeId(n: Node): string { n.id }

  /** The sort key of an edge: `from:port:to`. */
  function EdgeKey(e: Edge): string { e.from + ":" + e.port + ":" + e.to }

  function Ids(nodes: seq<Node>): set<string> { set n | n in nodes :: n.id }

  predicate DistinctIds(nodes: seq<Node>) {
    forall i, j | 0 <= i < j < |nodes| :: nodes[i].id != nodes[j].id
  }

  function NormalizeGraph(v: Json, lt: Collation): (r: Result<Graph>) {
    if !IsObject(v) || !Get(v, "nodes").Arr? then Err(NodesInvalid)
    else if !Get(v, "edges").Arr? then Err(EdgesInvalid)
    else NormalizeLists(Get(v, "nodes").items, Get(v, "edges").items, lt)
  }

  function NormalizeLists(nodeValues: seq<Json>, edgeValues: seq<Json>, lt: Collation): (r: Result<Graph>) {
    match MapAll(NormalizeNode, nodeValues)
    case Err(e) => Err(e)
    case Ok(found) =>
      var nodes := Sort(found, NodeId, lt);
      if !DistinctIds(nodes) then Err(NodeIdDuplicate)
      else
        match MapAll(NormalizeEdge, edgeValues)
        case Err(e) => Err(e)
        case Ok(edges) => Ok(Graph(nodes, Sort(edges, EdgeKey, lt)))
  }

  /** The normalised graph written back as a JSON value. */
  function NodeValue(n: Node): Json {
    Obj([Prop("id", Str(n.id)), Prop("type", Str(n.typ)), Prop("config", n.config)])
  }

  function EdgeValue(e: Edge): Json {
    Obj([Prop("from", Str(e.from)), Prop("to", Str(e.to)), Prop("port", Str(e.port))])
  }

  function GraphValue(g: Graph): Json {
    Obj([Prop("nodes", Arr(Map(NodeValue, g.nodes))), Prop("edges", Arr(Map(EdgeValue, g.edges)))])
  }

  ghost predicate NormalNode(n: Node) {
    IsId(n.id) && n.typ in NODE_TYPES && Wf(n.config) && Truthy(n.config) && SortObject(n.config) == n.config
  }

  ghost predicate NormalEdge(e: Edge) { IsId(e.from) && IsId(e.to) }

  /** What every graph returned by NormalizeGraph looks like. */
  ghost predicate Normal(g: Graph, lt: Collation) {
    && DistinctIds(g.nodes)
    && Sorted(g.nodes, NodeId, lt)
    && Sorted(g.edges, EdgeKey, lt)
    && (forall n | n in g.nodes :: NormalNode(n))
    && (forall e | e in g.edges :: NormalEdge(e))
  }

  // ----- the edge key tells edges apart

  lemma NoColon(s: string, i: nat)
    requires IsId(s) && i < |s|
    ensures s[i] != ':'
  {
    assert IsIdChar(s[i]);
  }

  lemma FromLength(a: Edge, b: Edge)
    requires NormalEdge(a) && NormalEdge(b) && EdgeKey(a) == EdgeKey(b)
    ensures |a.from| <= |b.from|
  {
    var i := if |b.from| < |a.from| then |b.from| else 0;
    assert EdgeKey(b)[|b.from|] == ':';
    assert EdgeKey(a)[i] == a.from[i];
    NoColon(a.from, i);
  }

  lemma ToLength(a: Edge, b: Edge)
    requires NormalEdge(a) && NormalEdge(b) && EdgeKey(a) == EdgeKey(b)
    ensures |a.to| <= |b.to|
  {
    var n := |EdgeKey(a)|;
    var i := if |b.to| < |a.to| then |a.to| - 1 - |b.to| else 0;
    assert EdgeKey(b)[n - 1 - |b.to|] == ':';
    assert EdgeKey(a)[n - |a.to| + i] == a.to[i];
    NoColon(a.to, i);
  }

  /** Ports may contain colons, ids may not, so `from:port:to` is injective. */
  lemma EdgeKeyInjective(a: Edge, b: Edge)
    requires NormalEdge(a) && NormalEdge(b) && EdgeKey(a) == EdgeKey(b)
    ensures a == b
  {
    FromLength(a, b);
    FromLength(b, a);
    ToLength(a, b);
    ToLength(b, a);
    var ka, kb := EdgeKey(a), EdgeKey(b);
    var m, n := |a.from|, |ka| - |a.to|;
    assert a.from == ka[..m] && b.from == kb[..m];
    assert a.to == ka[n..] && b.to == kb[n..];
    assert a.port == ka[m + 1..n - 1] && b.port == kb[m + 1..n - 1];
  }

  lemma EdgeKeyDetermines(edges: seq<Edge>)
    requires forall e | e in edges :: NormalEdge(e)
    ensures KeyDetermines(edges, EdgeKey)
  {
    forall a, b | a in edges && b in edges && EdgeKey(a) == EdgeKey(b) ensures a == b {
      EdgeKeyInjective(a, b);
    }
  }

  lemma NodeIdDetermines(nodes: seq<Node>)
    requires DistinctIds(nodes)
    ensures KeyDetermines(nodes, NodeId)
  {
    forall a, b | a in nodes && b in nodes && NodeId(a) == NodeId(b) ensures a == b {
      var i :| 0 <= i < |nodes| && nodes[i] == a;
      var j :| 0 <= j < |nodes| && nodes[j] == b;
    }
  }

  // ----- the result is in canonical form

  lemma {:induction false} NormalizeNodeNormal(v: Json)
    requires Wf(v) && NormalizeNode(v).Ok?
    ensures NormalNode(NormalizeNode(v).value)
  {
    var c := Or(Get(v, "config"), Obj([]));
    LookupWf(v, "config");
    SortObjectWf(c);
    SortObjectIdempotent(c);
  }

  lemma {:induction false} ItemsWf(v: Json, name: string)
    requires Wf(v) && Get(v, name).Arr?
    ensures forall x | x in Get(v, name).items :: Wf(x)
  {
    LookupWf(v, name);
  }

  lemma {:induction false} AllNormalNodes(values: seq<Json>, nodes: seq<Node>)
    requires forall v | v in values :: Wf(v)
    requires MapAll(NormalizeNode, values) == Ok(nodes)
    ensures forall n | n in nodes :: NormalNode(n)
  {
    forall n | n in nodes ensures NormalNode(n) {
      var i :| 0 <= i < |nodes| && nodes[i] == n;
      assert values[i] in values;
      NormalizeNodeNormal(values[i]);
    }
  }

  lemma {:induction false} AllNormalEdges(values: seq<Json>, edges: seq<Edge>)
    requires MapAll(NormalizeEdge, values) == Ok(edges)
    ensures forall e | e in edges :: NormalEdge(e)
  {
    forall e | e in edges ensures NormalEdge(e) {
      var i :| 0 <= i < |edges| && edges[i] == e;
      assert NormalizeEdge(values[i]) == Ok(e);
    }
  }

  lemma SortedMembers<T, K>(xs: seq<T>, key: T -> K, lt: (K, K) -> bool)
    ensures forall x | x in Sort(xs, key, lt) :: x in xs
  {
    forall x | x in Sort(xs, key, lt) ensures x in xs { MultisetMembers(xs, Sort(xs, key, lt), x); }
  }

  lemma {:induction false} NormalizeGraphNormal(v: Json, lt: Collation)
    requires Wf(v) && NormalizeGraph(v, lt).Ok?
    ensures Normal(NormalizeGraph(v, lt).value, lt)
  {
    var g := NormalizeGraph(v, lt).value;
    var found := MapAll(NormalizeNode, Get(v, "nodes").items).value;
    var edges := MapAll(NormalizeEdge, Get(v, "edges").items).value;
    ItemsWf(v, "nodes");
    AllNormalNodes(Get(v, "nodes").items, found);
    AllNormalEdges(Get(v, "edges").items, edges);
    SortSorted(found, NodeId, lt);
    SortSorted(edges, EdgeKey, lt);
    SortedMembers(found, NodeId, lt);
    SortedMembers(edges, EdgeKey, lt);
  }

  // ----- nothing is lost or invented

  ghost predicate NodeReads(n: Node, v: Json) {
    n.id == ToText(Get(v, "id")) && Get(v, "type") == Str(n.typ)
    && SameJson(if Truthy(Get(v, "config")) then Get(v, "config") else Obj([]), n.config)
  }

  ghost predicate EdgeReads(e: Edge, v: Json) {
    e.from == ToText(Get(v, "from")) && e.to == ToText(Get(v, "to"))
    && e.port == if Truthy(Get(v, "port")) then ToText(Get(v, "port")) else "next"
  }

  lemma {:induction false} NodeReadsBack(v: Json)
    requires Wf(v) && NormalizeNode(v).Ok?
    ensures NodeReads(NormalizeNode(v).value, v)
  {
    var c := Or(Get(v, "config"), Obj([]));
    LookupWf(v, "config");
    SameAsSorted(c);
    hide SortObject, SameJson;
    assert Truthy(Get(v, "id")) by { EmptyIsNoId(); }
  }

  lemma EmptyIsNoId()
    ensures !IsId("") && ToText(Str("")) == ""
  {
  }

  lemma {:induction false} EdgeReadsBack(v: Json)
    requires NormalizeEdge(v).Ok?
    ensures EdgeReads(NormalizeEdge(v).value, v)
  {
    EmptyIsNoId();
  }

  /**
   * The nodes and edges of the result are those of the input, one for one and up to order: same ids and types, the
   * same configs up to key order, the same ends, and the same ports or `next`.
   */
  lemma {:induction false} NormalizePreserves(v: Json, lt: Collation) returns (nodes: seq<Node>, edges: seq<Edge>)
    requires Wf(v) && NormalizeGraph(v, lt).Ok?
    ensures var g := NormalizeGraph(v, lt).value; multiset(nodes) == multiset(g.nodes) && multiset(edges) == multiset(g.edges)
    ensures |nodes| == |Get(v, "nodes").items| && |edges| == |Get(v, "edges").items|
    ensures forall i | 0 <= i < |nodes| :: NodeReads(nodes[i], Get(v, "nodes").items[i])
    ensures forall i | 0 <= i < |edges| :: EdgeReads(edges[i], Get(v, "edges").items[i])
  {
    hide NormalizeNode, NormalizeEdge, NodeReads, EdgeReads, Wf, Sort;
    var ns, es := Get(v, "nodes").items, Get(v, "edges").items;
    ItemsWf(v, "nodes");
    nodes, edges := MapAll(NormalizeNode, ns).value, MapAll(NormalizeEdge, es).value;
    forall i | 0 <= i < |nodes| ensures NodeReads(nodes[i], ns[i]) {
      assert ns[i] in ns;
      NodeReadsBack(ns[i]);
    }
    forall i | 0 <= i < |edges| ensures EdgeReads(edges[i], es[i]) {
      EdgeReadsBack(es[i]);
    }
  }

  // ----- idempotence

  lemma {:induction false} NodeValueBack(n: Node)
    requires NormalNode(n)
    ensures NormalizeNode(NodeValue(n)) == Ok(n)
  {
    hide Wf, SortObject;
    var ps := NodeValue(n).props;
    assert Lookup(ps, "id") == Str(n.id);
    assert Lookup(ps, "type") == Lookup(ps[1..], "type") == Str(n.typ);
    assert Lookup(ps, "config") == Lookup(ps[1..], "config") == Lookup(ps[1..][1..], "config") == n.config;
  }

  lemma EdgeValueBack(e: Edge)
    requires NormalEdge(e)
    ensures NormalizeEdge(EdgeValue(e)) == Ok(e.(port := if e.port == "" then "next" else e.port))
  {
    var ps := EdgeValue(e).props;
    assert Lookup(ps, "from") == Str(e.from);
    assert Lookup(ps, "to") == Lookup(ps[1..], "to") == Str(e.to);
    assert Lookup(ps, "port") == Lookup(ps[1..], "port") == Lookup(ps[1..][1..], "port") == Str(e.port);
  }

  lemma GraphValueParts(g: Graph)
    ensures Get(GraphValue(g), "nodes") == Arr(Map(NodeValue, g.nodes))
    ensures Get(GraphValue(g), "edges") == Arr(Map(EdgeValue, g.edges))
  {
    var ps := GraphValue(g).props;
    assert Lookup(ps, "edges") == Lookup(ps[1..], "edges");
  }

  lemma NodesBack(nodes: seq<Node>)
    requires forall n | n in nodes :: NormalNode(n)
    ensures MapAll(NormalizeNode, Map(NodeValue, nodes)) == Ok(nodes)
  {
    var values := Map(NodeValue, nodes);
    forall i | 0 <= i < |nodes| ensures NormalizeNode(values[i]) == Ok(nodes[i]) {
      assert nodes[i] in nodes;
      NodeValueBack(nodes[i]);
    }
    assert MapAll(NormalizeNode, values).Ok?;
    assert MapAll(NormalizeNode, values).value == nodes;
  }

  function FillPort(e: Edge): Edge { e.(port := if e.port == "" then "next" else e.port) }

  lemma EdgesBack(edges: seq<Edge>)
    requires forall e | e in edges :: NormalEdge(e)
    ensures MapAll(NormalizeEdge, Map(EdgeValue, edges)) == Ok(Map(FillPort, edges))
  {
    var values := Map(EdgeValue, edges);
    forall i | 0 <= i < |edges| ensures NormalizeEdge(values[i]) == Ok(FillPort(edges[i])) {
      assert edges[i] in edges;
      EdgeValueBack(edges[i]);
    }
    assert MapAll(NormalizeEdge, values).Ok?;
    assert MapAll(NormalizeEdge, values).value == Map(FillPort, edges);
  }

  predicate NoEmptyPort(g: Graph) { forall e | e in g.edges :: e.port != "" }

  lemma Renormalized(g: Graph, lt: Collation)
    requires Normal(g, lt)
    ensures NormalizeGraph(GraphValue(g), lt) == Ok(Graph(g.nodes, Sort(Map(FillPort, g.edges), EdgeKey, lt)))
  {
    GraphValueParts(g);
    NodesBack(g.nodes);
    EdgesBack(g.edges);
    NodeIdDetermines(g.nodes);
    SortOfSorted(g.nodes, NodeId, lt);
  }

  lemma FilledEdges(edges: seq<Edge>, lt: Collation)
    requires Sorted(edges, EdgeKey, lt) && forall e | e in edges :: NormalEdge(e)
    ensures Sort(Map(FillPort, edges), EdgeKey, lt) == edges <==> forall e | e in edges :: e.port != ""
  {
    var filled := Map(FillPort, edges);
    if e :| e in edges && e.port == "" {
      SortedMembers(filled, EdgeKey, lt);
      assert forall x | x in Sort(filled, EdgeKey, lt) :: x.port != "";
    } else {
      forall i | 0 <= i < |filled| ensures filled[i] == edges[i] { assert edges[i] in edges; }
      assert filled == edges;
      EdgeKeyDetermines(edges);
      SortOfSorted(edges, EdgeKey, lt);
    }
  }

  /** Normalising a normalised graph changes nothing exactly when no port is the empty text. */
  lemma NormalizeIdempotent(g: Graph, lt: Collation)
    requires Normal(g, lt)
    ensures NormalizeGraph(GraphValue(g), lt) == Ok(g) <==> NoEmptyPort(g)
  {
    Renormalized(g, lt);
    FilledEdges(g.edges, lt);
  }

  /** The port of a raw edge comes out empty exactly when it is an array whose text is empty. */
  predicate EmptyPortInput(edge: Json) {
    Get(edge, "port").Arr? && ToText(Get(edge, "port")) == ""
  }

  lemma {:induction false} EmptyPortFrom(edge: Json)
    requires Wf(edge) && NormalizeEdge(edge).Ok?
    ensures NormalizeEdge(edge).value.port == "" <==> EmptyPortInput(edge)
  {
    LookupWf(edge, "port");
  }

  lemma SortKeepsPorts(edges: seq<Edge>, lt: Collation)
    ensures (forall e | e in Sort(edges, EdgeKey, lt) :: e.port != "") <==> forall i | 0 <= i < |edges| :: edges[i].port != ""
  {
    var sorted := Sort(edges, EdgeKey, lt);
    SortedMembers(edges, EdgeKey, lt);
    if i :| 0 <= i < |edges| && edges[i].port == "" {
      MultisetMembers(edges, sorted, edges[i]);
    }
  }

  lemma {:induction false} PortsFrom(values: seq<Json>, edges: seq<Edge>)
    requires MapAll(NormalizeEdge, values) == Ok(edges) && forall v | v in values :: Wf(v)
    ensures |edges| == |values|
    ensures forall i | 0 <= i < |values| :: edges[i].port == "" <==> EmptyPortInput(values[i])
  {
    forall i | 0 <= i < |values| ensures edges[i].port == "" <==> EmptyPortInput(values[i]) {
      assert values[i] in values && NormalizeEdge(values[i]) == Ok(edges[i]);
      EmptyPortFrom(values[i]);
    }
  }

  /**
   * Idempotence of normalizeGraph, on every input it accepts: it holds if and only if no edge was given
   * an array port that prints as nothing (such a port is truthy the first time and falsy the second).
   */
  lemma {:induction false} NormalizeTwice(v: Json, lt: Collation)
    requires Wf(v) && NormalizeGraph(v, lt).Ok?
    ensures NormalizeGraph(GraphValue(NormalizeGraph(v, lt).value), lt) == NormalizeGraph(v, lt)
       <==> forall e | e in Get(v, "edges").items :: !EmptyPortInput(e)
  {
    var values := Get(v, "edges").items;
    var edges := MapAll(NormalizeEdge, values).value;
    ItemsWf(v, "edges");
    NormalizeGraphNormal(v, lt);
    NormalizeIdempotent(NormalizeGraph(v, lt).value, lt);
    PortsFrom(values, edges);
    SortKeepsPorts(edges, lt);
  }

  // ----- order does not matter

  /** The same elements in any order, each up to the order of its object keys. */
  ghost predicate Reordered(xs: seq<Json>, ys: seq<Json>) {
    multiset(Map(SortObject, xs)) == multiset(Map(SortObject, ys))
  }

  /** Two graph values that list the same nodes and the same edges. */
  ghost predicate SameGraph(v: Json, w: Json) {
    && Wf(v) && Wf(w)
    && IsObject(v) && IsObject(w)
    && Get(v, "nodes").Arr? && Get(w, "nodes").Arr? && Reordered(Get(v, "nodes").items, Get(w, "nodes").items)
    && Get(v, "edges").Arr? && Get(w, "edges").Arr? && Reordered(Get(v, "edges").items, Get(w, "edges").items)
  }

  lemma {:induction false} SameOr(a: Json, b: Json, name: string, fallback: Json)
    requires Wf(a) && Wf(b) && SameJson(a, b) && Wf(fallback)
    ensures SameJson(Or(Get(a, name), fallback), Or(Get(b, name), fallback))
    ensures Wf(Or(Get(a, name), fallback)) && Wf(Or(Get(b, name), fallback))
    ensures ToText(Or(Get(a, name), fallback)) == ToText(Or(Get(b, name), fallback))
  {
    SameProps(a, b, name);
    SameText(Get(a, name), Get(b, name));
    LookupWf(a, name);
    LookupWf(b, name);
    SameAsSelf(fallback);
    SameText(Or(Get(a, name), fallback), Or(Get(b, name), fallback));
  }

  lemma {:induction false} SameAsSelf(v: Json)
    requires Wf(v)
    ensures SameJson(v, v)
  {
    SortsAlikeSame(v, v);
  }

  lemma {:induction false} SameType(a: Json, b: Json)
    requires SameJson(a, b) && (a.Str? || b.Str?)
    ensures a == b
  {
  }

  lemma {:induction false} SameKinds(a: Json, b: Json)
    requires SameJson(a, b)
    ensures IsObject(a) == IsObject(b)
  {
  }

  lemma {:induction false} SameConfig(a: Json, b: Json)
    requires Wf(a) && Wf(b) && SameJson(a, b)
    ensures SortObject(Or(Get(a, "config"), Obj([]))) == SortObject(Or(Get(b, "config"), Obj([])))
  {
    SameOr(a, b, "config", Obj([]));
    SameSortsAlike(Or(Get(a, "config"), Obj([])), Or(Get(b, "config"), Obj([])));
  }

  lemma EmptyWf()
    ensures Wf(Str(""))
  {
  }

  lemma {:induction false} SameNodeAlike(a: Json, b: Json)
    requires Wf(a) && Wf(b) && SameJson(a, b)
    ensures NormalizeNode(a) == NormalizeNode(b)
  {
    hide Wf, SameJson, SortObject;
    EmptyWf();
    SameKinds(a, b);
    SameOr(a, b, "id", Str(""));
    SameProps(a, b, "type");
    if Get(a, "type").Str? || Get(b, "type").Str? { SameType(Get(a, "type"), Get(b, "type")); }
    SameConfig(a, b);
  }

  lemma {:induction false} SameEdgeAlike(a: Json, b: Json)
    requires Wf(a) && Wf(b) && SameJson(a, b)
    ensures NormalizeEdge(a) == NormalizeEdge(b)
  {
    SameOr(a, b, "from", Str(""));
    SameOr(a, b, "to", Str(""));
    SameOr(a, b, "port", Str("next"));
  }

  /** A reading of JSON values that does not see key order. */
  ghost predicate KeyOrderBlind<T(!new)>(f: Json -> T) {
    forall a: Json | Wf(a) :: f(SortObject(a)) == f(a)
  }

  lemma {:induction false} NormalizersBlind()
    ensures KeyOrderBlind(NormalizeNode) && KeyOrderBlind(NormalizeEdge)
  {
    forall a: Json | Wf(a)
      ensures NormalizeNode(SortObject(a)) == NormalizeNode(a) && NormalizeEdge(SortObject(a)) == NormalizeEdge(a)
    {
      SameAsSorted(a);
      SortObjectWf(a);
      SameNodeAlike(a, SortObject(a));
      SameEdgeAlike(a, SortObject(a));
    }
  }

  lemma {:induction false} ReorderedImages<T(!new)>(f: Json -> T, xs: seq<Json>, ys: seq<Json>)
    requires KeyOrderBlind(f) && Reordered(xs, ys)
    requires (forall x | x in xs :: Wf(x)) && (forall y | y in ys :: Wf(y))
    ensures multiset(Map(f, xs)) == multiset(Map(f, ys))
  {
    MapOrderFree(f, Map(SortObject, xs), Map(SortObject, ys));
    forall i | 0 <= i < |xs| ensures Map(f, Map(SortObject, xs))[i] == Map(f, xs)[i] { assert xs[i] in xs; }
    forall i | 0 <= i < |ys| ensures Map(f, Map(SortObject, ys))[i] == Map(f, ys)[i] { assert ys[i] in ys; }
    assert Map(f, Map(SortObject, xs)) == Map(f, xs);
    assert Map(f, Map(SortObject, ys)) == Map(f, ys);
  }

  function Unwrap<T>(r: Result<T>, default: T): T { if r.Ok? then r.value else default }

  lemma MapAllImages<T>(f: Json -> Result<T>, xs: seq<Json>, ys: seq<Json>)
    requires multiset(Map(f, xs)) == multiset(Map(f, ys))
    ensures MapAll(f, xs).Ok? ==> MapAll(f, ys).Ok?
  {
    if MapAll(f, xs).Ok? {
      forall y | y in ys ensures f(y).Ok? {
        var j :| 0 <= j < |ys| && ys[j] == y;
        MultisetMembers(Map(f, xs), Map(f, ys), Map(f, ys)[j]);
        var i :| 0 <= i < |xs| && Map(f, xs)[i] == f(y);
        assert xs[i] in xs;
      }
    }
  }

  lemma {:induction false} MapAllOrderFree<T>(f: Json -> Result<T>, xs: seq<Json>, ys: seq<Json>)
    requires multiset(Map(f, xs)) == multiset(Map(f, ys))
    ensures MapAll(f, xs).Ok? <==> MapAll(f, ys).Ok?
    ensures MapAll(f, xs).Ok? ==> multiset(MapAll(f, xs).value) == multiset(MapAll(f, ys).value)
  {
    MapAllImages(f, xs, ys);
    MapAllImages(f, ys, xs);
    if MapAll(f, xs).Ok? {
      var vx, vy := MapAll(f, xs).value, MapAll(f, ys).value;
      if vx != [] {
        var strip := (r: Result<T>) => Unwrap(r, vx[0]);
        assert Map(strip, Map(f, xs)) == vx;
        assert Map(strip, Map(f, ys)) == vy;
        MapOrderFree(strip, Map(f, xs), Map(f, ys));
      } else {
        assert |multiset(Map(f, xs))| == |multiset(Map(f, ys))|;
        assert vy == [];
      }
    }
  }

  lemma DistinctOrderFree(xs: seq<Node>, ys: seq<Node>)
    requires multiset(xs) == multiset(ys) && DistinctIds(xs)
    ensures DistinctIds(ys)
  {
    NodeIdDetermines(xs);
    forall i, j | 0 <= i < j < |ys| ensures ys[i].id != ys[j].id {
      MultisetMembers(xs, ys, ys[i]);
      MultisetMembers(xs, ys, ys[j]);
      if ys[i].id == ys[j].id {
        assert NodeId(ys[i]) == NodeId(ys[j]);
        CountTwo(ys, i, j);
        DistinctCount(xs, ys[i]);
        assert false;
      }
    }
  }

  lemma {:induction false} DistinctCount(xs: seq<Node>, n: Node)
    requires DistinctIds(xs)
    ensures multiset(xs)[n] <= 1
  {
    if xs != [] {
      assert xs == [xs[0]] + xs[1..];
      DistinctCount(xs[1..], n);
      assert forall k | 0 <= k < |xs[1..]| :: xs[1..][k] == xs[k + 1] && xs[k + 1].id != xs[0].id;
    }
  }

  lemma SortNodesOrderFree(xs: seq<Node>, ys: seq<Node>, lt: Collation)
    requires multiset(xs) == multiset(ys)
    ensures DistinctIds(Sort(xs, NodeId, lt)) <==> DistinctIds(Sort(ys, NodeId, lt))
    ensures DistinctIds(Sort(xs, NodeId, lt)) ==> Sort(xs, NodeId, lt) == Sort(ys, NodeId, lt)
  {
    var sx, sy := Sort(xs, NodeId, lt), Sort(ys, NodeId, lt);
    if DistinctIds(sx) {
      DistinctOrderFree(sx, sy);
      DistinctOrderFree(sx, xs);
      NodeIdDetermines(xs);
      SortOrderFree(xs, ys, NodeId, lt);
    } else if DistinctIds(sy) {
      DistinctOrderFree(sy, sx);
    }
  }

  lemma {:induction false} ListsOrderFree(nv: seq<Json>, nw: seq<Json>, ev: seq<Json>, ew: seq<Json>, lt: Collation)
    requires multiset(Map(NormalizeNode, nv)) == multiset(Map(NormalizeNode, nw))
    requires multiset(Map(NormalizeEdge, ev)) == multiset(Map(NormalizeEdge, ew))
    ensures NormalizeLists(nv, ev, lt).Ok? ==> NormalizeLists(nw, ew, lt) == NormalizeLists(nv, ev, lt)
    ensures NormalizeLists(nv, ev, lt).Err? ==> NormalizeLists(nw, ew, lt).Err?
    ensures NormalizeLists(nv, ev, lt).Err? && NormalizeLists(nv, ev, lt).error !in NODE_ERRORS ==>
              NormalizeLists(nw, ew, lt) == NormalizeLists(nv, ev, lt)
  {
    MapAllOrderFree(NormalizeNode, nv, nw);
    MapAllOrderFree(NormalizeEdge, ev, ew);
    NodeErrors(nv);
    EdgeErrors(ev);
    EdgeErrors(ew);
    if MapAll(NormalizeNode, nv).Ok? {
      SortNodesOrderFree(MapAll(NormalizeNode, nv).value, MapAll(NormalizeNode, nw).value, lt);
      if MapAll(NormalizeEdge, ev).Ok? {
        SortEdgesOrderFree(ev, ew, lt);
      }
    }
  }

  const NODE_ERRORS: set<SchemaError> := {NodeIdInvalid, NodeTypeUnsupported}

  lemma NodeErrors(values: seq<Json>)
    ensures MapAll(NormalizeNode, values).Err? ==> MapAll(NormalizeNode, values).error in NODE_ERRORS
  {
  }

  lemma EdgeErrors(values: seq<Json>)
    ensures MapAll(NormalizeEdge, values).Err? ==> MapAll(NormalizeEdge, values).error == EdgeInvalid
  {
  }

  lemma {:induction false} SortEdgesOrderFree(ev: seq<Json>, ew: seq<Json>, lt: Collation)
    requires MapAll(NormalizeEdge, ev).Ok? && MapAll(NormalizeEdge, ew).Ok?
    requires multiset(MapAll(NormalizeEdge, ev).value) == multiset(MapAll(NormalizeEdge, ew).value)
    ensures Sort(MapAll(NormalizeEdge, ev).value, EdgeKey, lt) == Sort(MapAll(NormalizeEdge, ew).value, EdgeKey, lt)
  {
    var edges := MapAll(NormalizeEdge, ev).value;
    AllNormalEdges(ev, edges);
    EdgeKeyDetermines(edges);
    SortOrderFree(edges, MapAll(NormalizeEdge, ew).value, EdgeKey, lt);
  }

  /**
   * Reordering nodes, edges or object keys never changes the normalised graph, nor whether normalisation fails.
   * Only between the two complaints about a node can the code differ.
   */
  lemma {:induction false} NormalizeOrderFree(v: Json, w: Json, lt: Collation)
    requires SameGraph(v, w)
    ensures NormalizeGraph(v, lt).Ok? ==> NormalizeGraph(w, lt) == NormalizeGraph(v, lt)
    ensures NormalizeGraph(v, lt).Err? ==> NormalizeGraph(w, lt).Err?
    ensures NormalizeGraph(v, lt).Err? && NormalizeGraph(v, lt).error !in NODE_ERRORS ==>
              NormalizeGraph(w, lt) == NormalizeGraph(v, lt)
  {
    ItemsWf(v, "nodes"); ItemsWf(w, "nodes"); ItemsWf(v, "edges"); ItemsWf(w, "edges");
    NormalizersBlind();
    hide Wf, NormalizeLists, Map;
    ReorderedImages(NormalizeNode, Get(v, "nodes").items, Get(w, "nodes").items);
    ReorderedImages(NormalizeEdge, Get(v, "edges").items, Get(w, "edges").items);
    ListsOrderFree(Get(v, "nodes").items, Get(w, "nodes").items, Get(v, "edges").items, Get(w, "edges").items, lt);
  }

  function RawGraph(nodes: seq<Json>, edges: seq<Json>): Json {
    Obj([Prop("nodes", Arr(nodes)), Prop("edges", Arr(edges))])
  }

  lemma RawParts(nodes: seq<Json>, edges: seq<Json>, lt: Collation)
    ensures Get(RawGraph(nodes, edges), "nodes") == Arr(nodes) && Get(RawGraph(nodes, edges), "edges") == Arr(edges)
    ensures NormalizeGraph(RawGraph(nodes, edges), lt) == NormalizeLists(nodes, edges, lt)
  {
    RawPartsOf(nodes, edges);
  }

  lemma BadNodes(badId: Json, badType: Json)
    requires badId == Obj([]) && badType == Obj([Prop("id", Str("a"))])
    ensures NormalizeNode(badId) == Err(NodeIdInvalid) && NormalizeNode(badType) == Err(NodeTypeUnsupported)
  {
    assert Lookup(badType.props[1..], "type") == Null;
    assert IsId("a") by { assert IsIdChar('a'); }
  }

  lemma NoneReordered()
    ensures Reordered([], [])
  {
  }

  lemma {:induction false} SwapReordered(x: Json, y: Json)
    ensures Reordered([x, y], [y, x])
  {
    hide SortObject;
    assert Map(SortObject, [x, y]) == [SortObject(x), SortObject(y)];
    assert Map(SortObject, [y, x]) == [SortObject(y), SortObject(x)];
  }

  lemma {:induction false} RawGraphWf(x: Json, y: Json)
    requires Wf(x) && Wf(y)
    ensures Wf(RawGraph([x, y], []))
  {
    assert Wf(Arr([x, y])) && Wf(Arr([]));
  }

  lemma {:induction false} SwappedGraph(x: Json, y: Json, lt: Collation)
    requires Wf(x) && Wf(y)
    ensures SameGraph(RawGraph([x, y], []), RawGraph([y, x], []))
  {
    RawGraphWf(x, y);
    RawGraphWf(y, x);
    RawParts([x, y], [], lt);
    RawParts([y, x], [], lt);
    SwapReordered(x, y);
    NoneReordered();
    hide Wf, SortObject, NormalizeGraph, NormalizeLists, Reordered;
  }

  lemma {:induction false} FirstBadNode(x: Json, y: Json, lt: Collation)
    requires NormalizeNode(x).Err?
    ensures NormalizeGraph(RawGraph([x, y], []), lt) == Err(NormalizeNode(x).error)
  {
    RawParts([x, y], [], lt);
    assert MapAll(NormalizeNode, [x, y]) == Err(NormalizeNode(x).error);
  }

  /** The code of a rejected graph does depend on the order of its nodes. */
  lemma {:induction false} ErrorCodeSeesOrder(lt: Collation) returns (v: Json, w: Json)
    ensures SameGraph(v, w)
    ensures NormalizeGraph(v, lt) == Err(NodeIdInvalid) && NormalizeGraph(w, lt) == Err(NodeTypeUnsupported)
  {
    var badId, badType := Obj([]), Obj([Prop("id", Str("a"))]);
    assert Wf(badId) && Wf(badType);
    v, w := RawGraph([badId, badType], []), RawGraph([badType, badId], []);
    BadNodes(badId, badType);
    hide *;
    SwappedGraph(badId, badType, lt);
    FirstBadNode(badId, badType, lt);
    FirstBadNode(badType, badId, lt);
  }

  // ----- which error it is

  /** Letters, digits, `_` and `-`, at least one and at most 128 of them. */
  ghost predicate PlainId(text: string) {
    1 <= |text| <= 128
    && forall i | 0 <= i < |text| ::
         text[i] == '_' || text[i] == '-' || '0' <= text[i] <= '9' || 'a' <= text[i] <= 'z' || 'A' <= text[i] <= 'Z'
  }

  /** What a property read as an id prints as. */
  function IdRead(v: Json, name: string): string { if Truthy(Get(v, name)) then ToText(Get(v, name)) else "" }

  ghost predicate BadNodeId(v: Json) { (!v.Obj? && !v.Arr?) || !PlainId(IdRead(v, "id")) }

  ghost predicate BadNodeType(v: Json) {
    forall typ | Get(v, "type") == Str(typ) ::
      typ !in {"trigger.conversation_opened", "trigger.message_received", "trigger.sla_breached", "trigger.schedule_elapsed",
               "action.assign_queue", "action.assign_user", "action.add_tag", "action.send_template", "action.create_task",
               "action.handoff"}
  }

  ghost predicate BadEdge(v: Json) {
    (!v.Obj? && !v.Arr?) || !PlainId(IdRead(v, "from")) || !PlainId(IdRead(v, "to"))
  }

  lemma NodeErrorTells(v: Json)
    ensures BadNodeId(v) <==> NormalizeNode(v) == Err(NodeIdInvalid)
    ensures !BadNodeId(v) && BadNodeType(v) <==> NormalizeNode(v) == Err(NodeTypeUnsupported)
  {
    hide SortObject, ToText;
    EmptyIsNoId();
  }

  lemma EdgeErrorTells(v: Json)
    ensures BadEdge(v) <==> NormalizeEdge(v) == Err(EdgeInvalid)
    ensures NormalizeEdge(v).Err? ==> NormalizeEdge(v) == Err(EdgeInvalid)
  {
    hide ToText;
    EmptyIsNoId();
  }

  lemma {:induction false} FirstError<T>(f: Json -> Result<T>, values: seq<Json>, k: nat)
    requires k < |values| && f(values[k]).Err? && forall i | 0 <= i < k :: f(values[i]).Ok?
    ensures MapAll(f, values) == Err(f(values[k]).error)
    decreases values
  {
    if k > 0 { FirstError(f, values[1..], k - 1); }
  }

  /** The error of a graph whose `k`-th node is the first that is bad: for its id, else for its type. */
  lemma {:induction false} BadNodeTells(v: Json, k: nat, lt: Collation)
    requires (v.Obj? || v.Arr?) && Get(v, "nodes").Arr? && Get(v, "edges").Arr? && k < |Get(v, "nodes").items|
    requires forall i | 0 <= i < k :: !BadNodeId(Get(v, "nodes").items[i]) && !BadNodeType(Get(v, "nodes").items[i])
    requires BadNodeId(Get(v, "nodes").items[k]) || BadNodeType(Get(v, "nodes").items[k])
    ensures NormalizeGraph(v, lt) == Err(if BadNodeId(Get(v, "nodes").items[k]) then NodeIdInvalid else NodeTypeUnsupported)
  {
    hide NormalizeNode, NormalizeEdge, BadNodeId, BadNodeType, Sort;
    var nodes := Get(v, "nodes").items;
    forall i | 0 <= i <= k
      ensures BadNodeId(nodes[i]) <==> NormalizeNode(nodes[i]) == Err(NodeIdInvalid)
      ensures !BadNodeId(nodes[i]) && BadNodeType(nodes[i]) <==> NormalizeNode(nodes[i]) == Err(NodeTypeUnsupported)
      ensures NormalizeNode(nodes[i]).Err? ==> NormalizeNode(nodes[i]).error in NODE_ERRORS
    {
      NodeErrorTells(nodes[i]);
      NodeErrorKinds(nodes[i]);
    }
    FirstError(NormalizeNode, nodes, k);
  }

  lemma NodeErrorKinds(v: Json)
    ensures NormalizeNode(v).Err? ==> NormalizeNode(v).error in NODE_ERRORS
  {
  }

  /** The other errors, in their order: no array of nodes, none of edges, an id twice, a bad edge; and else none. */
  lemma {:induction false} NormalizeTells(v: Json, lt: Collation)
    ensures (!v.Obj? && !v.Arr?) || !Get(v, "nodes").Arr? ==> NormalizeGraph(v, lt) == Err(NodesInvalid)
    ensures (v.Obj? || v.Arr?) && Get(v, "nodes").Arr? && !Get(v, "edges").Arr? ==> NormalizeGraph(v, lt) == Err(EdgesInvalid)
    ensures (v.Obj? || v.Arr?) && Get(v, "nodes").Arr? && Get(v, "edges").Arr? ==>
      var nodes, edges := Get(v, "nodes").items, Get(v, "edges").items;
      (forall i | 0 <= i < |nodes| :: !BadNodeId(nodes[i]) && !BadNodeType(nodes[i])) ==>
        if exists i, j :: 0 <= i < j < |nodes| && IdRead(nodes[i], "id") == IdRead(nodes[j], "id")
        then NormalizeGraph(v, lt) == Err(NodeIdDuplicate)
        else if exists i :: 0 <= i < |edges| && BadEdge(edges[i]) then NormalizeGraph(v, lt) == Err(EdgeInvalid)
        else NormalizeGraph(v, lt).Ok?
  {
    hide NormalizeLists, BadNodeId, BadNodeType, BadEdge, IdRead;
    if (v.Obj? || v.Arr?) && Get(v, "nodes").Arr? && Get(v, "edges").Arr? {
      var nodes, edges := Get(v, "nodes").items, Get(v, "edges").items;
      if forall i | 0 <= i < |nodes| :: !BadNodeId(nodes[i]) && !BadNodeType(nodes[i]) {
        ListsTell(nodes, edges, lt);
      }
    }
  }

  lemma {:induction false} ListsTell(nodes: seq<Json>, edges: seq<Json>, lt: Collation)
    requires forall i | 0 <= i < |nodes| :: !BadNodeId(nodes[i]) && !BadNodeType(nodes[i])
    ensures if exists i, j :: 0 <= i < j < |nodes| && IdRead(nodes[i], "id") == IdRead(nodes[j], "id")
            then NormalizeLists(nodes, edges, lt) == Err(NodeIdDuplicate)
            else if exists i :: 0 <= i < |edges| && BadEdge(edges[i]) then NormalizeLists(nodes, edges, lt) == Err(EdgeInvalid)
            else NormalizeLists(nodes, edges, lt).Ok?
  {
    hide NormalizeNode, NormalizeEdge, BadNodeId, BadNodeType, BadEdge, IdRead, Sort;
    forall v | v in nodes ensures NormalizeNode(v).Ok? {
      NodeErrorTells(v);
      NodeErrorKinds(v);
    }
    var found := MapAll(NormalizeNode, nodes).value;
    forall i | 0 <= i < |nodes| ensures found[i].id == IdRead(nodes[i], "id") { NodeIdRead(nodes[i]); }
    var sorted := Sort(found, NodeId, lt);
    SortDistinct(found, sorted);
    EdgeErrors(edges);
    forall e | e in edges ensures BadEdge(e) <==> NormalizeEdge(e).Err? { EdgeErrorTells(e); }
  }

  lemma NodeIdRead(v: Json)
    requires NormalizeNode(v).Ok?
    ensures NormalizeNode(v).value.id == IdRead(v, "id")
  {
    hide SortObject;
    EmptyIsNoId();
  }

  lemma SortDistinct(found: seq<Node>, sorted: seq<Node>)
    requires multiset(sorted) == multiset(found)
    ensures DistinctIds(found) <==> DistinctIds(sorted)
  {
    if DistinctIds(found) { DistinctOrderFree(found, sorted); }
    if DistinctIds(sorted) { DistinctOrderFree(sorted, found); }
  }

  // ----- when the error code is stable

  ghost predicate FailsWith(nodes: seq<Json>, e: SchemaError) { exists x | x in nodes :: NormalizeNode(x) == Err(e) }

  /** One node has a bad id and another a good id but an unsupported type. */
  ghost predicate Clashing(nodes: seq<Json>) { FailsWith(nodes, NodeIdInvalid) && FailsWith(nodes, NodeTypeUnsupported) }

  lemma FailsOrderFree(xs: seq<Json>, ys: seq<Json>, e: SchemaError)
    requires multiset(Map(NormalizeNode, xs)) == multiset(Map(NormalizeNode, ys)) && FailsWith(ys, e)
    ensures FailsWith(xs, e)
  {
    hide NormalizeNode;
    var y :| y in ys && NormalizeNode(y) == Err(e);
    var j :| 0 <= j < |ys| && ys[j] == y;
    MultisetMembers(Map(NormalizeNode, xs), Map(NormalizeNode, ys), Map(NormalizeNode, ys)[j]);
    var i :| 0 <= i < |xs| && Map(NormalizeNode, xs)[i] == Err(e);
    assert xs[i] in xs;
  }

  lemma {:induction false} NodesErrorStable(nv: seq<Json>, nw: seq<Json>)
    requires multiset(Map(NormalizeNode, nv)) == multiset(Map(NormalizeNode, nw)) && !Clashing(nv)
    requires MapAll(NormalizeNode, nv).Err?
    ensures MapAll(NormalizeNode, nw) == MapAll(NormalizeNode, nv)
  {
    hide NormalizeNode, Map, FailsWith, MapAll;
    MapAllOrderFree(NormalizeNode, nv, nw);
    NodeErrors(nv);
    NodeErrors(nw);
    FirstFailure(nv);
    FirstFailure(nw);
    FailsOrderFree(nv, nw, MapAll(NormalizeNode, nw).error);
  }

  lemma NodesErrorFirst(nodes: seq<Json>, edges: seq<Json>, lt: Collation)
    ensures MapAll(NormalizeNode, nodes).Err? ==> NormalizeLists(nodes, edges, lt) == Err(MapAll(NormalizeNode, nodes).error)
    ensures MapAll(NormalizeNode, nodes).Ok? && NormalizeLists(nodes, edges, lt).Err?
      ==> NormalizeLists(nodes, edges, lt).error !in NODE_ERRORS
  {
    hide NormalizeNode, NormalizeEdge, Sort, DistinctIds;
    EdgeErrors(edges);
  }

  lemma {:induction false} ListsErrorStable(nv: seq<Json>, nw: seq<Json>, ev: seq<Json>, ew: seq<Json>, lt: Collation)
    requires multiset(Map(NormalizeNode, nv)) == multiset(Map(NormalizeNode, nw))
    requires multiset(Map(NormalizeEdge, ev)) == multiset(Map(NormalizeEdge, ew)) && !Clashing(nv)
    ensures NormalizeLists(nw, ew, lt) == NormalizeLists(nv, ev, lt)
  {
    hide NormalizeLists, Map, MapAll, Clashing;
    ListsOrderFree(nv, nw, ev, ew, lt);
    NodesErrorFirst(nv, ev, lt);
    NodesErrorFirst(nw, ew, lt);
    if MapAll(NormalizeNode, nv).Err? { NodesErrorStable(nv, nw); }
  }

  lemma FirstFailure(nodes: seq<Json>)
    ensures MapAll(NormalizeNode, nodes).Err? ==> FailsWith(nodes, MapAll(NormalizeNode, nodes).error)
  {
    hide NormalizeNode;
  }

  lemma {:induction false} ErrorStable(v: Json, w: Json, lt: Collation)
    requires SameGraph(v, w) && !Clashing(Get(v, "nodes").items)
    ensures NormalizeGraph(w, lt) == NormalizeGraph(v, lt)
  {
    ItemsWf(v, "nodes"); ItemsWf(w, "nodes"); ItemsWf(v, "edges"); ItemsWf(w, "edges");
    NormalizersBlind();
    hide Wf, NormalizeLists, Map, Clashing;
    ReorderedImages(NormalizeNode, Get(v, "nodes").items, Get(w, "nodes").items);
    ReorderedImages(NormalizeEdge, Get(v, "edges").items, Get(w, "edges").items);
    ListsErrorStable(Get(v, "nodes").items, Get(w, "nodes").items, Get(v, "edges").items, Get(w, "edges").items, lt);
  }

  /** The same graph with one node listed first. */
  function MovedFirst(v: Json, k: nat): Json
    requires Get(v, "nodes").Arr? && Get(v, "edges").Arr? && k < |Get(v, "nodes").items|
  {
    var nodes := Get(v, "nodes").items;
    RawGraph([nodes[k]] + RemoveAt(nodes, k), Get(v, "edges").items)
  }

  lemma {:induction false} MovedFirstSame(v: Json, k: nat)
    requires Wf(v) && IsObject(v) && Get(v, "nodes").Arr? && Get(v, "edges").Arr? && k < |Get(v, "nodes").items|
    ensures SameGraph(v, MovedFirst(v, k))
  {
    hide SortObject, Reordered, Get, Wf;
    var nodes, edges := Get(v, "nodes").items, Get(v, "edges").items;
    var moved := [nodes[k]] + RemoveAt(nodes, k);
    ItemsWf(v, "nodes");
    ItemsWf(v, "edges");
    MovedWf(nodes, edges, k);
    MovedReordered(nodes, k);
    ReorderedSelf(edges);
    RawPartsOf(moved, edges);
  }

  lemma ReorderedSelf(items: seq<Json>)
    ensures Reordered(items, items)
  {
    hide SortObject;
  }

  lemma MovedWf(nodes: seq<Json>, edges: seq<Json>, k: nat)
    requires k < |nodes| && (forall x | x in nodes :: Wf(x)) && forall x | x in edges :: Wf(x)
    ensures Wf(RawGraph([nodes[k]] + RemoveAt(nodes, k), edges))
  {
    var moved := [nodes[k]] + RemoveAt(nodes, k);
    forall x | x in moved ensures x in nodes {
    }
    assert Wf(Arr(moved)) && Wf(Arr(edges));
  }

  lemma {:induction false} MovedReordered(nodes: seq<Json>, k: nat)
    requires k < |nodes|
    ensures Reordered(nodes, [nodes[k]] + RemoveAt(nodes, k))
  {
    hide SortObject;
    RemoveAtMultiset(nodes, k);
    assert nodes[k] in multiset(nodes);
    MapOrderFree(SortObject, nodes, [nodes[k]] + RemoveAt(nodes, k));
  }

  lemma RawPartsOf(nodes: seq<Json>, edges: seq<Json>)
    ensures Get(RawGraph(nodes, edges), "nodes") == Arr(nodes) && Get(RawGraph(nodes, edges), "edges") == Arr(edges)
  {
    var ps := RawGraph(nodes, edges).props;
    assert Lookup(ps, "edges") == Lookup(ps[1..], "edges");
  }

  lemma {:induction false} FirstFails(v: Json, k: nat, lt: Collation)
    requires Get(v, "nodes").Arr? && Get(v, "edges").Arr? && k < |Get(v, "nodes").items|
    requires NormalizeNode(Get(v, "nodes").items[k]).Err?
    ensures NormalizeGraph(MovedFirst(v, k), lt) == Err(NormalizeNode(Get(v, "nodes").items[k]).error)
  {
    hide NormalizeNode, NormalizeEdge;
    var nodes := Get(v, "nodes").items;
    RawParts([nodes[k]] + RemoveAt(nodes, k), Get(v, "edges").items, lt);
  }

  lemma {:induction false} ClashingUnstable(v: Json, lt: Collation)
    requires Wf(v) && IsObject(v) && Get(v, "nodes").Arr? && Get(v, "edges").Arr? && Clashing(Get(v, "nodes").items)
    ensures exists w :: SameGraph(v, w) && NormalizeGraph(w, lt) != NormalizeGraph(v, lt)
  {
    hide NormalizeNode, NormalizeGraph, SameGraph, MovedFirst, Wf, IsObject;
    var nodes := Get(v, "nodes").items;
    var x :| x in nodes && NormalizeNode(x) == Err(NodeIdInvalid);
    var y :| y in nodes && NormalizeNode(y) == Err(NodeTypeUnsupported);
    var i :| 0 <= i < |nodes| && nodes[i] == x;
    var j :| 0 <= j < |nodes| && nodes[j] == y;
    MovedFirstSame(v, i);
    MovedFirstSame(v, j);
    FirstFails(v, i, lt);
    FirstFails(v, j, lt);
    assert NormalizeGraph(MovedFirst(v, i), lt) != NormalizeGraph(MovedFirst(v, j), lt);
  }

  /**
   * Exactly when normalisation does not depend on the order of its input at all, errors included: when the nodes do
   * not show both faults that a node can have.
   */
  lemma {:induction false} StableIff(v: Json, lt: Collation)
    requires Wf(v) && IsObject(v) && Get(v, "nodes").Arr? && Get(v, "edges").Arr?
    ensures (forall w | SameGraph(v, w) :: NormalizeGraph(w, lt) == NormalizeGraph(v, lt))
       <==> !Clashing(Get(v, "nodes").items)
  {
    hide NormalizeGraph, SameGraph, Clashing, Wf, IsObject;
    if Clashing(Get(v, "nodes").items) {
      ClashingUnstable(v, lt);
    } else {
      forall w | SameGraph(v, w) ensures NormalizeGraph(w, lt) == NormalizeGraph(v, lt) { ErrorStable(v, w, lt); }
    }
  }

  // ----- a graph that normalisation changes twice

  /** A graph whose only edge has an empty list for its port. */
  function ListPortGraph(): Json {
    var node := Obj([Prop("id", Str("a")), Prop("type", Str("trigger.conversation_opened"))]);
    var edge := Obj([Prop("from", Str("a")), Prop("to", Str("a")), Prop("port", Arr([]))]);
    RawGraph([node], [edge])
  }

  lemma TriggerNodeParts(node: Json)
    requires node == Obj([Prop("id", Str("a")), Prop("type", Str("trigger.conversation_opened"))])
    ensures NormalizeNode(node) == Ok(Node("a", "trigger.conversation_opened", Obj([])))
  {
    assert IsId("a") by { assert IsIdChar('a'); }
    assert Lookup(node.props[1..], "type") == Str("trigger.conversation_opened");
    assert Lookup(node.props[1..][1..], "config") == Null;
    assert Lookup(node.props, "config") == Null;
    EmptyObjectSorted();
  }

  lemma ListPortEdgeParts(edge: Json)
    requires edge == Obj([Prop("from", Str("a")), Prop("to", Str("a")), Prop("port", Arr([]))])
    ensures NormalizeEdge(edge) == Ok(Edge("a", "a", ""))
  {
    assert IsId("a") by { assert IsIdChar('a'); }
    assert Lookup(edge.props[1..], "to") == Str("a");
    assert Lookup(edge.props[1..][1..], "port") == Arr([]);
    assert Lookup(edge.props, "port") == Arr([]);
  }

  lemma ListPortParts()
    ensures var v := ListPortGraph();
      && Get(v, "nodes").Arr? && Get(v, "edges").Arr? && |Get(v, "nodes").items| == 1 == |Get(v, "edges").items|
      && NormalizeNode(Get(v, "nodes").items[0]) == Ok(Node("a", "trigger.conversation_opened", Obj([])))
      && NormalizeEdge(Get(v, "edges").items[0]) == Ok(Edge("a", "a", ""))
  {
    hide NormalizeNode, NormalizeEdge, Get;
    var node := Obj([Prop("id", Str("a")), Prop("type", Str("trigger.conversation_opened"))]);
    var edge := Obj([Prop("from", Str("a")), Prop("to", Str("a")), Prop("port", Arr([]))]);
    RawPartsOf([node], [edge]);
    TriggerNodeParts(node);
    ListPortEdgeParts(edge);
  }

  lemma EmptyObjectSorted()
    ensures SortObject(Obj([])) == Obj([])
  {
  }

  /** An accepted graph that normalising a second time changes: the port `[]` becomes empty, then `next`. */
  lemma {:induction false} ListPortChangesTwice(lt: Collation)
    ensures var v := ListPortGraph();
      && NormalizeGraph(v, lt)
         == Ok(Graph([Node("a", "trigger.conversation_opened", Obj([]))], [Edge("a", "a", "")]))
      && NormalizeGraph(GraphValue(NormalizeGraph(v, lt).value), lt) != NormalizeGraph(v, lt)
  {
    hide NormalizeNode, NormalizeEdge, ListPortGraph, Normal;
    ListPortParts();
    var v := ListPortGraph();
    var nodes, edges := Get(v, "nodes").items, Get(v, "edges").items;
    assert nodes == [nodes[0]] && edges == [edges[0]];
    var n, e := Node("a", "trigger.conversation_opened", Obj([])), Edge("a", "a", "");
    OneMapped(NormalizeNode, nodes[0], n);
    OneMapped(NormalizeEdge, edges[0], e);
    OneSorted(n, NodeId, lt);
    OneSorted(e, EdgeKey, lt);
    var g := Graph([n], [e]);
    assert IsObject(v);
    assert NormalizeGraph(v, lt) == Ok(g);
    NormalListPort(g, lt);
    NormalizeIdempotent(g, lt);
    assert e in g.edges && !NoEmptyPort(g);
  }

  lemma OneMapped<T>(f: Json -> Result<T>, v: Json, x: T)
    requires f(v) == Ok(x)
    ensures MapAll(f, [v]) == Ok([x])
  {
    assert [v][1..] == [] && [x] + [] == [x];
    assert MapAll(f, [v][1..]) == Ok([]);
  }

  lemma OneSorted<T, K>(x: T, key: T -> K, lt: (K, K) -> bool)
    ensures Sort([x], key, lt) == [x]
  {
    assert [x][..0] == [];
    assert Sort([x][..0], key, lt) == [];
  }

  lemma NormalListPort(g: Graph, lt: Collation)
    requires g == Graph([Node("a", "trigger.conversation_opened", Obj([]))], [Edge("a", "a", "")])
    ensures Normal(g, lt)
  {
    assert IsId("a") by { assert IsIdChar('a'); }
    EmptyObjectSorted();
    assert Wf(Obj([]));
  }

  /** The hash of a graph, for any digest of its canonical form, is blind to the order of its input. */
  lemma {:induction false} HashOrderFree<H>(v: Json, w: Json, lt: Collation, digest: Graph -> H)
    requires SameGraph(v, w) && NormalizeGraph(v, lt).Ok?
    ensures CanonicalGraphHash(v, lt, digest) == CanonicalGraphHash(w, lt, digest)
    ensures NormalizeGraph(w, lt).Ok?
  {
    NormalizeOrderFree(v, w, lt);
  }

  /** `digest` stands for SHA-256 of the JSON text of the normalised graph. */
  function CanonicalGraphHash<H>(v: Json, lt: Collation, digest: Graph -> H): (r: Result<H>)
  {
    match NormalizeGraph(v, lt)
    case Err(e) => Err(e)
    case Ok(g) => Ok(digest(g))
  }
}
