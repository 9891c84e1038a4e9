/**
 * `KnowledgeGraphBuilder` (src/knowledge_graph/graph_builder.py): a node
 * map keyed by component name, an append-only edge list and a directed
 * graph, with the entry-point, data-store and dependency-chain queries and
 * the structure of the JSON export.
 */
module KnowledgeGraph {
  import opened Wrappers
  import opened Strings
  import opened Values
  import opened PyDict
  import opened DiGraph
  import AstParser

  /** What the semantic enrichment says about a component. */
  datatype SemanticContext = SemanticContext(
    componentName: string,
    purpose: string,
    businessCapability: string,
    interactions: seq<string>,
    technologyStack: seq<string>)

  datatype GraphNode = GraphNode(id: string, kind: string, properties: Fields, semanticContext: Option<SemanticContext>)

  datatype GraphEdge = GraphEdge(source: string, target: string, kind: string, properties: Fields)

  /** The node's `properties` dictionary: the five keys, in order (`NodePropertiesValues` gives their values). */
  function NodeProperties(c: AstParser.Component): (r: Fields)
    ensures Keys(r) == ["technology", "ports", "env_vars", "endpoints", "metadata"]
  {
    [("technology", Str(c.technology)), ("ports", List(c.exposedPorts)), ("env_vars", Obj(c.environmentVars)),
     ("endpoints", StrList(c.endpoints)), ("metadata", Obj(c.metadata))]
  }

  /** Each of the five properties holds the component's own field. */
  lemma NodePropertiesValues(c: AstParser.Component)
    ensures var r := NodeProperties(c);
            && Lookup(r, "technology") == Some(Str(c.technology)) && Lookup(r, "ports") == Some(List(c.exposedPorts))
            && Lookup(r, "env_vars") == Some(Obj(c.environmentVars)) && Lookup(r, "endpoints") == Some(StrList(c.endpoints))
            && Lookup(r, "metadata") == Some(Obj(c.metadata))
  {
    var r := NodeProperties(c);
    PropertyAt(r, 0);
    PropertyAt(r, 1);
    PropertyAt(r, 2);
    PropertyAt(r, 3);
    PropertyAt(r, 4);
  }

  /** The entry at `i` of five entries under distinct keys is found by its key. */
  lemma PropertyAt(fs: Fields, i: nat)
    requires |fs| == 5 && i < 5
    requires Keys(fs) == ["technology", "ports", "env_vars", "endpoints", "metadata"]
    ensures Lookup(fs, fs[i].0) == Some(fs[i].1)
  {
    LookupAt(fs, i);
  }

  /** The node `add_component` stores under the component's name. */
  function NodeOf(c: AstParser.Component, ctx: SemanticContext): (n: GraphNode)
    ensures n.id == c.name && n.kind == c.kind && n.semanticContext == Some(ctx)
    ensures n.properties == NodeProperties(c)
  {
    GraphNode(c.name, c.kind, NodeProperties(c), Some(ctx))
  }

  /**
   * The graph attributes of a component's node (`**node.properties` plus the
   * two semantic fields): each property key holds that property's value.
   */
  function NodeAttrs(c: AstParser.Component, ctx: SemanticContext): (a: Attrs)
    ensures a.Keys == {"technology", "ports", "env_vars", "endpoints", "metadata", "semantic_purpose", "business_capability"}
    ensures a["semantic_purpose"] == Str(ctx.purpose) && a["business_capability"] == Str(ctx.businessCapability)
    ensures && a["technology"] == Str(c.technology) && a["ports"] == List(c.exposedPorts)
            && a["env_vars"] == Obj(c.environmentVars) && a["endpoints"] == StrList(c.endpoints)
            && a["metadata"] == Obj(c.metadata)
  {
    map["technology" := Str(c.technology), "ports" := List(c.exposedPorts), "env_vars" := Obj(c.environmentVars),
        "endpoints" := StrList(c.endpoints), "metadata" := Obj(c.metadata),
        "semantic_purpose" := Str(ctx.purpose), "business_capability" := Str(ctx.businessCapability)]
  }

  /** The edge's `properties`: protocol and description, then the semantic information over them. */
  function EdgeProperties(r: AstParser.Relationship, info: Fields): Fields {
    MergeFields([("protocol", Str(r.protocol)), ("description", Str(r.description))], info)
  }

  /**
   * The edge `add_relationship` appends: the relationship's endpoints and
   * kind, with an entry of the semantic information winning over the
   * relationship's own protocol and description.
   */
  function EdgeOf(r: AstParser.Relationship, info: Fields): (e: GraphEdge)
    ensures e.source == r.source && e.target == r.target && e.kind == r.kind
    ensures e.properties == EdgeProperties(r, info)
    ensures forall k :: (Lookup(e.properties, k) ==
      if k in Keys(info) then LastField(info, k)
      else if k == "protocol" then Some(Str(r.protocol))
      else if k == "description" then Some(Str(r.description))
      else None)
  {
    EdgePropertiesLookupAll(r, info);
    GraphEdge(r.source, r.target, r.kind, EdgeProperties(r, info))
  }

  /**
   * `{'protocol': ..., 'description': ..., **semantic_info}`: an entry of
   * the semantic information wins over the relationship's protocol and
   * description, and every other key is the semantic information's.
   */
  lemma EdgePropertiesLookup(r: AstParser.Relationship, info: Fields, k: string)
    ensures Lookup(EdgeProperties(r, info), k) ==
      if k in Keys(info) then LastField(info, k)
      else if k == "protocol" then Some(Str(r.protocol))
      else if k == "description" then Some(Str(r.description))
      else None
  {
    MergeFieldsLookup([("protocol", Str(r.protocol)), ("description", Str(r.description))], info, k);
  }

  /** The same, for every key at once. */
  lemma EdgePropertiesLookupAll(r: AstParser.Relationship, info: Fields)
    ensures forall k :: (Lookup(EdgeProperties(r, info), k) ==
      if k in Keys(info) then LastField(info, k)
      else if k == "protocol" then Some(Str(r.protocol))
      else if k == "description" then Some(Str(r.description))
      else None)
  {
    forall k {
      EdgePropertiesLookup(r, info, k);
    }
  }

  // ---------------------------------------------------------------- queries as functions

  /** The nodes of `ns`, in order, that no edge enters. */
  function EntryPointsFrom(g: Graph, ns: seq<string>): (r: seq<string>)
    requires g.Valid() && forall n :: n in ns ==> g.HasNode(n)
    ensures forall x :: x in r <==> x in ns && g.InDegree(x) == 0
    decreases |ns|
  {
    if |ns| == 0 then []
    else
      var init := ns[..|ns| - 1];
      var last := ns[|ns| - 1];
      assert forall x :: x in ns <==> x in init || x == last;
      EntryPointsFrom(g, init) + (if g.InDegree(last) == 0 then [last] else [])
  }

  /** Entry points are exactly the graph's nodes without incoming edges, whether or not a component was added for them. */
  lemma EntryPointsExact(g: Graph, x: string)
    requires g.Valid()
    ensures x in EntryPointsFrom(g, g.nodes) <==> g.HasNode(x) && forall u :: !g.HasEdge(u, x)
  {
    InDegreeZero(g, x);
  }

  const DataStoreKinds: seq<string> := ["database", "cache", "storage"]

  predicate IsDataStore(d: Dict<string, GraphNode>, k: string) {
    k in d.vals && d.vals[k].kind in DataStoreKinds
  }

  /** `identify_data_stores`: the node ids, in insertion order, whose type is a data store's. */
  function DataStores(d: Dict<string, GraphNode>): (r: seq<string>)
    ensures forall k :: k in r <==> k in d.keys && IsDataStore(d, k)
  {
    DataStoresIn(d, d.keys)
  }

  function DataStoresIn(d: Dict<string, GraphNode>, ks: seq<string>): (r: seq<string>)
    ensures forall k :: k in r <==> k in ks && IsDataStore(d, k)
  {
    Filter(ks, k => IsDataStore(d, k))
  }

  lemma DataStoresSnoc(d: Dict<string, GraphNode>, ks: seq<string>, k: string)
    ensures DataStoresIn(d, ks + [k]) == DataStoresIn(d, ks) + (if IsDataStore(d, k) then [k] else [])
  {
    FilterAppend(ks, [k], k => IsDataStore(d, k));
  }

  /** `d[k] = v` for each pair in order: the node map after a run of `add_component`. */
  function PutAll(d: Dict<string, GraphNode>, items: seq<(string, GraphNode)>): (r: Dict<string, GraphNode>)
    ensures d.Valid() ==> r.Valid()
    decreases |items|
  {
    if |items| == 0 then d else PutAll(d.Put(items[0].0, items[0].1), items[1..])
  }

  /** The names of a run of `add_component` calls. */
  function NameSet(items: seq<(string, GraphNode)>): set<string>
    decreases |items|
  {
    if |items| == 0 then {} else {items[0].0} + NameSet(items[1..])
  }

  /** After a run of `add_component`, the node map holds the earlier names and the new ones. */
  lemma {:induction false} PutAllMembers(d: Dict<string, GraphNode>, items: seq<(string, GraphNode)>)
    requires d.Valid()
    ensures (set k | k in PutAll(d, items).keys) == (set k | k in d.keys) + NameSet(items)
    decreases |items|
  {
    if |items| > 0 {
      var d1 := d.Put(items[0].0, items[0].1);
      PutAllMembers(d1, items[1..]);
      assert (set k | k in d1.keys) == (set k | k in d.keys) + {items[0].0};
    }
  }

  /**
   * A name added again replaces the earlier node, so the number of nodes
   * is the number of distinct names.
   */
  lemma NodeCount(d: Dict<string, GraphNode>, items: seq<(string, GraphNode)>)
    requires d.Valid()
    ensures |PutAll(d, items).keys| == |(set k | k in d.keys) + NameSet(items)|
  {
    PutAllMembers(d, items);
    DistinctCard(PutAll(d, items).keys);
  }

  /** A duplicate-free sequence has as many elements as its set. */
  lemma {:induction false} DistinctCard<T>(s: seq<T>)
    requires Distinct(s)
    ensures |set x | x in s| == |s|
    decreases |s|
  {
    if |s| > 0 {
      var init := s[..|s| - 1];
      assert Distinct(init);
      DistinctCard(init);
      assert (set x | x in s) == (set x | x in init) + {s[|s| - 1]};
    }
  }

  /** The semantic context's entries, empty strings when there is none. */
  function ContextValue(ctx: Option<SemanticContext>): (r: Value)
    ensures ctx.None? ==> r == Obj([("purpose", Str("")), ("business_capability", Str(""))])
  {
    match ctx
    case None => Obj([("purpose", Str("")), ("business_capability", Str(""))])
    case Some(c) => Obj([("purpose", Str(c.purpose)), ("business_capability", Str(c.businessCapability))])
  }

  function NodeEntry(id: string, n: GraphNode): Value {
    Obj([("id", Str(id)), ("type", Str(n.kind)), ("properties", Obj(n.properties)),
         ("semantic_context", ContextValue(n.semanticContext))])
  }

  function EdgeEntry(e: GraphEdge): Value {
    Obj([("source", Str(e.source)), ("target", Str(e.target)), ("type", Str(e.kind)), ("properties", Obj(e.properties))])
  }

  /**
   * The data `export_to_json` serialises: one node entry per node map
   * entry, in insertion order, and one edge entry per element of the edge list.
   */
  function Export(nodes: Dict<string, GraphNode>, edges: seq<GraphEdge>): (r: Value)
    requires nodes.Valid()
    ensures r.Obj? && Keys(r.fields) == ["nodes", "edges"]
    ensures r.fields[0].1.List? && |r.fields[0].1.items| == |nodes.keys|
    ensures r.fields[1].1.List? && |r.fields[1].1.items| == |edges|
    ensures forall i :: 0 <= i < |nodes.keys| ==> r.fields[0].1.items[i] == NodeEntry(nodes.keys[i], nodes.vals[nodes.keys[i]])
    ensures forall i :: 0 <= i < |edges| ==> r.fields[1].1.items[i] == EdgeEntry(edges[i])
  {
    var items := nodes.Items();
    Obj([("nodes", List(seq(|items|, i requires 0 <= i < |items| => NodeEntry(items[i].0, items[i].1)))),
         ("edges", List(seq(|edges|, i requires 0 <= i < |edges| => EdgeEntry(edges[i]))))])
  }

  // ---------------------------------------------------------------- the builder

  class KnowledgeGraphBuilder {
    var graph: Graph
    var nodes: Dict<string, GraphNode>
    var edges: seq<GraphEdge>

    ghost predicate Valid()
      reads this
    {
      graph.Valid() && nodes.Valid()
    }

    constructor()
      ensures Valid() && graph == DiGraph.Empty() && nodes == PyDict.Empty() && edges == []
    {
      graph := DiGraph.Empty();
      nodes := PyDict.Empty();
      edges := [];
    }

    /** `add_component`: the node map entry under the name is replaced, and the graph node's attributes updated. */
    method AddComponent(c: AstParser.Component, ctx: SemanticContext)
      modifies this
      requires Valid()
      ensures Valid()
      ensures nodes == old(nodes).Put(c.name, NodeOf(c, ctx))
      ensures graph == old(graph).AddNode(c.name, NodeAttrs(c, ctx))
      ensures edges == old(edges)
    {
      var node := NodeOf(c, ctx);
      nodes := nodes.Put(c.name, node);
      graph := graph.AddNode(c.name, NodeAttrs(c, ctx));
    }

    /**
     * `add_relationship`: one more element in the edge list, always, and
     * one edge in the graph, whose attributes a repeated pair overwrites.
     * Both endpoints become graph nodes; the node map does not change.
     */
    method AddRelationship(r: AstParser.Relationship, info: Fields)
      modifies this
      requires Valid()
      ensures Valid()
      ensures edges == old(edges) + [EdgeOf(r, info)]
      ensures graph == old(graph).AddEdge(r.source, r.target, AttrsOf(EdgeProperties(r, info)))
      ensures graph.HasNode(r.source) && graph.HasNode(r.target)
      ensures nodes == old(nodes)
    {
      var n := nodes;
      assert n.Valid();
      var g := graph.AddEdge(r.source, r.target, AttrsOf(EdgeProperties(r, info)));
      graph := g;
      edges := edges + [EdgeOf(r, info)];
      assert nodes == n;
    }

    /** `identify_entry_points`: the loop over the graph's nodes. */
    method IdentifyEntryPoints() returns (r: seq<string>)
      requires Valid()
      ensures r == EntryPointsFrom(graph, graph.nodes)
    {
      r := [];
      var i := 0;
      while i < |graph.nodes|
        invariant 0 <= i <= |graph.nodes|
        invariant r == EntryPointsFrom(graph, graph.nodes[..i])
      {
        assert graph.nodes[..i + 1][..i] == graph.nodes[..i];
        var n := graph.nodes[i];
        if graph.InDegree(n) == 0 {
          r := r + [n];
        }
        i := i + 1;
      }
      assert graph.nodes[..i] == graph.nodes;
    }

    /** `identify_data_stores`: the loop over the node map. */
    method IdentifyDataStores() returns (r: seq<string>)
      requires Valid()
      ensures r == DataStores(nodes)
    {
      var items := nodes.Items();
      r := [];
      var i := 0;
      while i < |items|
        invariant 0 <= i <= |items|
        invariant r == DataStoresIn(nodes, nodes.keys[..i])
      {
        assert nodes.keys[..i + 1] == nodes.keys[..i] + [nodes.keys[i]];
        DataStoresSnoc(nodes, nodes.keys[..i], nodes.keys[i]);
        var (id, node) := items[i];
        if node.kind in DataStoreKinds {
          r := r + [id];
        }
        i := i + 1;
      }
      assert nodes.keys[..i] == nodes.keys;
    }

    /**
     * `find_dependencies_chain`: [] for a name that is not a graph node,
     * otherwise every node reachable along one or more edges, never the
     * start itself, each once.
     */
    method FindDependenciesChain(component: string) returns (r: seq<string>)
      requires Valid()
      ensures !graph.HasNode(component) ==> r == []
      ensures graph.HasNode(component) ==> forall v :: v in r <==> v != component && graph.Reaches(component, v)
      ensures Distinct(r)
    {
      if !graph.HasNode(component) {
        return [];
      }
      var descendants := Descendants(graph, component);
      r := ListOf(descendants);
    }

    /** `export_to_json`, before the JSON text is produced. */
    method ExportToJson() returns (r: Value)
      requires Valid()
      ensures r == Export(nodes, edges)
    {
      r := Export(nodes, edges);
    }
  }

  /** Adding the same pair twice keeps one graph edge whose attributes are the second call's over the first's. */
  lemma RepeatedEdgeOverwrites(g: Graph, u: string, v: string, a: Attrs, b: Attrs)
    requires g.Valid()
    ensures var g2 := g.AddEdge(u, v, a).AddEdge(u, v, b);
            (forall x, y :: g2.HasEdge(x, y) <==> g.HasEdge(x, y) || (x == u && y == v)) &&
            g2.edgeAttrs[(u, v)] == (if g.HasEdge(u, v) then g.edgeAttrs[(u, v)] else map[]) + a + b
  {
  }
}
