/**
 * `C4Generator` (src/c4/c4_generator.py): the context, container and
 * component diagrams drawn straight from the knowledge graph, as PlantUML
 * line lists.  Each `generate_*` method collects diagram elements and
 * relationships from the graph's nodes and edges; each `_render_plantuml_*`
 * method turns them into lines with fixed call forms.
 */
module C4Generator {
  import opened Wrappers
  import opened Strings
  import opened Values
  import opened PyDict
  import opened PlantUml
  import DiGraph
  import KnowledgeGraph

  type Node = KnowledgeGraph.GraphNode
  type Nodes = Dict<string, Node>

  /** A diagram element; `technology` is whatever the graph stored, "" by default. */
  datatype C4Element = C4Element(id: string, name: string, kind: string, description: string, technology: Value)

  /** A diagram relationship; description and technology come from edge properties, so any value. */
  datatype C4Relationship = C4Relationship(source: string, target: string, description: Value, technology: Value)

  /** The dictionaries `_identify_external_systems` and `_identify_actors` build. */
  datatype Party = Party(id: string, name: string, description: string, interaction: string)

  /** The dictionaries `_identify_containers` builds. */
  datatype Info = Info(id: string, name: string, description: string, technology: Value)

  /** The semantic context's purpose, or "" when the node has none. */
  function Purpose(n: Node): string {
    match n.semanticContext
    case Some(ctx) => ctx.purpose
    case None => ""
  }

  // ---------------------------------------------------------------- external systems

  /**
   * `'external' in node.properties.get('metadata', {}).get('tags', [])`;
   * None when it raises (metadata that is not a mapping, tags that support
   * no membership test).
   */
  function IsExternal(n: Node): (r: Option<bool>)
    ensures Lookup(n.properties, "metadata").None? ==> r == Some(false)
  {
    var metadata := Lookup(n.properties, "metadata").GetOr(Obj([]));
    var tags :- Get(metadata, "tags", List([]));
    HasIn(tags, "external")
  }

  /** One node of the `_identify_external_systems` loop: its entry, none, or a raise. */
  function ExternalCheck(nodes: Nodes, k: string): Option<Option<Party>> {
    if k !in nodes.vals then Some(None)
    else
      var external :- IsExternal(nodes.vals[k]);
      Some(if external then Some(Party(k, k, Purpose(nodes.vals[k]), "Uses")) else None)
  }

  /** The external-system check of a present node, case by case. */
  lemma ExternalCheckAt(nodes: Nodes, k: string)
    requires k in nodes.vals
    ensures var tagged := IsExternal(nodes.vals[k]);
            ExternalCheck(nodes, k) ==
              if tagged.None? then None
              else if tagged.value then Some(Some(Party(k, k, Purpose(nodes.vals[k]), "Uses")))
              else Some(None)
  {
  }

  lemma ExternalCheckKeeps(nodes: Nodes, k: string, p: Party)
    requires ExternalCheck(nodes, k) == Some(Some(p))
    ensures k in nodes.vals && IsExternal(nodes.vals[k]) == Some(true) && p == Party(k, k, Purpose(nodes.vals[k]), "Uses")
  {
  }

  function ExternalStep(nodes: Nodes): (f: string -> Option<Option<Party>>)
    ensures forall k :: f(k) == ExternalCheck(nodes, k)
  {
    k => ExternalCheck(nodes, k)
  }

  /** `_identify_external_systems`: one entry per node tagged external, in node order. */
  function Externals(nodes: Nodes): (r: Option<seq<Party>>)
    ensures r.Some? <==> forall i :: 0 <= i < |nodes.keys| ==> ExternalCheck(nodes, nodes.keys[i]).Some?
  {
    var checked :- TryMap(nodes.keys, ExternalStep(nodes));
    Some(Somes(checked))
  }

  /**
   * The external systems are exactly the nodes tagged external, each named
   * by its id, described by its purpose and used by the system.
   */
  lemma ExternalsExact(nodes: Nodes, p: Party)
    requires nodes.Valid() && Externals(nodes).Some?
    ensures p in Externals(nodes).value <==>
              p.id in nodes.vals && IsExternal(nodes.vals[p.id]) == Some(true) &&
              p == Party(p.id, p.id, Purpose(nodes.vals[p.id]), "Uses")
  {
    var f := ExternalStep(nodes);
    if p in Externals(nodes).value {
      SelectedFrom(nodes.keys, f, p);
      var i :| 0 <= i < |nodes.keys| && f(nodes.keys[i]) == Some(Some(p));
      ExternalCheckKeeps(nodes, nodes.keys[i], p);
    }
    if p.id in nodes.vals && IsExternal(nodes.vals[p.id]) == Some(true) &&
       p == Party(p.id, p.id, Purpose(nodes.vals[p.id]), "Uses") {
      var i :| 0 <= i < |nodes.keys| && nodes.keys[i] == p.id;
      assert f(nodes.keys[i]) == Some(Some(p));
      SelectedAt(nodes.keys, f, i);
    }
  }

  // ---------------------------------------------------------------- actors

  const ActorKinds: seq<string> := ["frontend", "api_gateway", "ingress"]

  const User: Party := Party("user", "User", "System user", "Uses")

  /** `node = self.kg.nodes.get(ep)` is present and of an actor's type. */
  predicate IsActorEntry(nodes: Nodes, ep: string) {
    ep in nodes.vals && nodes.vals[ep].kind in ActorKinds
  }

  /** The `_identify_actors` loop over the entry points, which stops at the first actor. */
  function ActorsFrom(nodes: Nodes, eps: seq<string>): (r: seq<Party>)
    ensures r == [] || r == [User]
    decreases |eps|
  {
    if |eps| == 0 then []
    else if IsActorEntry(nodes, eps[0]) then [User]
    else ActorsFrom(nodes, eps[1..])
  }

  /** The loop finds the user iff some entry point is an actor's node. */
  lemma {:induction false} ActorsFromExact(nodes: Nodes, eps: seq<string>)
    ensures ActorsFrom(nodes, eps) == [User] <==> exists i :: 0 <= i < |eps| && IsActorEntry(nodes, eps[i])
    decreases |eps|
  {
    if |eps| > 0 && !IsActorEntry(nodes, eps[0]) {
      ActorsFromExact(nodes, eps[1..]);
      if exists i :: 0 <= i < |eps| && IsActorEntry(nodes, eps[i]) {
        var i :| 0 <= i < |eps| && IsActorEntry(nodes, eps[i]);
        assert eps[1..][i - 1] == eps[i];
      }
      if exists i :: 0 <= i < |eps[1..]| && IsActorEntry(nodes, eps[1..][i]) {
        var i :| 0 <= i < |eps[1..]| && IsActorEntry(nodes, eps[1..][i]);
        assert eps[i + 1] == eps[1..][i];
      }
    }
  }

  /** `_identify_actors`, over the knowledge graph's entry points. */
  function Actors(nodes: Nodes, g: DiGraph.Graph): seq<Party>
    requires g.Valid()
  {
    ActorsFrom(nodes, KnowledgeGraph.EntryPointsFrom(g, g.nodes))
  }

  /**
   * At most one actor, the user, and it is there exactly when some graph
   * node that no edge enters is a frontend, API gateway or ingress node.
   */
  lemma ActorsExact(nodes: Nodes, g: DiGraph.Graph)
    requires g.Valid()
    ensures Actors(nodes, g) == [] || Actors(nodes, g) == [User]
    ensures Actors(nodes, g) == [User] <==>
              exists n :: g.HasNode(n) && (forall u :: !g.HasEdge(u, n)) && IsActorEntry(nodes, n)
  {
    if Actors(nodes, g) == [User] {
      ActorsSound(nodes, g);
    }
    if exists n :: g.HasNode(n) && (forall u :: !g.HasEdge(u, n)) && IsActorEntry(nodes, n) {
      var n :| g.HasNode(n) && (forall u :: !g.HasEdge(u, n)) && IsActorEntry(nodes, n);
      ActorsComplete(nodes, g, n);
    }
  }

  /** The user is added only for an actor-typed node that no edge enters. */
  lemma ActorsSound(nodes: Nodes, g: DiGraph.Graph)
    requires g.Valid() && Actors(nodes, g) == [User]
    ensures exists n :: g.HasNode(n) && (forall u :: !g.HasEdge(u, n)) && IsActorEntry(nodes, n)
  {
    var eps := KnowledgeGraph.EntryPointsFrom(g, g.nodes);
    ActorsFromExact(nodes, eps);
    var i :| 0 <= i < |eps| && IsActorEntry(nodes, eps[i]);
    var n := eps[i];
    assert n in eps;
    KnowledgeGraph.EntryPointsExact(g, n);
    assert g.HasNode(n) && (forall u :: !g.HasEdge(u, n)) && IsActorEntry(nodes, n);
  }

  /** An actor-typed node that no edge enters adds the user. */
  lemma ActorsComplete(nodes: Nodes, g: DiGraph.Graph, n: string)
    requires g.Valid() && g.HasNode(n) && (forall u :: !g.HasEdge(u, n)) && IsActorEntry(nodes, n)
    ensures Actors(nodes, g) == [User]
  {
    var eps := KnowledgeGraph.EntryPointsFrom(g, g.nodes);
    KnowledgeGraph.EntryPointsExact(g, n);
    assert n in eps;
    var i :| 0 <= i < |eps| && eps[i] == n;
    ActorsFromExact(nodes, eps);
  }

  // ---------------------------------------------------------------- containers

  const ContainerKinds: seq<string> := ["service", "database", "cache", "queue", "frontend"]

  /** One node of the `_identify_containers` loop; `node.properties['technology']` raises when missing. */
  function ContainerCheck(nodes: Nodes, k: string): Option<Option<Info>> {
    if k !in nodes.vals || nodes.vals[k].kind !in ContainerKinds then Some(None)
    else
      var technology :- Lookup(nodes.vals[k].properties, "technology");
      Some(Some(Info(k, k, Purpose(nodes.vals[k]), technology)))
  }

  function ContainerStep(nodes: Nodes): (f: string -> Option<Option<Info>>)
    ensures forall k :: f(k) == ContainerCheck(nodes, k)
  {
    k => ContainerCheck(nodes, k)
  }

  /** The container check of a present node, case by case. */
  lemma ContainerCheckAt(nodes: Nodes, k: string)
    requires k in nodes.vals
    ensures var node := nodes.vals[k];
            var technology := Lookup(node.properties, "technology");
            ContainerCheck(nodes, k) ==
              if node.kind !in ContainerKinds then Some(None)
              else if technology.None? then None
              else Some(Some(Info(k, k, Purpose(node), technology.value)))
  {
  }

  lemma ContainerCheckKeeps(nodes: Nodes, k: string, c: Info)
    requires ContainerCheck(nodes, k) == Some(Some(c))
    ensures k in nodes.vals && nodes.vals[k].kind in ContainerKinds && c.id == k &&
            Lookup(nodes.vals[k].properties, "technology") == Some(c.technology) &&
            c == Info(k, k, Purpose(nodes.vals[k]), c.technology)
  {
  }

  /** `_identify_containers`: one entry per node of a container type, in node order. */
  function Containers(nodes: Nodes): Option<seq<Info>> {
    var checked :- TryMap(nodes.keys, ContainerStep(nodes));
    Some(Somes(checked))
  }

  /**
   * The containers are exactly the nodes of type service, database, cache,
   * queue or frontend (an ingress is not one), with the node's technology.
   */
  lemma ContainersExact(nodes: Nodes, c: Info)
    requires nodes.Valid() && Containers(nodes).Some?
    ensures c in Containers(nodes).value <==>
              c.id in nodes.vals && nodes.vals[c.id].kind in ContainerKinds &&
              Lookup(nodes.vals[c.id].properties, "technology") == Some(c.technology) &&
              c == Info(c.id, c.id, Purpose(nodes.vals[c.id]), c.technology)
  {
    var f := ContainerStep(nodes);
    if c in Containers(nodes).value {
      SelectedFrom(nodes.keys, f, c);
      var i :| 0 <= i < |nodes.keys| && f(nodes.keys[i]) == Some(Some(c));
      ContainerCheckKeeps(nodes, nodes.keys[i], c);
    }
    if c.id in nodes.vals && nodes.vals[c.id].kind in ContainerKinds &&
       Lookup(nodes.vals[c.id].properties, "technology") == Some(c.technology) &&
       c == Info(c.id, c.id, Purpose(nodes.vals[c.id]), c.technology) {
      var i :| 0 <= i < |nodes.keys| && nodes.keys[i] == c.id;
      assert f(nodes.keys[i]) == Some(Some(c));
      SelectedAt(nodes.keys, f, i);
    }
  }

  /** The container call fails exactly when some container-typed node has no technology property. */
  lemma ContainersRaise(nodes: Nodes)
    requires nodes.Valid()
    ensures Containers(nodes).None? <==>
              exists k :: k in nodes.vals && nodes.vals[k].kind in ContainerKinds &&
                          Lookup(nodes.vals[k].properties, "technology").None?
  {
    if Containers(nodes).None? {
      var i :| 0 <= i < |nodes.keys| && ContainerCheck(nodes, nodes.keys[i]).None?;
      assert nodes.keys[i] in nodes.vals;
    }
    if exists k :: k in nodes.vals && nodes.vals[k].kind in ContainerKinds &&
                   Lookup(nodes.vals[k].properties, "technology").None? {
      var k :| k in nodes.vals && nodes.vals[k].kind in ContainerKinds &&
               Lookup(nodes.vals[k].properties, "technology").None?;
      var i :| 0 <= i < |nodes.keys| && nodes.keys[i] == k;
      assert ContainerCheck(nodes, nodes.keys[i]).None?;
    }
  }

  function IdOf(c: Info): string {
    c.id
  }

  /** The relationship a knowledge-graph edge contributes to a container or component diagram. */
  function EdgeRel(e: KnowledgeGraph.GraphEdge): (x: C4Relationship)
    ensures x.source == e.source && x.target == e.target
    ensures x.description == Lookup(e.properties, "description").GetOr(Str(""))
    ensures x.technology == Lookup(e.properties, "protocol").GetOr(Str(""))
  {
    C4Relationship(e.source, e.target, Lookup(e.properties, "description").GetOr(Str("")),
                   Lookup(e.properties, "protocol").GetOr(Str("")))
  }

  /** The edge loop: the edges whose endpoints are both among `ids`, in edge order. */
  function EdgesWithin(ids: seq<string>, edges: seq<KnowledgeGraph.GraphEdge>): (r: seq<C4Relationship>)
    ensures |r| <= |edges|
    ensures forall x :: x in r ==> x.source in ids && x.target in ids
    ensures |ids| == 0 ==> r == []
    decreases |edges|
  {
    if |edges| == 0 then []
    else
      var e := edges[|edges| - 1];
      EdgesWithin(ids, edges[..|edges| - 1]) + (if e.source in ids && e.target in ids then [EdgeRel(e)] else [])
  }

  /** Every edge whose endpoints are both among `ids` is kept. */
  lemma {:induction false} EdgesWithinComplete(ids: seq<string>, edges: seq<KnowledgeGraph.GraphEdge>, k: nat)
    requires k < |edges| && edges[k].source in ids && edges[k].target in ids
    ensures EdgeRel(edges[k]) in EdgesWithin(ids, edges)
    decreases |edges|
  {
    var init := edges[..|edges| - 1];
    var last := edges[|edges| - 1];
    var kept := EdgesWithin(ids, init);
    var tail := if last.source in ids && last.target in ids then [EdgeRel(last)] else [];
    assert EdgesWithin(ids, edges) == kept + tail;
    if k < |init| {
      assert init[k] == edges[k];
      EdgesWithinComplete(ids, init, k);
      assert EdgeRel(edges[k]) in kept;
    } else {
      assert last == edges[k];
      assert tail == [EdgeRel(last)];
    }
  }

  // ---------------------------------------------------------------- diagram contents

  const SystemElement: C4Element := C4Element("system", "System", "system", "The main system", Str(""))

  function ExternalElement(p: Party): C4Element {
    C4Element(p.id, p.name, "system", p.description, Str(""))
  }

  function ExternalRel(p: Party): C4Relationship {
    C4Relationship("system", p.id, Str(p.interaction), Str(""))
  }

  function ActorElement(p: Party): C4Element {
    C4Element(p.id, p.name, "person", p.description, Str(""))
  }

  function ActorRel(p: Party): C4Relationship {
    C4Relationship(p.id, "system", Str(p.interaction), Str(""))
  }

  /** The elements of the context diagram: the system, the external systems, then the actors. */
  function ContextElements(exts: seq<Party>, actors: seq<Party>): seq<C4Element> {
    [SystemElement] + MapSeq(exts, ExternalElement) + MapSeq(actors, ActorElement)
  }

  /** The relationships of the context diagram: system to each external system, then each actor to the system. */
  function ContextRels(exts: seq<Party>, actors: seq<Party>): seq<C4Relationship> {
    MapSeq(exts, ExternalRel) + MapSeq(actors, ActorRel)
  }

  lemma ContextElementsAt(exts: seq<Party>, actors: seq<Party>)
    ensures var els := ContextElements(exts, actors);
            |els| == 1 + |exts| + |actors| && els[0] == SystemElement &&
            (forall i :: 0 <= i < |exts| ==> els[1 + i] == ExternalElement(exts[i])) &&
            (forall i :: 0 <= i < |actors| ==> els[1 + |exts| + i] == ActorElement(actors[i]))
  {
  }

  lemma ContextRelsAt(exts: seq<Party>, actors: seq<Party>)
    ensures var rels := ContextRels(exts, actors);
            |rels| == |exts| + |actors| &&
            (forall i :: 0 <= i < |exts| ==> rels[i] == ExternalRel(exts[i])) &&
            (forall i :: 0 <= i < |actors| ==> rels[|exts| + i] == ActorRel(actors[i]))
  {
  }

  /**
   * The context diagram holds the main system first, one more element per
   * external system and per actor, and one Rel from the system to each
   * external system and from each actor to the system.
   */
  lemma ContextShape(exts: seq<Party>, actors: seq<Party>)
    ensures var els := ContextElements(exts, actors);
            |els| == 1 + |exts| + |actors| && els[0] == SystemElement &&
            (forall i :: 0 <= i < |exts| ==> els[1 + i].id == exts[i].id && els[1 + i].kind == "system") &&
            (forall i :: 0 <= i < |actors| ==> els[1 + |exts| + i].id == actors[i].id && els[1 + |exts| + i].kind == "person")
    ensures var rels := ContextRels(exts, actors);
            |rels| == |exts| + |actors| &&
            (forall i :: 0 <= i < |exts| ==> rels[i].source == "system" && rels[i].target == exts[i].id) &&
            (forall i :: 0 <= i < |actors| ==> rels[|exts| + i].source == actors[i].id && rels[|exts| + i].target == "system")
  {
    ContextElementsAt(exts, actors);
    ContextRelsAt(exts, actors);
  }

  /** The system element is the only one with id "system" when no external system or actor has that id. */
  lemma SystemFirst(exts: seq<Party>, actors: seq<Party>)
    requires forall i :: 0 <= i < |exts| ==> exts[i].id != "system"
    requires forall i :: 0 <= i < |actors| ==> actors[i].id != "system"
    ensures var els := ContextElements(exts, actors);
            els[0].id == "system" && forall i :: 0 < i < |els| ==> els[i].id != "system"
  {
    var els := ContextElements(exts, actors);
    ContextShape(exts, actors);
    forall i | 0 < i < |els|
      ensures els[i].id != "system"
    {
      if i <= |exts| {
        assert els[i].id == exts[i - 1].id;
      } else {
        assert els[i].id == actors[i - 1 - |exts|].id;
      }
    }
  }

  /** No element but the first has id "system" unless the graph has a node named "system". */
  lemma SystemOnce(nodes: Nodes, g: DiGraph.Graph)
    requires nodes.Valid() && g.Valid() && Externals(nodes).Some? && "system" !in nodes.vals
    ensures var els := ContextElements(Externals(nodes).value, Actors(nodes, g));
            els[0].id == "system" && forall i :: 0 < i < |els| ==> els[i].id != "system"
  {
    var exts := Externals(nodes).value;
    var actors := Actors(nodes, g);
    ActorsExact(nodes, g);
    assert forall i :: 0 <= i < |actors| ==> actors[i] == User;
    forall i | 0 <= i < |exts|
      ensures exts[i].id != "system"
    {
      ExternalsExact(nodes, exts[i]);
    }
    SystemFirst(exts, actors);
  }

  function ContainerElement(c: Info): C4Element {
    C4Element(c.id, c.name, "container", c.description, c.technology)
  }

  // ---------------------------------------------------------------- rendering

  const ContextHeader: seq<string> :=
    ["@startuml", "!include https://raw.githubusercontent.com/plantuml-stdlib/C4-PlantUML/master/C4_Context.puml",
     "", "LAYOUT_WITH_LEGEND()", ""]

  const ContainerHeader: seq<string> :=
    ["@startuml", "!include https://raw.githubusercontent.com/plantuml-stdlib/C4-PlantUML/master/C4_Container.puml",
     "", "LAYOUT_WITH_LEGEND()", ""]

  const ComponentHeader: seq<string> :=
    ["@startuml", "!include https://raw.githubusercontent.com/plantuml-stdlib/C4-PlantUML/master/C4_Component.puml",
     "", "LAYOUT_WITH_LEGEND()", ""]

  /** A context element's line: a person, the main system, or an external system; no line for other kinds. */
  function ElementLine(e: C4Element): Option<string> {
    if e.kind == "person" then Some(Call("Person", e.id, [e.name, e.description]))
    else if e.kind == "system" then Some(Call(if e.id == "system" then "System" else "System_Ext", e.id, [e.name, e.description]))
    else None
  }

  /** A Rel line without technology. */
  function PlainRelLine(r: C4Relationship): string {
    RelLine(r.source, r.target, Display(r.description), "")
  }

  /** The technology after the description, only when it is truthy. */
  function TechSuffix(v: Value): (s: string)
    ensures !Truthy(v) <==> s == ""
  {
    if Truthy(v) then ", " + Display(v) else ""
  }

  /** A container diagram's Rel line. */
  function TechRelLine(r: C4Relationship): string {
    RelLine(r.source, r.target, Display(r.description), TechSuffix(r.technology))
  }

  /** Without a technology a container Rel has the context diagram's three-argument form. */
  lemma TechRelLinePlain(r: C4Relationship)
    ensures !Truthy(r.technology) <==> TechRelLine(r) == PlainRelLine(r)
  {
    if Truthy(r.technology) {
      var s := TechSuffix(r.technology);
      var d := Display(r.description);
      var head := "Rel(" + r.source + ", " + r.target + ", " + Quoted(d);
      assert TechRelLine(r) == head + s + ")";
      assert PlainRelLine(r) == head + ")";
      assert |TechRelLine(r)| != |PlainRelLine(r)|;
    }
  }

  /** `_map_to_container_type`: databases and caches are ContainerDb, queues ContainerQueue, the rest Container. */
  function MapToContainerType(kind: string): (r: string)
    ensures r == "ContainerDb" <==> kind == "database" || kind == "cache"
    ensures r == "ContainerQueue" <==> kind == "queue"
    ensures r == "Container" <==> !(kind == "database" || kind == "cache" || kind == "queue")
  {
    if kind == "database" || kind == "cache" then "ContainerDb"
    else if kind == "queue" then "ContainerQueue"
    else "Container"
  }

  function ContainerLine(e: C4Element): string {
    Call(MapToContainerType(e.kind), e.id, [e.name, Display(e.technology), e.description])
  }

  /** Container elements have type "container", so every container line uses the plain `Container` macro. */
  lemma ContainerLinesAreContainers(c: Info)
    ensures ContainerLine(ContainerElement(c)) == Call("Container", c.id, [c.name, Display(c.technology), c.description])
    ensures StartsWith(ContainerLine(ContainerElement(c)), "Container(")
  {
    CallStartsWith("Container", c.id, [c.name, Display(c.technology), c.description]);
  }

  function ComponentElement(c: Info): C4Element {
    C4Element(c.id, c.name, "component", c.description, c.technology)
  }

  function ComponentLine(e: C4Element): string {
    "  " + Call("Component", e.id, [e.name, Display(e.technology), e.description])
  }

  function BoundaryLine(containerName: string): string {
    Call("Container_Boundary", containerName, [containerName]) + " {"
  }

  /** `_render_plantuml_context`'s lines. */
  function ContextLines(elements: seq<C4Element>, rels: seq<C4Relationship>): seq<string> {
    ContextHeader + Somes(MapSeq(elements, ElementLine)) + [""] + MapSeq(rels, PlainRelLine) + ["@enduml"]
  }

  /** `_render_plantuml_container`'s lines. */
  function ContainerLines(elements: seq<C4Element>, rels: seq<C4Relationship>): seq<string> {
    ContainerHeader + MapSeq(elements, ContainerLine) + [""] + MapSeq(rels, TechRelLine) + ["@enduml"]
  }

  /** `_render_plantuml_component`'s lines: the components inside the container's boundary. */
  function ComponentLines(containerName: string, elements: seq<C4Element>, rels: seq<C4Relationship>): seq<string> {
    ComponentHeader + [BoundaryLine(containerName)] + MapSeq(elements, ComponentLine) + ["}", ""] +
    MapSeq(rels, PlainRelLine) + ["@enduml"]
  }

  /** A context diagram starts with @startuml and ends with @enduml. */
  lemma ContextFrame(elements: seq<C4Element>, rels: seq<C4Relationship>)
    ensures var lines := ContextLines(elements, rels);
            lines[0] == "@startuml" && lines[|lines| - 1] == "@enduml"
  {
    var lines := ContextLines(elements, rels);
    var front := ContextHeader + Somes(MapSeq(elements, ElementLine)) + [""] + MapSeq(rels, PlainRelLine);
    assert lines == front + ["@enduml"];
    assert lines[0] == front[0] == ContextHeader[0];
  }

  /** A container diagram starts with @startuml and ends with @enduml. */
  lemma ContainerFrame(elements: seq<C4Element>, rels: seq<C4Relationship>)
    ensures var lines := ContainerLines(elements, rels);
            lines[0] == "@startuml" && lines[|lines| - 1] == "@enduml"
  {
    var lines := ContainerLines(elements, rels);
    var front := ContainerHeader + MapSeq(elements, ContainerLine) + [""] + MapSeq(rels, TechRelLine);
    assert lines == front + ["@enduml"];
    assert lines[0] == front[0] == ContainerHeader[0];
  }

  /** A component diagram starts with @startuml, ends with @enduml, and its components sit inside the boundary. */
  lemma ComponentFrame(name: string, elements: seq<C4Element>, rels: seq<C4Relationship>)
    ensures var lines := ComponentLines(name, elements, rels);
            lines[0] == "@startuml" && lines[|lines| - 1] == "@enduml" &&
            lines[5] == BoundaryLine(name) && lines[6 + |elements|] == "}" &&
            forall i :: 0 <= i < |elements| ==> lines[6 + i] == ComponentLine(elements[i])
  {
    var lines := ComponentLines(name, elements, rels);
    var drawn := MapSeq(elements, ComponentLine);
    var boxed := ComponentHeader + [BoundaryLine(name)] + drawn;
    var front := boxed + ["}", ""] + MapSeq(rels, PlainRelLine);
    assert lines == front + ["@enduml"];
    assert |ComponentHeader| == 5;
    assert lines[0] == front[0] == boxed[0] == ComponentHeader[0];
    assert lines[5] == front[5] == boxed[5];
    assert lines[6 + |elements|] == front[6 + |elements|];
    forall i | 0 <= i < |elements|
      ensures lines[6 + i] == ComponentLine(elements[i])
    {
      assert lines[6 + i] == front[6 + i] == boxed[6 + i] == drawn[i];
    }
  }

  const SystemLine: string := Call("System", "system", ["System", "The main system"])

  /** An external system's line: `System_Ext`, or `System` when its id is "system". */
  function ExternalSystemLine(p: Party): string {
    Call(if p.id == "system" then "System" else "System_Ext", p.id, [p.name, p.description])
  }

  function PersonLine(p: Party): string {
    Call("Person", p.id, [p.name, p.description])
  }

  lemma SystemElementLine()
    ensures ElementLine(SystemElement) == Some(SystemLine)
  {
  }

  lemma ExternalLine(p: Party)
    ensures ElementLine(ExternalElement(p)) == Some(ExternalSystemLine(p))
  {
  }

  lemma ActorLine(p: Party)
    ensures ElementLine(ActorElement(p)) == Some(PersonLine(p))
  {
  }

  /**
   * Every context element is drawn, in order: the main system with
   * `System`, each external system with `System_Ext` (unless its id is
   * "system"), each actor with `Person`.
   */
  lemma ContextElementLines(exts: seq<Party>, actors: seq<Party>)
    ensures Somes(MapSeq(ContextElements(exts, actors), ElementLine)) ==
            [SystemLine] + MapSeq(exts, ExternalSystemLine) + MapSeq(actors, PersonLine)
  {
    var front := [SystemElement];
    var externals := MapSeq(exts, ExternalElement);
    var persons := MapSeq(actors, ActorElement);
    MapSeqConcat(front + externals, persons, ElementLine);
    MapSeqConcat(front, externals, ElementLine);
    var m0 := MapSeq(front, ElementLine);
    var m1 := MapSeq(externals, ElementLine);
    var m2 := MapSeq(persons, ElementLine);
    SomesConcat(m0 + m1, m2);
    SomesConcat(m0, m1);
    SystemElementLine();
    assert m0 == [Some(SystemLine)];
    assert Somes(m0) == [SystemLine];
    forall i | 0 <= i < |exts|
      ensures ElementLine(externals[i]) == Some(ExternalSystemLine(exts[i]))
    {
      ExternalLine(exts[i]);
    }
    SomesMapAll(externals, ElementLine, exts, ExternalSystemLine);
    forall i | 0 <= i < |actors|
      ensures ElementLine(persons[i]) == Some(PersonLine(actors[i]))
    {
      ActorLine(actors[i]);
    }
    SomesMapAll(persons, ElementLine, actors, PersonLine);
  }

  // ---------------------------------------------------------------- the diagrams

  /** `generate_context_diagram`; None when identifying the external systems raises. */
  function ContextDiagram(nodes: Nodes, g: DiGraph.Graph): Option<string>
    requires g.Valid()
  {
    var exts :- Externals(nodes);
    var actors := Actors(nodes, g);
    Some(Join("\n", ContextLines(ContextElements(exts, actors), ContextRels(exts, actors))))
  }

  /** `generate_container_diagram`; None when identifying the containers raises. */
  function ContainerDiagram(nodes: Nodes, edges: seq<KnowledgeGraph.GraphEdge>): Option<string> {
    var containers :- Containers(nodes);
    Some(Join("\n", ContainerLines(MapSeq(containers, ContainerElement), EdgesWithin(MapSeq(containers, IdOf), edges))))
  }

  /** `generate_component_diagram`: the container's components are never looked up, so the list is empty. */
  function ComponentDiagram(containerName: string, edges: seq<KnowledgeGraph.GraphEdge>): string {
    Join("\n", ComponentLines(containerName, [], EdgesWithin([], edges)))
  }

  /** A component diagram has the boundary and no component and no Rel line, whatever the graph. */
  lemma ComponentDiagramEmpty(containerName: string, edges: seq<KnowledgeGraph.GraphEdge>)
    ensures ComponentDiagram(containerName, edges) == Join("\n", ComponentLines(containerName, [], []))
    ensures |ComponentLines(containerName, [], EdgesWithin([], edges))| == 9
  {
  }

  predicate IsContainerNode(nodes: Nodes, id: string) {
    id in nodes.vals && nodes.vals[id].kind in ContainerKinds
  }

  /** The container diagram keeps an edge exactly when both of its endpoints are containers. */
  lemma ContainerDiagramEdges(nodes: Nodes, edges: seq<KnowledgeGraph.GraphEdge>, k: nat)
    requires nodes.Valid() && Containers(nodes).Some? && k < |edges|
    ensures var ids := MapSeq(Containers(nodes).value, IdOf);
            (IsContainerNode(nodes, edges[k].source) && IsContainerNode(nodes, edges[k].target) ==>
               EdgeRel(edges[k]) in EdgesWithin(ids, edges)) &&
            (forall x :: x in EdgesWithin(ids, edges) ==> IsContainerNode(nodes, x.source) && IsContainerNode(nodes, x.target))
  {
    var ids := MapSeq(Containers(nodes).value, IdOf);
    ContainerIdExact(nodes, edges[k].source);
    ContainerIdExact(nodes, edges[k].target);
    if edges[k].source in ids && edges[k].target in ids {
      EdgesWithinComplete(ids, edges, k);
    }
    forall x | x in EdgesWithin(ids, edges)
      ensures IsContainerNode(nodes, x.source) && IsContainerNode(nodes, x.target)
    {
      ContainerIdExact(nodes, x.source);
      ContainerIdExact(nodes, x.target);
    }
  }

  /** The container ids are exactly the ids of the container-typed nodes. */
  lemma ContainerIdExact(nodes: Nodes, id: string)
    requires nodes.Valid() && Containers(nodes).Some?
    ensures id in MapSeq(Containers(nodes).value, IdOf) <==> IsContainerNode(nodes, id)
  {
    var cs := Containers(nodes).value;
    var ids := MapSeq(cs, IdOf);
    if id in ids {
      var i :| 0 <= i < |ids| && ids[i] == id;
      ContainersExact(nodes, cs[i]);
    }
    if IsContainerNode(nodes, id) {
      ContainersRaise(nodes);
      var tech := Lookup(nodes.vals[id].properties, "technology").value;
      var c := Info(id, id, Purpose(nodes.vals[id]), tech);
      ContainersExact(nodes, c);
      var i :| 0 <= i < |cs| && cs[i] == c;
      assert ids[i] == id;
    }
  }

  // ---------------------------------------------------------------- generate_all_diagrams

  /** The files written, by name, and whether the call returned without raising. */
  datatype Outcome = Outcome(files: seq<(string, string)>, completed: bool)

  /**
   * `generate_all_diagrams` as written: after the context and container
   * files, the first container's `cont['type']` raises KeyError, because
   * the container entries carry no 'type'.
   */
  function AllDiagrams(nodes: Nodes, g: DiGraph.Graph, edges: seq<KnowledgeGraph.GraphEdge>): Outcome
    requires g.Valid()
  {
    match ContextDiagram(nodes, g)
    case None => Outcome([], false)
    case Some(context) =>
      match ContainerDiagram(nodes, edges)
      case None => Outcome([("context.puml", context)], false)
      case Some(container) =>
        var written := [("context.puml", context), ("container.puml", container)];
        Outcome(written, |Containers(nodes).value| == 0)
  }

  /** As written, any graph with a container ends in KeyError after the first two files. */
  lemma AllDiagramsRaisesOnContainer(nodes: Nodes, g: DiGraph.Graph, edges: seq<KnowledgeGraph.GraphEdge>)
    requires g.Valid() && ContextDiagram(nodes, g).Some? && ContainerDiagram(nodes, edges).Some?
    requires |Containers(nodes).value| > 0
    ensures !AllDiagrams(nodes, g, edges).completed && |AllDiagrams(nodes, g, edges).files| == 2
  {
  }

  /** A single service node is enough: no component diagram is ever written. */
  lemma OneServiceRaises()
    ensures var node := KnowledgeGraph.GraphNode("api", "service", [("technology", Str("python"))], None);
            var nodes := Dict(["api"], map["api" := node]);
            !AllDiagrams(nodes, DiGraph.Empty(), []).completed
  {
    var node := KnowledgeGraph.GraphNode("api", "service", [("technology", Str("python"))], None);
    var nodes := Dict(["api"], map["api" := node]);
    assert IsExternal(node) == Some(false);
    assert ExternalCheck(nodes, "api").Some?;
    assert ContainerCheck(nodes, "api") == Some(Some(Info("api", "api", "", Str("python"))));
    assert Containers(nodes).Some?;
    assert TryMap(nodes.keys, ContainerStep(nodes)).value == [Some(Info("api", "api", "", Str("python")))];
  }

  predicate IsService(nodes: Nodes, id: string) {
    id in nodes.vals && nodes.vals[id].kind == "service"
  }

  /** The component diagrams for the service containers, in order. */
  function ServiceDiagrams(nodes: Nodes, cs: seq<Info>, edges: seq<KnowledgeGraph.GraphEdge>): (r: seq<(string, string)>)
    ensures |r| <= |cs|
    decreases |cs|
  {
    if |cs| == 0 then []
    else
      var c := cs[|cs| - 1];
      ServiceDiagrams(nodes, cs[..|cs| - 1], edges) +
      (if IsService(nodes, c.id) then [("component_" + c.id + ".puml", ComponentDiagram(c.id, edges))] else [])
  }

  lemma ServiceDiagramsSnoc(nodes: Nodes, cs: seq<Info>, edges: seq<KnowledgeGraph.GraphEdge>, i: nat)
    requires i < |cs|
    ensures ServiceDiagrams(nodes, cs[..i + 1], edges) ==
            ServiceDiagrams(nodes, cs[..i], edges) +
            (if IsService(nodes, cs[i].id) then [("component_" + cs[i].id + ".puml", ComponentDiagram(cs[i].id, edges))] else [])
  {
    assert cs[..i + 1][..i] == cs[..i];
  }

  /** Each service container gets its component diagram. */
  lemma {:induction false} ServiceDiagramsComplete(nodes: Nodes, cs: seq<Info>, edges: seq<KnowledgeGraph.GraphEdge>, k: nat)
    requires k < |cs| && IsService(nodes, cs[k].id)
    ensures ("component_" + cs[k].id + ".puml", ComponentDiagram(cs[k].id, edges)) in ServiceDiagrams(nodes, cs, edges)
    decreases |cs|
  {
    var init := cs[..|cs| - 1];
    if k < |init| {
      assert init[k] == cs[k];
      ServiceDiagramsComplete(nodes, init, edges, k);
    }
  }

  /**
   * `generate_all_diagrams` as evidently intended: the type test reads the
   * node's type, and each service container gets a component diagram.
   */
  function AllDiagramsCorrected(nodes: Nodes, g: DiGraph.Graph, edges: seq<KnowledgeGraph.GraphEdge>): (r: Outcome)
    requires g.Valid()
    ensures r.completed <==> ContextDiagram(nodes, g).Some? && ContainerDiagram(nodes, edges).Some?
    ensures r.completed ==> |r.files| >= 2 && r.files[0].0 == "context.puml" && r.files[1].0 == "container.puml"
  {
    match ContextDiagram(nodes, g)
    case None => Outcome([], false)
    case Some(context) =>
      match ContainerDiagram(nodes, edges)
      case None => Outcome([("context.puml", context)], false)
      case Some(container) =>
        Outcome([("context.puml", context), ("container.puml", container)] +
                ServiceDiagrams(nodes, Containers(nodes).value, edges), true)
  }

  /** With the correction, every service node's component diagram is among the files. */
  lemma CorrectedWritesEveryService(nodes: Nodes, g: DiGraph.Graph, edges: seq<KnowledgeGraph.GraphEdge>, id: string)
    requires nodes.Valid() && g.Valid() && AllDiagramsCorrected(nodes, g, edges).completed && IsService(nodes, id)
    ensures ("component_" + id + ".puml", ComponentDiagram(id, edges)) in AllDiagramsCorrected(nodes, g, edges).files
  {
    var cs := Containers(nodes).value;
    var ids := MapSeq(cs, IdOf);
    assert IsContainerNode(nodes, id);
    ContainerIdExact(nodes, id);
    var k :| 0 <= k < |ids| && ids[k] == id;
    ServiceDiagramsComplete(nodes, cs, edges, k);
  }

  /** The body of the `_identify_external_systems` loop for one node; None when reading its tags raises. */
  method ExternalEntry(nodes: Nodes, k: string) returns (e: Option<Option<Party>>)
    requires k in nodes.vals
    ensures e == ExternalCheck(nodes, k)
  {
    var node := nodes.vals[k];
    var tagged := IsExternal(node);
    ExternalCheckAt(nodes, k);
    if tagged.None? {
      return None;
    }
    e := Some(if tagged.value then Some(Party(k, k, Purpose(node), "Uses")) else None);
  }

  /** The body of the `_identify_containers` loop for one node; None when its technology is missing. */
  method ContainerEntry(nodes: Nodes, k: string) returns (e: Option<Option<Info>>)
    requires k in nodes.vals
    ensures e == ContainerCheck(nodes, k)
  {
    var node := nodes.vals[k];
    ContainerCheckAt(nodes, k);
    if node.kind !in ContainerKinds {
      return Some(None);
    }
    var technology := Lookup(node.properties, "technology");
    if technology.None? {
      return None;
    }
    e := Some(Some(Info(k, k, Purpose(node), technology.value)));
  }

  /** `_identify_containers`: the loop over the node map. */
  method CollectContainers(nodes: Nodes) returns (r: Option<seq<Info>>)
    requires nodes.Valid()
    ensures r == Containers(nodes)
  {
    var keys := nodes.keys;
    var f := ContainerStep(nodes);
    var containers: seq<Info> := [];
    ghost var seen: seq<Option<Info>> := [];
    var i := 0;
    while i < |keys|
      invariant 0 <= i <= |keys|
      invariant TryMap(keys[..i], f) == Some(seen) && containers == Somes(seen)
    {
      var entry := ContainerEntry(nodes, keys[i]);
      if entry.None? {
        TryMapFails(keys, f, i);
        return None;
      }
      SelectSnoc(keys, f, i, seen, entry.value);
      if entry.value.Some? {
        containers := containers + [entry.value.value];
      }
      seen := seen + [entry.value];
      i := i + 1;
    }
    assert keys[..i] == keys;
    r := Some(containers);
  }

  /** `_identify_external_systems`: the loop over the node map. */
  method CollectExternalSystems(nodes: Nodes) returns (r: Option<seq<Party>>)
    requires nodes.Valid()
    ensures r == Externals(nodes)
  {
    var keys := nodes.keys;
    var f := ExternalStep(nodes);
    var external: seq<Party> := [];
    ghost var seen: seq<Option<Party>> := [];
    var i := 0;
    while i < |keys|
      invariant 0 <= i <= |keys|
      invariant TryMap(keys[..i], f) == Some(seen) && external == Somes(seen)
    {
      var entry := ExternalEntry(nodes, keys[i]);
      if entry.None? {
        TryMapFails(keys, f, i);
        return None;
      }
      SelectSnoc(keys, f, i, seen, entry.value);
      if entry.value.Some? {
        external := external + [entry.value.value];
      }
      seen := seen + [entry.value];
      i := i + 1;
    }
    assert keys[..i] == keys;
    r := Some(external);
  }

  // ---------------------------------------------------------------- the generator

  class Generator {
    const kg: KnowledgeGraph.KnowledgeGraphBuilder

    constructor(kg: KnowledgeGraph.KnowledgeGraphBuilder)
      ensures this.kg == kg
    {
      this.kg := kg;
    }

    /** `_infer_system_name`. */
    function InferSystemName(): (r: string)
      ensures r == SystemElement.name
    {
      "System"
    }


    /** `_identify_external_systems`. */
    method IdentifyExternalSystems() returns (r: Option<seq<Party>>)
      requires kg.Valid()
      ensures r == Externals(kg.nodes)
    {
      r := CollectExternalSystems(kg.nodes);
    }

    /** `_identify_actors`: the first entry point of an actor's type adds the user, and the loop stops. */
    method IdentifyActors() returns (r: seq<Party>)
      requires kg.Valid()
      ensures r == Actors(kg.nodes, kg.graph)
    {
      var entryPoints := kg.IdentifyEntryPoints();
      r := [];
      var i := 0;
      while i < |entryPoints|
        invariant 0 <= i <= |entryPoints|
        invariant ActorsFrom(kg.nodes, entryPoints[i..]) == ActorsFrom(kg.nodes, entryPoints)
      {
        if IsActorEntry(kg.nodes, entryPoints[i]) {
          r := [User];
          return;
        }
        assert entryPoints[i..][1..] == entryPoints[i + 1..];
        i := i + 1;
      }
    }


    /** `_identify_containers`. */
    method IdentifyContainers() returns (r: Option<seq<Info>>)
      requires kg.Valid()
      ensures r == Containers(kg.nodes)
    {
      r := CollectContainers(kg.nodes);
    }

    /** The external-systems loop of `generate_context_diagram`: an element and a Rel per external system. */
    method AddExternalSystems(es: seq<Party>) returns (elements: seq<C4Element>, relationships: seq<C4Relationship>)
      ensures elements == MapSeq(es, ExternalElement) && relationships == MapSeq(es, ExternalRel)
    {
      elements, relationships := [], [];
      var i := 0;
      while i < |es|
        invariant 0 <= i <= |es|
        invariant elements == MapSeq(es[..i], ExternalElement) && relationships == MapSeq(es[..i], ExternalRel)
      {
        MapSeqSnoc(es, ExternalElement, i);
        MapSeqSnoc(es, ExternalRel, i);
        elements := elements + [ExternalElement(es[i])];
        relationships := relationships + [ExternalRel(es[i])];
        i := i + 1;
      }
      assert es[..i] == es;
    }

    /** The actors loop of `generate_context_diagram`: an element and a Rel per actor. */
    method AddActors(actors: seq<Party>) returns (elements: seq<C4Element>, relationships: seq<C4Relationship>)
      ensures elements == MapSeq(actors, ActorElement) && relationships == MapSeq(actors, ActorRel)
    {
      elements, relationships := [], [];
      var j := 0;
      while j < |actors|
        invariant 0 <= j <= |actors|
        invariant elements == MapSeq(actors[..j], ActorElement) && relationships == MapSeq(actors[..j], ActorRel)
      {
        MapSeqSnoc(actors, ActorElement, j);
        MapSeqSnoc(actors, ActorRel, j);
        elements := elements + [ActorElement(actors[j])];
        relationships := relationships + [ActorRel(actors[j])];
        j := j + 1;
      }
      assert actors[..j] == actors;
    }

    /** `generate_context_diagram`. */
    method GenerateContextDiagram() returns (r: Option<string>)
      requires kg.Valid()
      ensures r == ContextDiagram(kg.nodes, kg.graph)
    {
      var exts := IdentifyExternalSystems();
      if exts.None? {
        return None;
      }
      var es := exts.value;
      var externalElements, externalRels := AddExternalSystems(es);
      var actors := IdentifyActors();
      var actorElements, actorRels := AddActors(actors);
      var elements := [SystemElement] + externalElements + actorElements;
      var relationships := externalRels + actorRels;
      var text := RenderPlantumlContext(elements, relationships);
      r := Some(text);
    }

    /** `generate_container_diagram`. */
    method GenerateContainerDiagram() returns (r: Option<string>)
      requires kg.Valid()
      ensures r == ContainerDiagram(kg.nodes, kg.edges)
    {
      var found := IdentifyContainers();
      if found.None? {
        return None;
      }
      var containers := found.value;
      var elements: seq<C4Element> := [];
      var ids: seq<string> := [];
      var i := 0;
      while i < |containers|
        invariant 0 <= i <= |containers|
        invariant elements == MapSeq(containers[..i], ContainerElement)
        invariant ids == MapSeq(containers[..i], IdOf)
      {
        MapSeqSnoc(containers, ContainerElement, i);
        MapSeqSnoc(containers, IdOf, i);
        elements := elements + [ContainerElement(containers[i])];
        ids := ids + [containers[i].id];
        i := i + 1;
      }
      assert containers[..i] == containers;
      var relationships := LinkWithin(ids, kg.edges);
      var text := RenderPlantumlContainer(elements, relationships);
      r := Some(text);
    }

    /** The edge loop of the container and component diagrams. */
    method LinkWithin(ids: seq<string>, edges: seq<KnowledgeGraph.GraphEdge>) returns (r: seq<C4Relationship>)
      ensures r == EdgesWithin(ids, edges)
    {
      r := [];
      var i := 0;
      while i < |edges|
        invariant 0 <= i <= |edges|
        invariant r == EdgesWithin(ids, edges[..i])
      {
        assert edges[..i + 1][..i] == edges[..i];
        var e := edges[i];
        if e.source in ids && e.target in ids {
          r := r + [EdgeRel(e)];
        }
        i := i + 1;
      }
      assert edges[..i] == edges;
    }

    /** `_get_components_in_container`: always empty. */
    function GetComponentsInContainer(containerName: string): (r: seq<Info>)
      ensures r == []
    {
      []
    }

    /** `generate_component_diagram`. */
    method GenerateComponentDiagram(containerName: string) returns (r: string)
      ensures r == ComponentDiagram(containerName, kg.edges)
    {
      var components := GetComponentsInContainer(containerName);
      var elements := MapSeq(components, ComponentElement);
      var relationships := LinkWithin(MapSeq(components, IdOf), kg.edges);
      r := RenderPlantumlComponent(containerName, elements, relationships);
    }

    /** `_render_plantuml_context`. */
    method RenderPlantumlContext(elements: seq<C4Element>, relationships: seq<C4Relationship>) returns (r: string)
      ensures r == Join("\n", ContextLines(elements, relationships))
    {
      var drawn := DrawContextElements(elements);
      var rels := AppendEach(relationships, PlainRelLine);
      r := Join("\n", ContextHeader + drawn + [""] + rels + ["@enduml"]);
    }

    /** The element loop of `_render_plantuml_context`: persons and systems are drawn, other kinds skipped. */
    method DrawContextElements(elements: seq<C4Element>) returns (drawn: seq<string>)
      ensures drawn == Somes(MapSeq(elements, ElementLine))
    {
      drawn := [];
      var i := 0;
      while i < |elements|
        invariant 0 <= i <= |elements|
        invariant drawn == Somes(MapSeq(elements[..i], ElementLine))
      {
        SomesMapSnoc(elements, ElementLine, i);
        var line := ElementLine(elements[i]);
        if line.Some? {
          drawn := drawn + [line.value];
        }
        i := i + 1;
      }
      assert elements[..i] == elements;
    }

    /** `_render_plantuml_container`. */
    method RenderPlantumlContainer(elements: seq<C4Element>, relationships: seq<C4Relationship>) returns (r: string)
      ensures r == Join("\n", ContainerLines(elements, relationships))
    {
      var drawn := AppendEach(elements, ContainerLine);
      var rels := AppendEach(relationships, TechRelLine);
      r := Join("\n", ContainerHeader + drawn + [""] + rels + ["@enduml"]);
    }

    /** `_render_plantuml_component`. */
    method RenderPlantumlComponent(containerName: string, elements: seq<C4Element>, relationships: seq<C4Relationship>)
      returns (r: string)
      ensures r == Join("\n", ComponentLines(containerName, elements, relationships))
    {
      var drawn := AppendEach(elements, ComponentLine);
      var rels := AppendEach(relationships, PlainRelLine);
      r := Join("\n", ComponentHeader + [BoundaryLine(containerName)] + drawn + ["}", ""] + rels + ["@enduml"]);
    }

    /** `generate_all_diagrams` as written, with the files it writes returned instead. */
    method GenerateAllDiagrams() returns (r: Outcome)
      requires kg.Valid()
      ensures r == AllDiagrams(kg.nodes, kg.graph, kg.edges)
    {
      var context := GenerateContextDiagram();
      if context.None? {
        return Outcome([], false);
      }
      var container := GenerateContainerDiagram();
      if container.None? {
        return Outcome([("context.puml", context.value)], false);
      }
      var written := [("context.puml", context.value), ("container.puml", container.value)];
      var containers := IdentifyContainers();
      r := Outcome(written, |containers.value| == 0);
    }

    /** The component-diagram loop of `generate_all_diagrams`, over the service containers. */
    method GenerateServiceDiagrams(containers: seq<Info>) returns (r: seq<(string, string)>)
      ensures r == ServiceDiagrams(kg.nodes, containers, kg.edges)
    {
      r := [];
      var i := 0;
      while i < |containers|
        invariant 0 <= i <= |containers|
        invariant r == ServiceDiagrams(kg.nodes, containers[..i], kg.edges)
      {
        ServiceDiagramsSnoc(kg.nodes, containers, kg.edges, i);
        var id := containers[i].id;
        if IsService(kg.nodes, id) {
          var component := GenerateComponentDiagram(id);
          r := r + [("component_" + id + ".puml", component)];
        }
        i := i + 1;
      }
      assert containers[..i] == containers;
    }

    /** `generate_all_diagrams` with the service test on the node's type. */
    method GenerateAllDiagramsCorrected() returns (r: Outcome)
      requires kg.Valid()
      ensures r == AllDiagramsCorrected(kg.nodes, kg.graph, kg.edges)
    {
      var context := GenerateContextDiagram();
      if context.None? {
        return Outcome([], false);
      }
      var container := GenerateContainerDiagram();
      if container.None? {
        return Outcome([("context.puml", context.value)], false);
      }
      var cs := IdentifyContainers();
      var components := GenerateServiceDiagrams(cs.value);
      var files := [("context.puml", context.value), ("container.puml", container.value)] + components;
      r := Outcome(files, true);
    }
  }
}
