/**
 * The C4 data model (src/models/architecture_model.py): elements,
 * relationships, containers, components and the model that holds them,
 * with the model's lookups and filters.
 */
module ArchitectureModel {
  import opened Wrappers
  import opened Strings
  import opened Values

  datatype ElementType = PersonElement | SystemElement | ContainerElement | ComponentElement {
    /** The enum's value. */
    function Value(): string {
      match this
      case PersonElement => "person"
      case SystemElement => "software_system"
      case ContainerElement => "container"
      case ComponentElement => "component"
    }
  }

  datatype Technology = Python | Java | NodeJs | Docker | Kubernetes | Postgres | Redis | Kafka | Golang | CSharp {
    /** The enum's value, the text the diagrams show. */
    function Value(): string {
      match this
      case Python => "Python"
      case Java => "Java"
      case NodeJs => "Node.js"
      case Docker => "Docker"
      case Kubernetes => "Kubernetes"
      case Postgres => "PostgreSQL"
      case Redis => "Redis"
      case Kafka => "Apache Kafka"
      case Golang => "Go"
      case CSharp => "C#"
    }
  }

  /** A person or software system; `technology` None is the dataclass default. */
  datatype ArchitectureElement = ArchitectureElement(
    id: string,
    name: string,
    kind: ElementType,
    description: string,
    technology: Option<seq<Technology>>,
    tags: set<string>,
    properties: Fields)

  /**
   * A relationship between two element ids.  Technology and protocol are
   * whatever the relationship inference returned (None by default).
   */
  datatype Relationship = Relationship(
    sourceId: string,
    targetId: string,
    description: string,
    technology: Value,
    protocol: Value)

  datatype Container = Container(
    id: string,
    name: string,
    description: string,
    kind: ElementType,
    technology: Option<seq<Technology>>,
    tags: set<string>,
    properties: Fields,
    runtimeEnvironment: Value,
    exposedPorts: seq<int>,
    environmentVars: Value,
    dependencies: Value)
  {
    /** `to_element`: the element fields, unchanged. */
    function ToElement(): (e: ArchitectureElement)
      ensures e.id == id && e.name == name && e.kind == kind && e.description == description
      ensures e.technology == technology && e.tags == tags && e.properties == properties
    {
      ArchitectureElement(id, name, kind, description, technology, tags, properties)
    }
  }

  /** A component; `containerId` holds whatever the analysis stored there, possibly None. */
  datatype Component = Component(
    id: string,
    name: string,
    description: string,
    containerId: Value,
    kind: ElementType,
    technology: Option<seq<Technology>>,
    tags: set<string>,
    properties: Fields,
    sourceFiles: seq<Value>,
    interfaces: seq<Value>)
  {
    /** `to_element`: the element fields, unchanged. */
    function ToElement(): (e: ArchitectureElement)
      ensures e.id == id && e.name == name && e.kind == kind && e.description == description
      ensures e.technology == technology && e.tags == tags && e.properties == properties
    {
      ArchitectureElement(id, name, kind, description, technology, tags, properties)
    }
  }

  /** `Container(id=…, name=…, description=…)` with every other field at its default. */
  function NewContainer(id: string, name: string, description: string): (c: Container)
    ensures c.id == id && c.name == name && c.description == description
    ensures c.kind == ContainerElement && c.technology.None? && c.tags == {} && c.properties == []
    ensures c.runtimeEnvironment == Null && c.exposedPorts == [] && c.environmentVars == Obj([])
    ensures c.dependencies == List([])
  {
    Container(id, name, description, ContainerElement, None, {}, [], Null, [], Obj([]), List([]))
  }

  /** `Component(id=…, name=…, description=…, container_id=…)` with every other field at its default. */
  function NewComponent(id: string, name: string, description: string, containerId: Value): (c: Component)
    ensures c.id == id && c.name == name && c.description == description && c.containerId == containerId
    ensures c.kind == ComponentElement && c.technology.None? && c.tags == {} && c.properties == []
    ensures c.sourceFiles == [] && c.interfaces == []
  {
    Component(id, name, description, containerId, ComponentElement, None, {}, [], [], [])
  }

  /** The whole model. */
  datatype C4Model = C4Model(
    name: string,
    description: string,
    people: seq<ArchitectureElement>,
    systems: seq<ArchitectureElement>,
    containers: seq<Container>,
    components: seq<Component>,
    relationships: seq<Relationship>)
  {
    /** `get_container_by_id`: the first container with that id. */
    function GetContainerById(id: string): (r: Option<Container>)
      ensures r.None? <==> forall k :: 0 <= k < |containers| ==> containers[k].id != id
      ensures r.Some? ==>
                exists k :: (0 <= k < |containers| && containers[k] == r.value && r.value.id == id
                             && forall j :: 0 <= j < k ==> containers[j].id != id)
    {
      match FirstWhere(containers, (c: Container) => c.id == id, 0)
      case None => None
      case Some(k) => Some(containers[k])
    }

    /** `get_component_by_id`: the first component with that id. */
    function GetComponentById(id: string): (r: Option<Component>)
      ensures r.None? <==> forall k :: 0 <= k < |components| ==> components[k].id != id
      ensures r.Some? ==>
                exists k :: (0 <= k < |components| && components[k] == r.value && r.value.id == id
                             && forall j :: 0 <= j < k ==> components[j].id != id)
    {
      match FirstWhere(components, (c: Component) => c.id == id, 0)
      case None => None
      case Some(k) => Some(components[k])
    }

    /** `get_system_by_id`: the first system with that id. */
    function GetSystemById(id: string): (r: Option<ArchitectureElement>)
      ensures r.None? <==> forall k :: 0 <= k < |systems| ==> systems[k].id != id
      ensures r.Some? ==>
                exists k :: (0 <= k < |systems| && systems[k] == r.value && r.value.id == id
                             && forall j :: 0 <= j < k ==> systems[j].id != id)
    {
      match FirstWhere(systems, (s: ArchitectureElement) => s.id == id, 0)
      case None => None
      case Some(k) => Some(systems[k])
    }

    /** `get_components_by_container`: the components whose `container_id` is that id, in order. */
    function GetComponentsByContainer(containerId: string): (r: seq<Component>)
      ensures forall c :: c in r <==> c in components && c.containerId == Str(containerId)
      ensures |r| <= |components|
    {
      Filter(components, (c: Component) => c.containerId == Str(containerId))
    }

    /** `get_relationships_for_element`: the relationships from or to the id, in order. */
    function GetRelationshipsForElement(elementId: string): (r: seq<Relationship>)
      ensures forall x :: x in r <==> x in relationships && (x.sourceId == elementId || x.targetId == elementId)
      ensures |r| <= |relationships|
    {
      Filter(relationships, (x: Relationship) => x.sourceId == elementId || x.targetId == elementId)
    }
  }

  /** Adding components at the end keeps the earlier matches first and appends the new ones' matches. */
  lemma ComponentsByContainerAppend(m: C4Model, more: seq<Component>, containerId: string)
    ensures m.(components := m.components + more).GetComponentsByContainer(containerId) ==
              m.GetComponentsByContainer(containerId) + m.(components := more).GetComponentsByContainer(containerId)
  {
    FilterAppend(m.components, more, (c: Component) => c.containerId == Str(containerId));
  }

  /** Adding relationships at the end keeps the earlier matches first and appends the new ones' matches. */
  lemma RelationshipsForAppend(m: C4Model, more: seq<Relationship>, elementId: string)
    ensures m.(relationships := m.relationships + more).GetRelationshipsForElement(elementId) ==
              m.GetRelationshipsForElement(elementId) + m.(relationships := more).GetRelationshipsForElement(elementId)
  {
    FilterAppend(m.relationships, more, (x: Relationship) => x.sourceId == elementId || x.targetId == elementId);
  }

  /** A lookup by id finds an element whenever one with that id is listed, and it is the first one. */
  lemma GetContainerFirst(m: C4Model, k: nat)
    requires k < |m.containers|
    requires forall j :: 0 <= j < k ==> m.containers[j].id != m.containers[k].id
    ensures m.GetContainerById(m.containers[k].id) == Some(m.containers[k])
  {
    var r := m.GetContainerById(m.containers[k].id);
    var i :| 0 <= i < |m.containers| && m.containers[i] == r.value && r.value.id == m.containers[k].id
             && forall j :: 0 <= j < i ==> m.containers[j].id != m.containers[k].id;
    assert !(i < k) && !(k < i);
  }
}
