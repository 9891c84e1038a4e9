/**
 * `PlantUMLRenderer` (src/renderer/plantuml_renderer.py): the context,
 * container and component diagrams of a finished C4 model, one PlantUML
 * file each under the output directory.  Every `render_*` method builds its
 * line list by appending, joins it with newlines, and returns the file's
 * path; here it returns the text it would write beside the path.
 */
module PlantUmlRenderer {
  import opened Wrappers
  import opened Strings
  import opened Values
  import opened ArchitectureModel
  import opened PlantUml
  import Paths

  // ---------------------------------------------------------------- shared pieces

  function TechValue(t: Technology): string {
    t.Value()
  }

  lemma TechValueNonEmpty(t: Technology)
    ensures |TechValue(t)| > 0
  {
  }

  /** `", ".join([t.value for t in technology]) if technology else ""`. */
  function TechStr(technology: Option<seq<Technology>>): (r: string)
    ensures r == "" <==> technology.None? || technology.value == []
  {
    if technology.None? || |technology.value| == 0 then ""
    else
      var values := MapSeq(technology.value, TechValue);
      JoinFirst(", ", values);
      TechValueNonEmpty(technology.value[0]);
      Join(", ", values)
  }

  /** `f", {rel.protocol}" if rel.protocol else ""`. */
  function ProtocolSuffix(protocol: Value): (s: string)
    ensures !Truthy(protocol) <==> s == ""
  {
    if Truthy(protocol) then ", " + Display(protocol) else ""
  }

  /** A Rel line with the protocol after the quoted description when there is one. */
  function ProtocolRelLine(r: Relationship): string {
    RelLine(r.sourceId, r.targetId, r.description, ProtocolSuffix(r.protocol))
  }

  /** Without a protocol the Rel line has the three-argument form. */
  lemma ProtocolRelLinePlain(r: Relationship)
    ensures !Truthy(r.protocol) <==> ProtocolRelLine(r) == RelLine(r.sourceId, r.targetId, r.description, "")
  {
    if Truthy(r.protocol) {
      assert |ProtocolRelLine(r)| > |RelLine(r.sourceId, r.targetId, r.description, "")|;
    }
  }

  predicate IsExternal(s: ArchitectureElement) {
    "external" in s.tags
  }

  predicate IsInternal(s: ArchitectureElement) {
    "external" !in s.tags
  }

  function ExternalLine(s: ArchitectureElement): string {
    Call("System_Ext", s.id, [s.name, s.description])
  }

  // ---------------------------------------------------------------- the context diagram

  const ContextInclude: seq<string> :=
    ["@startuml", "!include https://raw.githubusercontent.com/plantuml-stdlib/C4-PlantUML/master/C4_Context.puml", ""]

  function PersonLine(p: ArchitectureElement): string {
    Call("Person", p.id, [p.name, p.description])
  }

  /** A system is drawn with `System_Ext` when it is tagged external, otherwise with `System`. */
  function SystemLine(s: ArchitectureElement): string {
    Call(if IsExternal(s) then "System_Ext" else "System", s.id, [s.name, s.description])
  }

  /** The line of a system names its macro by the "external" tag, and only by it. */
  lemma SystemLineKind(s: ArchitectureElement)
    ensures StartsWith(SystemLine(s), "System_Ext(") <==> IsExternal(s)
    ensures StartsWith(SystemLine(s), "System(") <==> !IsExternal(s)
  {
    var line := SystemLine(s);
    if IsExternal(s) {
      CallStartsWith("System_Ext", s.id, [s.name, s.description]);
      assert line[6] == "System_Ext("[6] == '_';
      assert !StartsWith(line, "System(");
    } else {
      CallStartsWith("System", s.id, [s.name, s.description]);
      assert line[6] == "System("[6] == '(';
      assert !StartsWith(line, "System_Ext(");
    }
  }

  /** `any(s.id == id for s in model.systems)`. */
  predicate IsSystemId(systems: seq<ArchitectureElement>, id: string) {
    exists k :: 0 <= k < |systems| && systems[k].id == id
  }

  predicate LinksSystems(systems: seq<ArchitectureElement>, r: Relationship) {
    IsSystemId(systems, r.sourceId) && IsSystemId(systems, r.targetId)
  }

  function LinksSystemsTest(systems: seq<ArchitectureElement>): (f: Relationship -> bool)
    ensures forall r :: f(r) == LinksSystems(systems, r)
  {
    (r: Relationship) => LinksSystems(systems, r)
  }

  function ContextRelLine(r: Relationship): string {
    RelLine(r.sourceId, r.targetId, r.description, "")
  }

  /** The Rel lines of the context diagram: the relationships between two systems, in order. */
  function ContextRels(m: C4Model): seq<string> {
    FilterMap(m.relationships, LinksSystemsTest(m.systems), ContextRelLine)
  }

  /** The include header and the title of the context diagram. */
  function ContextHead(m: C4Model): (r: seq<string>)
    ensures |r| == 5 && r[0] == "@startuml" && r[3] == "title System Context diagram for " + m.name
  {
    ContextInclude + ["title System Context diagram for " + m.name, ""]
  }

  /** The context diagram's lines, before joining. */
  function ContextLines(m: C4Model): seq<string> {
    ContextHead(m) + MapSeq(m.people, PersonLine) + MapSeq(m.systems, SystemLine) + [""] + ContextRels(m) + ["@enduml"]
  }

  /** Every context Rel line joins two system ids. */
  lemma ContextRelsSound(m: C4Model, line: string)
    requires line in ContextRels(m)
    ensures exists k :: 0 <= k < |m.relationships| && LinksSystems(m.systems, m.relationships[k]) &&
                        line == ContextRelLine(m.relationships[k])
  {
    FilterMapSound(m.relationships, LinksSystemsTest(m.systems), ContextRelLine, line);
  }

  /** Every relationship between two system ids gets its Rel line. */
  lemma ContextRelsComplete(m: C4Model, k: nat)
    requires k < |m.relationships| && LinksSystems(m.systems, m.relationships[k])
    ensures ContextRelLine(m.relationships[k]) in ContextRels(m)
  {
    FilterMapComplete(m.relationships, LinksSystemsTest(m.systems), ContextRelLine, k);
  }

  /** The context diagram opens with the include header and the title and closes with `@enduml`. */
  lemma ContextFrame(m: C4Model)
    ensures |ContextLines(m)| == 7 + |m.people| + |m.systems| + |ContextRels(m)|
    ensures ContextLines(m)[0] == "@startuml" && ContextLines(m)[|ContextLines(m)| - 1] == "@enduml"
    ensures ContextLines(m)[3] == "title System Context diagram for " + m.name
  {
    var head := ContextHead(m);
    var front := head + MapSeq(m.people, PersonLine) + MapSeq(m.systems, SystemLine) + [""] + ContextRels(m);
    assert ContextLines(m) == front + ["@enduml"];
    assert ContextLines(m)[0] == front[0] == head[0];
    assert ContextLines(m)[3] == front[3] == head[3];
  }

  /** The people come first after the title, in order. */
  lemma ContextPersonAt(m: C4Model, i: nat)
    requires i < |m.people|
    ensures ContextLines(m)[5 + i] == PersonLine(m.people[i])
  {
    var persons := MapSeq(m.people, PersonLine);
    var drawn := ContextHead(m) + persons;
    var front := drawn + MapSeq(m.systems, SystemLine) + [""] + ContextRels(m);
    assert ContextLines(m) == front + ["@enduml"];
    assert ContextLines(m)[5 + i] == front[5 + i] == drawn[5 + i] == persons[i];
  }

  /** One line per system follows the people, in order, each drawn by its tag. */
  lemma ContextSystemAt(m: C4Model, i: nat)
    requires i < |m.systems|
    ensures ContextLines(m)[5 + |m.people| + i] == SystemLine(m.systems[i])
  {
    var systems := MapSeq(m.systems, SystemLine);
    var drawn := ContextHead(m) + MapSeq(m.people, PersonLine) + systems;
    var front := drawn + [""] + ContextRels(m);
    var j := 5 + |m.people| + i;
    assert ContextLines(m) == front + ["@enduml"];
    assert ContextLines(m)[j] == front[j] == drawn[j] == systems[i];
  }

  // ---------------------------------------------------------------- the container diagram

  const ContainerInclude: seq<string> :=
    ["@startuml", "!include https://raw.githubusercontent.com/plantuml-stdlib/C4-PlantUML/master/C4_Container.puml", ""]

  /** `next((s for s in model.systems if 'external' not in s.tags), None)`. */
  function MainSystem(systems: seq<ArchitectureElement>): (r: Option<ArchitectureElement>)
    ensures r.None? <==> forall k :: 0 <= k < |systems| ==> IsExternal(systems[k])
    ensures r.Some? ==> exists k :: 0 <= k < |systems| && systems[k] == r.value && IsInternal(r.value) &&
                                    forall j :: 0 <= j < k ==> IsExternal(systems[j])
  {
    match FirstWhere(systems, IsInternal, 0)
    case None => None
    case Some(k) => Some(systems[k])
  }

  function ContainerLine(c: Container): string {
    "  " + Call("Container", c.id, [c.name, TechStr(c.technology), c.description])
  }

  /** The boundary of the main system with the containers inside; nothing without a main system. */
  function BoundaryLines(m: C4Model): seq<string> {
    match MainSystem(m.systems)
    case None => []
    case Some(s) => [Call("System_Boundary", s.id, [s.name]) + " {"] + MapSeq(m.containers, ContainerLine) + ["}", ""]
  }

  /** `any(c.id == id for c in model.containers)`. */
  predicate IsContainerId(containers: seq<Container>, id: string) {
    exists k :: 0 <= k < |containers| && containers[k].id == id
  }

  predicate TouchesContainer(containers: seq<Container>, r: Relationship) {
    IsContainerId(containers, r.sourceId) || IsContainerId(containers, r.targetId)
  }

  function TouchesContainerTest(containers: seq<Container>): (f: Relationship -> bool)
    ensures forall r :: f(r) == TouchesContainer(containers, r)
  {
    (r: Relationship) => TouchesContainer(containers, r)
  }

  function ExternalLines(m: C4Model): seq<string> {
    FilterMap(m.systems, IsExternal, ExternalLine)
  }

  function ContainerRels(m: C4Model): seq<string> {
    FilterMap(m.relationships, TouchesContainerTest(m.containers), ProtocolRelLine)
  }

  /** The include header and the title of the container diagram. */
  function ContainerHead(m: C4Model): (r: seq<string>)
    ensures |r| == 5 && r[0] == "@startuml" && r[3] == "title Container diagram for " + m.name
  {
    ContainerInclude + ["title Container diagram for " + m.name, ""]
  }

  /** The container diagram's lines, before joining. */
  function ContainerLines(m: C4Model): seq<string> {
    ContainerHead(m) + BoundaryLines(m) + ExternalLines(m) + [""] +
    ContainerRels(m) + ["@enduml"]
  }

  /** Without a main system the diagram has no boundary and no container line, whatever the model's containers. */
  lemma ContainerNoBoundary(m: C4Model)
    requires MainSystem(m.systems).None?
    ensures ContainerLines(m) == ContainerHead(m) + ExternalLines(m) + [""] + ContainerRels(m) + ["@enduml"]
  {
    assert BoundaryLines(m) == [];
    assert ContainerHead(m) + BoundaryLines(m) == ContainerHead(m);
  }

  /** With a main system its boundary opens right after the title and closes after the containers. */
  lemma ContainerBoundary(m: C4Model, s: ArchitectureElement)
    requires MainSystem(m.systems) == Some(s)
    ensures ContainerLines(m)[5] == Call("System_Boundary", s.id, [s.name]) + " {"
    ensures ContainerLines(m)[6 + |m.containers|] == "}"
  {
    var bl := BoundaryLines(m);
    var boxed := ContainerHead(m) + bl;
    var front := boxed + ExternalLines(m) + [""] + ContainerRels(m);
    var nc := |m.containers|;
    assert ContainerLines(m) == front + ["@enduml"];
    assert bl == [Call("System_Boundary", s.id, [s.name]) + " {"] + MapSeq(m.containers, ContainerLine) + ["}", ""];
    assert ContainerLines(m)[5] == front[5] == boxed[5] == bl[0];
    assert ContainerLines(m)[6 + nc] == front[6 + nc] == boxed[6 + nc] == bl[1 + nc];
  }

  /** With a main system the containers sit inside its boundary, in order. */
  lemma ContainerAt(m: C4Model, i: nat)
    requires MainSystem(m.systems).Some? && i < |m.containers|
    ensures ContainerLines(m)[6 + i] == ContainerLine(m.containers[i])
  {
    var s := MainSystem(m.systems).value;
    var inner := MapSeq(m.containers, ContainerLine);
    var bl := BoundaryLines(m);
    var boxed := ContainerHead(m) + bl;
    var front := boxed + ExternalLines(m) + [""] + ContainerRels(m);
    assert ContainerLines(m) == front + ["@enduml"];
    assert bl == [Call("System_Boundary", s.id, [s.name]) + " {"] + inner + ["}", ""];
    assert ContainerLines(m)[6 + i] == front[6 + i] == boxed[6 + i] == bl[1 + i] == inner[i];
  }

  /** The externals after the boundary are exactly the systems tagged external. */
  lemma ExternalLinesExact(m: C4Model, line: string)
    ensures line in ExternalLines(m) <==> exists k :: 0 <= k < |m.systems| && IsExternal(m.systems[k]) &&
                                                     line == ExternalLine(m.systems[k])
  {
    if line in ExternalLines(m) {
      FilterMapSound(m.systems, IsExternal, ExternalLine, line);
    }
    if exists k :: 0 <= k < |m.systems| && IsExternal(m.systems[k]) && line == ExternalLine(m.systems[k]) {
      var k :| 0 <= k < |m.systems| && IsExternal(m.systems[k]) && line == ExternalLine(m.systems[k]);
      FilterMapComplete(m.systems, IsExternal, ExternalLine, k);
    }
  }

  /** Every container Rel line has a container at one end or the other. */
  lemma ContainerRelsSound(m: C4Model, line: string)
    requires line in ContainerRels(m)
    ensures exists k :: 0 <= k < |m.relationships| && TouchesContainer(m.containers, m.relationships[k]) &&
                        line == ProtocolRelLine(m.relationships[k])
  {
    FilterMapSound(m.relationships, TouchesContainerTest(m.containers), ProtocolRelLine, line);
  }

  /** Every relationship with a container at either end gets its Rel line. */
  lemma ContainerRelsComplete(m: C4Model, k: nat)
    requires k < |m.relationships| && TouchesContainer(m.containers, m.relationships[k])
    ensures ProtocolRelLine(m.relationships[k]) in ContainerRels(m)
  {
    FilterMapComplete(m.relationships, TouchesContainerTest(m.containers), ProtocolRelLine, k);
  }

  // ---------------------------------------------------------------- the component diagram

  const ComponentInclude: seq<string> :=
    ["@startuml", "!include https://raw.githubusercontent.com/plantuml-stdlib/C4-PlantUML/master/C4_Component.puml", ""]

  function ComponentLine(c: Component): string {
    "  " + Call("Component", c.id, [c.name, TechStr(c.technology), c.description])
  }

  /** Another container, in the three-argument form without a description. */
  function OtherContainerLine(c: Container): string {
    Call("Container", c.id, [c.name, TechStr(c.technology)])
  }

  function OtherThan(id: string): (f: Container -> bool)
    ensures forall c :: f(c) == (c.id != id)
  {
    (c: Container) => c.id != id
  }

  /** `{c.id for c in components}`. */
  function ComponentIds(components: seq<Component>): set<string> {
    set c | c in components :: c.id
  }

  predicate TouchesComponent(ids: set<string>, r: Relationship) {
    r.sourceId in ids || r.targetId in ids
  }

  function TouchesComponentTest(ids: set<string>): (f: Relationship -> bool)
    ensures forall r :: f(r) == TouchesComponent(ids, r)
  {
    (r: Relationship) => TouchesComponent(ids, r)
  }

  function OtherContainers(m: C4Model, id: string): seq<string> {
    FilterMap(m.containers, OtherThan(id), OtherContainerLine)
  }

  function ComponentRels(m: C4Model, id: string): seq<string> {
    FilterMap(m.relationships, TouchesComponentTest(ComponentIds(m.GetComponentsByContainer(id))), ProtocolRelLine)
  }

  /** The include header, the title and the opening of the container's boundary. */
  function ComponentHead(c: Container): (r: seq<string>)
    ensures |r| == 6 && r[0] == "@startuml" && r[3] == "title Component diagram for " + c.name
    ensures r[5] == Call("Container_Boundary", c.id, [c.name]) + " {"
  {
    ComponentInclude + ["title Component diagram for " + c.name, "", Call("Container_Boundary", c.id, [c.name]) + " {"]
  }

  /** The component diagram's lines for the container found by the id, before joining. */
  function ComponentLines(m: C4Model, id: string, c: Container): seq<string> {
    ComponentHead(c) +
    MapSeq(m.GetComponentsByContainer(id), ComponentLine) + ["}", ""] + OtherContainers(m, id) + [""] +
    ComponentRels(m, id) + ["@enduml"]
  }

  /** `render_component`'s diagram: None for an id no container has. */
  function ComponentDiagram(m: C4Model, id: string): (r: Option<seq<string>>)
    ensures r.None? <==> forall k :: 0 <= k < |m.containers| ==> m.containers[k].id != id
  {
    match m.GetContainerById(id)
    case None => None
    case Some(c) => Some(ComponentLines(m, id, c))
  }

  /** The container's boundary opens right after the title and closes after its components. */
  lemma ComponentBoundary(m: C4Model, id: string, c: Container)
    ensures ComponentLines(m, id, c)[5] == Call("Container_Boundary", c.id, [c.name]) + " {"
    ensures ComponentLines(m, id, c)[6 + |m.GetComponentsByContainer(id)|] == "}"
  {
    var head := ComponentHead(c);
    var boxed := head + MapSeq(m.GetComponentsByContainer(id), ComponentLine);
    var front := boxed + ["}", ""] + OtherContainers(m, id) + [""] + ComponentRels(m, id);
    var n := |boxed|;
    assert ComponentLines(m, id, c) == front + ["@enduml"];
    assert ComponentLines(m, id, c)[5] == front[5] == boxed[5] == head[5];
    assert ComponentLines(m, id, c)[n] == front[n] == (boxed + ["}", ""])[n];
  }

  /** Inside the boundary: the components whose `container_id` is the id, in order. */
  lemma ComponentAt(m: C4Model, id: string, c: Container, i: nat)
    requires i < |m.GetComponentsByContainer(id)|
    ensures ComponentLines(m, id, c)[6 + i] == ComponentLine(m.GetComponentsByContainer(id)[i])
  {
    var drawn := MapSeq(m.GetComponentsByContainer(id), ComponentLine);
    var boxed := ComponentHead(c) + drawn;
    var front := boxed + ["}", ""] + OtherContainers(m, id) + [""] + ComponentRels(m, id);
    assert ComponentLines(m, id, c) == front + ["@enduml"];
    assert ComponentLines(m, id, c)[6 + i] == front[6 + i] == boxed[6 + i] == drawn[i];
  }

  /** The other containers are exactly those with a different id, each in the three-argument form. */
  lemma OtherContainersExact(m: C4Model, id: string, line: string)
    ensures line in OtherContainers(m, id) <==>
              exists k :: 0 <= k < |m.containers| && m.containers[k].id != id && line == OtherContainerLine(m.containers[k])
  {
    if line in OtherContainers(m, id) {
      FilterMapSound(m.containers, OtherThan(id), OtherContainerLine, line);
    }
    if exists k :: 0 <= k < |m.containers| && m.containers[k].id != id && line == OtherContainerLine(m.containers[k]) {
      var k :| 0 <= k < |m.containers| && m.containers[k].id != id && line == OtherContainerLine(m.containers[k]);
      FilterMapComplete(m.containers, OtherThan(id), OtherContainerLine, k);
    }
  }

  /** Every component Rel line touches a component of the container. */
  lemma ComponentRelsSound(m: C4Model, id: string, line: string)
    requires line in ComponentRels(m, id)
    ensures exists k :: 0 <= k < |m.relationships| &&
                        TouchesComponent(ComponentIds(m.GetComponentsByContainer(id)), m.relationships[k]) &&
                        line == ProtocolRelLine(m.relationships[k])
  {
    FilterMapSound(m.relationships, TouchesComponentTest(ComponentIds(m.GetComponentsByContainer(id))), ProtocolRelLine, line);
  }

  /** Every relationship from or to a component of the container gets its Rel line. */
  lemma ComponentRelsComplete(m: C4Model, id: string, k: nat)
    requires k < |m.relationships| && TouchesComponent(ComponentIds(m.GetComponentsByContainer(id)), m.relationships[k])
    ensures ProtocolRelLine(m.relationships[k]) in ComponentRels(m, id)
  {
    FilterMapComplete(m.relationships, TouchesComponentTest(ComponentIds(m.GetComponentsByContainer(id))), ProtocolRelLine, k);
  }

  /** A component's id is among the ids exactly when some component of the container has it. */
  lemma ComponentIdsExact(m: C4Model, id: string, x: string)
    ensures x in ComponentIds(m.GetComponentsByContainer(id)) <==>
              exists c :: c in m.components && c.containerId == Str(id) && c.id == x
  {
  }

  // ---------------------------------------------------------------- the files

  const ContextFile := "01-system-context.puml"
  const ContainerFile := "02-container.puml"

  function ComponentFile(name: string): string {
    "03-component-" + name + ".puml"
  }

  /** The file `render_component` writes for the id, path and text; none for an unknown id. */
  function ComponentEntry(dir: Paths.Path, m: C4Model, id: string): seq<(string, string)> {
    match m.GetContainerById(id)
    case None => []
    case Some(c) => [(dir.Child(ComponentFile(c.name)).Str(), Join("\n", ComponentLines(m, id, c)))]
  }

  /** The component files of `render_all`, one entry per container in order. */
  function ComponentFiles(dir: Paths.Path, m: C4Model, cs: seq<Container>): seq<(string, string)>
    decreases |cs|
  {
    if |cs| == 0 then [] else ComponentFiles(dir, m, cs[..|cs| - 1]) + ComponentEntry(dir, m, cs[|cs| - 1].id)
  }

  /** The file `render_context` writes, path and text. */
  function ContextEntry(dir: Paths.Path, m: C4Model): (string, string) {
    (dir.Child(ContextFile).Str(), Join("\n", ContextLines(m)))
  }

  /** The file `render_container` writes, path and text. */
  function ContainerEntry(dir: Paths.Path, m: C4Model): (string, string) {
    (dir.Child(ContainerFile).Str(), Join("\n", ContainerLines(m)))
  }

  /** `render_all`: the context file, the container file, then the component files. */
  function AllFiles(dir: Paths.Path, m: C4Model): seq<(string, string)> {
    [ContextEntry(dir, m), ContainerEntry(dir, m)] + ComponentFiles(dir, m, m.containers)
  }

  function PathOf(file: (string, string)): string {
    file.0
  }

  predicate PathsNonEmpty(files: seq<(string, string)>) {
    forall i :: 0 <= i < |files| ==> |files[i].0| > 0
  }

  lemma PathsNonEmptyConcat(a: seq<(string, string)>, b: seq<(string, string)>)
    requires PathsNonEmpty(a) && PathsNonEmpty(b)
    ensures PathsNonEmpty(a + b)
  {
    forall i | |a| <= i < |a + b|
      ensures |(a + b)[i].0| > 0
    {
      assert (a + b)[i] == b[i - |a|];
    }
  }

  lemma ComponentFilesSnoc(dir: Paths.Path, m: C4Model, cs: seq<Container>, i: nat)
    requires i < |cs|
    ensures ComponentFiles(dir, m, cs[..i + 1]) == ComponentFiles(dir, m, cs[..i]) + ComponentEntry(dir, m, cs[i].id)
  {
    assert cs[..i + 1][..i] == cs[..i];
  }

  /** A container of the model is found by its own id, and its file has a non-empty path. */
  lemma ComponentEntryOfContainer(dir: Paths.Path, m: C4Model, c: Container)
    requires c in m.containers
    ensures |ComponentEntry(dir, m, c.id)| == 1 && PathsNonEmpty(ComponentEntry(dir, m, c.id))
  {
    var k :| 0 <= k < |m.containers| && m.containers[k] == c;
    assert m.GetContainerById(c.id).Some?;
    var found := m.GetContainerById(c.id).value;
    Paths.ChildStrEndsWith(dir, ComponentFile(found.name));
  }

  /** Every container of the model gets its component file. */
  lemma {:induction false} ComponentFilesCount(dir: Paths.Path, m: C4Model, cs: seq<Container>)
    requires forall c :: c in cs ==> c in m.containers
    ensures |ComponentFiles(dir, m, cs)| == |cs| && PathsNonEmpty(ComponentFiles(dir, m, cs))
    decreases |cs|
  {
    if |cs| > 0 {
      var init := cs[..|cs| - 1];
      var last := cs[|cs| - 1];
      assert last in cs;
      assert forall c :: c in init ==> c in cs;
      ComponentFilesCount(dir, m, init);
      ComponentEntryOfContainer(dir, m, last);
      PathsNonEmptyConcat(ComponentFiles(dir, m, init), ComponentEntry(dir, m, last.id));
    }
  }

  lemma FixedFilesNonEmpty(dir: Paths.Path, m: C4Model)
    ensures PathsNonEmpty([ContextEntry(dir, m), ContainerEntry(dir, m)])
  {
    Paths.ChildStrEndsWith(dir, ContextFile);
    Paths.ChildStrEndsWith(dir, ContainerFile);
  }

  /** `render_all` returns two paths plus one per container, none of them empty. */
  lemma AllFilesCount(dir: Paths.Path, m: C4Model)
    ensures |AllFiles(dir, m)| == 2 + |m.containers| && PathsNonEmpty(AllFiles(dir, m))
  {
    ComponentFilesCount(dir, m, m.containers);
    FixedFilesNonEmpty(dir, m);
    PathsNonEmptyConcat([ContextEntry(dir, m), ContainerEntry(dir, m)], ComponentFiles(dir, m, m.containers));
  }

  /** `render_component` as it runs under the output directory `dir`. */
  method RenderComponentIn(dir: Paths.Path, m: C4Model, id: string) returns (path: string, text: string)
    ensures ComponentEntry(dir, m, id) == if path == "" then [] else [(path, text)]
    ensures m.GetContainerById(id).None? ==> path == "" && text == ""
  {
    var found := m.GetContainerById(id);
    if found.None? {
      return "", "";
    }
    var container := found.value;
    var puml := ComponentHead(container);
    var components := m.GetComponentsByContainer(id);
    var drawn := AppendEach(components, ComponentLine);
    var others := AppendEachWhere(m.containers, OtherThan(id), OtherContainerLine);
    var rels := AppendEachWhere(m.relationships, TouchesComponentTest(ComponentIds(components)), ProtocolRelLine);
    puml := puml + drawn + ["}", ""] + others + [""] + rels + ["@enduml"];
    path := dir.Child(ComponentFile(container.name)).Str();
    text := Join("\n", puml);
    Paths.ChildStrEndsWith(dir, ComponentFile(container.name));
  }

  /** The container loop of `render_all`: the file of each container whose path is not empty. */
  method RenderComponentsIn(dir: Paths.Path, m: C4Model) returns (written: seq<(string, string)>)
    ensures written == ComponentFiles(dir, m, m.containers)
  {
    var cs := m.containers;
    written := [];
    var i := 0;
    while i < |cs|
      invariant 0 <= i <= |cs|
      invariant written == ComponentFiles(dir, m, cs[..i])
    {
      ComponentFilesSnoc(dir, m, cs, i);
      var path, text := RenderComponentIn(dir, m, cs[i].id);
      if path != "" {
        written := written + [(path, text)];
      }
      i := i + 1;
    }
    assert cs[..i] == cs;
  }

  class Renderer {
    const outputDir: Paths.Path

    /** The directory is created on disk by the source; here it is only kept. */
    constructor(outputDir: Paths.Path)
      ensures this.outputDir == outputDir
    {
      this.outputDir := outputDir;
    }

    /** `render_context`: the path of "01-system-context.puml" and the text written there. */
    method RenderContext(m: C4Model) returns (path: string, text: string)
      ensures (path, text) == ContextEntry(outputDir, m)
    {
      var puml := ContextHead(m);
      var persons := AppendEach(m.people, PersonLine);
      var systems := AppendEach(m.systems, SystemLine);
      var rels := AppendEachWhere(m.relationships, LinksSystemsTest(m.systems), ContextRelLine);
      puml := puml + persons + systems + [""] + rels + ["@enduml"];
      path := outputDir.Child(ContextFile).Str();
      text := Join("\n", puml);
    }

    /** `render_container`: the path of "02-container.puml" and the text written there. */
    method RenderContainer(m: C4Model) returns (path: string, text: string)
      ensures (path, text) == ContainerEntry(outputDir, m)
    {
      var puml := ContainerHead(m);
      var mainSystem := MainSystem(m.systems);
      var boundary: seq<string> := [];
      if mainSystem.Some? {
        var s := mainSystem.value;
        var inner := AppendEach(m.containers, ContainerLine);
        boundary := [Call("System_Boundary", s.id, [s.name]) + " {"] + inner + ["}", ""];
      }
      var externals := AppendEachWhere(m.systems, IsExternal, ExternalLine);
      var rels := AppendEachWhere(m.relationships, TouchesContainerTest(m.containers), ProtocolRelLine);
      puml := puml + boundary + externals + [""] + rels + ["@enduml"];
      path := outputDir.Child(ContainerFile).Str();
      text := Join("\n", puml);
    }

    /** `render_component`: "" for an unknown container id, otherwise the path and the text written there. */
    method RenderComponent(m: C4Model, id: string) returns (path: string, text: string)
      ensures ComponentEntry(outputDir, m, id) == if path == "" then [] else [(path, text)]
      ensures m.GetContainerById(id).None? ==> path == "" && text == ""
    {
      path, text := RenderComponentIn(outputDir, m, id);
    }

    /** `render_all`: the paths, in order, and the files written. */
    method RenderAll(m: C4Model) returns (files: seq<string>, written: seq<(string, string)>)
      ensures written == AllFiles(outputDir, m) && files == MapSeq(written, PathOf)
    {
      var contextPath, contextText := RenderContext(m);
      var containerPath, containerText := RenderContainer(m);
      var components := RenderComponentsIn(outputDir, m);
      written := [(contextPath, contextText), (containerPath, containerText)] + components;
      files := AppendEach(written, PathOf);
    }
  }
}
