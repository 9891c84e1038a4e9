/**
 * `C4ModelBuilder` (src/generator/c4_model_builder.py): the passes that
 * turn an analysis result into a `C4Model` (systems, external systems,
 * containers, components, relationships).  The analysis is the loaded
 * dictionary, a `Value`; the dependency graph is the analyzer's `DiGraph`;
 * the language model is LlmEngine's `llm`/`decode` pair.  The model object
 * that the passes append to is threaded through as a value, and a Python
 * exception anywhere in `build` is `None`.
 */
module C4ModelBuilder {
  import opened Wrappers
  import opened Strings
  import opened Values
  import opened DiGraph
  import opened LlmEngine
  import opened ArchitectureModel

  // ---------------------------------------------------------------- value helpers

  /** `len(v)`; None when `v` has no length (TypeError). */
  function Len(v: Value): (r: Option<nat>)
    ensures r.Some? <==> v.List? || v.Obj? || v.Str?
  {
    match v
    case List(xs) => Some(|xs|)
    case Obj(fs) => Some(|fs|)
    case Str(s) => Some(|s|)
    case _ => None
  }

  /** `v.lower()`; None when `v` is not a string (AttributeError). */
  function LowerOf(v: Value): (r: Option<string>)
    ensures r.Some? <==> v.Str?
    ensures v.Str? ==> r == Some(Lower(v.s))
  {
    if v.Str? then Some(Lower(v.s)) else None
  }

  /** `for x in analysis.get(k, [])`. */
  function Entries(analysis: Value, k: string): (r: Option<seq<Value>>)
    ensures analysis.Obj? && k !in Keys(analysis.fields) ==> r == Some([])
    ensures !analysis.Obj? ==> r.None?
  {
    var v :- Get(analysis, k, List([]));
    Iter(v)
  }

  /** `name.lower().replace(' ', '_')`: no spaces and no upper-case ASCII letters are left. */
  function Slug(name: string): (r: string)
    ensures |r| == |name|
    ensures ' ' !in r
    ensures forall i :: 0 <= i < |r| ==> !('A' <= r[i] <= 'Z')
  {
    ReplaceChar(Lower(name), ' ', '_')
  }

  // ---------------------------------------------------------------- context level

  /** The id of a system named by the boundary insight. */
  function SystemId(name: string): (id: string)
    ensures |id| == 7 + |name| && id[..7] == "system_" && id[7..] == Slug(name)
    ensures ' ' !in id
  {
    "system_" + Slug(name)
  }

  /** `analysis.get('insights', {}).get('systems', {}).get('systems', [])`. */
  function BoundarySystems(analysis: Value): (r: Option<Value>)
    ensures analysis.Obj? && "insights" !in Keys(analysis.fields) ==> r == Some(List([]))
  {
    var insights :- Get(analysis, "insights", Obj([]));
    var boundaries :- Get(insights, "systems", Obj([]));
    Get(boundaries, "systems", List([]))
  }

  /**
   * The system created when the insight names none: id "main_system", the
   * model's name, and a description generated from the name and the two
   * list lengths.
   */
  function DefaultSystem(modelName: string, analysis: Value, llm: Prompt -> Reply): (r: Option<ArchitectureElement>)
    ensures r.Some? ==> r.value.id == "main_system" && r.value.name == modelName && r.value.kind == SystemElement
    ensures r.Some? ==> r.value.tags == {} && r.value.technology.None?
    ensures r.Some? ==> analysis.Obj? && Len(Get(analysis, "containers", List([])).value).Some?
                        && Len(Get(analysis, "components", List([])).value).Some?
    ensures r.Some? ==>
              r.value.description ==
              GenerateComponentDescription([("name", Str(modelName)),
                                            ("containers", Int(Len(Get(analysis, "containers", List([])).value).value)),
                                            ("components", Int(Len(Get(analysis, "components", List([])).value).value))],
                                           llm)
  {
    var containers :- Get(analysis, "containers", List([]));
    var containerCount :- Len(containers);
    var components :- Get(analysis, "components", List([]));
    var componentCount :- Len(components);
    var info := [("name", Str(modelName)), ("containers", Int(containerCount)), ("components", Int(componentCount))];
    Some(ArchitectureElement("main_system", modelName, SystemElement,
                             GenerateComponentDescription(info, llm), None, {}, []))
  }

  /** The system for one boundary entry; None when `sys['name']` raises or is not a string. */
  function GroupedSystem(sys: Value): (r: Option<ArchitectureElement>)
    ensures r.Some? <==> Item(sys, "name").Some? && Item(sys, "name").value.Str?
    ensures r.Some? ==> r.value.name == Item(sys, "name").value.s && r.value.id == SystemId(r.value.name)
    ensures r.Some? ==> r.value.kind == SystemElement && r.value.tags == {}
    ensures r.Some? ==> Get(sys, "description", Str("")).Some?
                        && r.value.description == Display(Get(sys, "description", Str("")).value)
                        && r.value.technology.None? && r.value.properties == []
  {
    var name :- Item(sys, "name");
    if !name.Str? then None
    else
      var description :- Get(sys, "description", Str(""));
      Some(ArchitectureElement(SystemId(name.s), name.s, SystemElement, Display(description), None, {}, []))
  }

  function GroupedSystems(vs: seq<Value>): (r: Option<seq<ArchitectureElement>>)
    ensures r.Some? <==> forall i :: 0 <= i < |vs| ==> GroupedSystem(vs[i]).Some?
    ensures r.Some? ==> |r.value| == |vs| && forall i :: 0 <= i < |vs| ==> GroupedSystem(vs[i]) == Some(r.value[i])
  {
    TryMap(vs, GroupedSystem)
  }

  /**
   * The systems `_build_context_level` creates before the external ones:
   * exactly one default system when the insight's list is falsy, and
   * otherwise exactly one system per entry, in order.
   */
  function ContextSystems(analysis: Value, modelName: string, llm: Prompt -> Reply): Option<seq<ArchitectureElement>>
  {
    var systems :- BoundarySystems(analysis);
    if !Truthy(systems) then
      var d :- DefaultSystem(modelName, analysis, llm);
      Some([d])
    else
      var vs :- Iter(systems);
      GroupedSystems(vs)
  }

  /** What `ContextSystems` produces, one case per truthiness of the insight's list. */
  lemma ContextSystemsShape(analysis: Value, modelName: string, llm: Prompt -> Reply)
    ensures var r := ContextSystems(analysis, modelName, llm);
            && (r.Some? ==> BoundarySystems(analysis).Some?)
            && (r.Some? && !Truthy(BoundarySystems(analysis).value) ==>
                  |r.value| == 1 && r.value[0].id == "main_system" && r.value[0].name == modelName)
            && (r.Some? && Truthy(BoundarySystems(analysis).value) ==>
                  Iter(BoundarySystems(analysis).value).Some? &&
                  var vs := Iter(BoundarySystems(analysis).value).value;
                  |r.value| == |vs| &&
                  forall i :: 0 <= i < |vs| ==> GroupedSystem(vs[i]) == Some(r.value[i]) && r.value[i].id == SystemId(r.value[i].name))
  {
  }

  // ---------------------------------------------------------------- external systems

  /** An external system's (name, description); the set of these is what gets deduplicated. */
  type Pair = (string, string)

  const ExternalDatabase: Pair := ("Database", "External database system")
  const ExternalMessaging: Pair := ("Message Queue", "External messaging system")
  const DatabasePair: Pair := ("Database", "Database system")
  const CachePair: Pair := ("Cache", "Caching system")
  const MessagingPair: Pair := ("Message Queue", "Messaging system")

  /** The pair a Terraform resource contributes, if any; None when `resource['type']` raises. */
  function TerraformPair(resource: Value): (r: Option<Option<Pair>>)
    ensures r.Some? <==> Item(resource, "type").Some?
    ensures Item(resource, "type") == Some(Str("aws_rds_instance")) ==> r == Some(Some(ExternalDatabase))
    ensures Item(resource, "type") == Some(Str("aws_elasticache_cluster")) ==> r == Some(Some(ExternalDatabase))
    ensures Item(resource, "type") == Some(Str("aws_sqs_queue")) ==> r == Some(Some(ExternalMessaging))
    ensures Item(resource, "type") == Some(Str("aws_sns_topic")) ==> r == Some(Some(ExternalMessaging))
  {
    var kind :- Item(resource, "type");
    if kind in [Str("aws_rds_instance"), Str("aws_elasticache_cluster")] then Some(Some(ExternalDatabase))
    else if kind in [Str("aws_sqs_queue"), Str("aws_sns_topic")] then Some(Some(ExternalMessaging))
    else Some(None)
  }

  /**
   * The pair a container's image contributes: the first of postgres/mysql,
   * redis, kafka/rabbitmq that occurs in it; None when the container is not
   * a mapping or `in` does not apply to its image.
   */
  function ImagePair(container: Value): (r: Option<Option<Pair>>)
  {
    var image :- Get(container, "image", Str(""));
    var postgres :- HasIn(image, "postgres");
    var mysql :- HasIn(image, "mysql");
    if postgres || mysql then Some(Some(DatabasePair))
    else
      var redis :- HasIn(image, "redis");
      if redis then Some(Some(CachePair))
      else
        var kafka :- HasIn(image, "kafka");
        var rabbit :- HasIn(image, "rabbitmq");
        if kafka || rabbit then Some(Some(MessagingPair)) else Some(None)
  }

  /** The pairs found, as a set. */
  function Collected(ps: seq<Option<Pair>>): (r: set<Pair>)
    ensures forall p :: p in r <==> Some(p) in ps
  {
    if |ps| == 0 then {}
    else
      var init := ps[..|ps| - 1];
      assert forall x :: x in ps <==> x in init || x == ps[|ps| - 1];
      Collected(init) + (if ps[|ps| - 1].Some? then {ps[|ps| - 1].value} else {})
  }

  /** The Terraform resources `_identify_external_systems` iterates. */
  function TerraformResources(analysis: Value): Option<seq<Value>> {
    var infrastructure :- Get(analysis, "infrastructure", Obj([]));
    var terraform :- Get(infrastructure, "terraform", List([]));
    Iter(terraform)
  }

  /** The set of distinct external pairs, Terraform resources first, then container images. */
  function ExternalPairs(analysis: Value): (r: Option<set<Pair>>)
  {
    var resources :- TerraformResources(analysis);
    var fromTerraform :- TryMap(resources, TerraformPair);
    var containers :- Entries(analysis, "containers");
    var fromImages :- TryMap(containers, ImagePair);
    Some(Collected(fromTerraform) + Collected(fromImages))
  }

  /** The system element for one external pair. */
  function ExternalElement(p: Pair): ArchitectureElement {
    ArchitectureElement("external_" + Slug(p.0), p.0, SystemElement, p.1, None, {"external"}, [])
  }

  /**
   * `added` holds exactly one external system per pair, in some order:
   * id "external_" + slug of the name, tag "external".
   */
  ghost predicate ExternalsFor(pairs: set<Pair>, added: seq<ArchitectureElement>) {
    && |added| == |pairs|
    && (forall p :: p in pairs ==> ExternalElement(p) in added)
    && (forall k :: 0 <= k < |added| ==> (added[k].name, added[k].description) in pairs
                                          && added[k] == ExternalElement((added[k].name, added[k].description)))
  }

  /** The systems appended for pairs listed in `order`. */
  function ExternalElements(order: seq<Pair>): (r: seq<ArchitectureElement>)
    ensures |r| == |order| && forall k :: 0 <= k < |order| ==> r[k] == ExternalElement(order[k])
  {
    if |order| == 0 then []
    else ExternalElements(order[..|order| - 1]) + [ExternalElement(order[|order| - 1])]
  }

  /** Listing a set of pairs once each yields exactly one external system per pair. */
  lemma ExternalsListed(pairs: set<Pair>, order: seq<Pair>)
    requires forall p :: p in order <==> p in pairs
    requires |order| == |pairs|
    ensures ExternalsFor(pairs, ExternalElements(order))
  {
    var added := ExternalElements(order);
    forall p | p in pairs
      ensures ExternalElement(p) in added
    {
      var k :| 0 <= k < |order| && order[k] == p;
      assert added[k] == ExternalElement(p);
    }
  }

  // ---------------------------------------------------------------- container level

  /** `tech_mapping`, in its insertion order. */
  const TechMapping: seq<(string, Technology)> := [
    ("python", Python), ("java", Java), ("node", NodeJs), ("postgres", Postgres), ("redis", Redis),
    ("kafka", Kafka), ("go", Golang), ("csharp", CSharp), ("dotnet", CSharp)]

  /** The technologies, in table order, whose key occurs in `combined`. */
  function MatchedTechnologies(combined: string, table: seq<(string, Technology)>): (r: seq<Technology>)
    ensures |r| <= |table|
    ensures forall t :: t in r <==> exists k :: 0 <= k < |table| && table[k].1 == t && Contains(combined, table[k].0)
    ensures |r| == 0 <==> forall k :: 0 <= k < |table| ==> !Contains(combined, table[k].0)
    decreases |table|
  {
    if |table| == 0 then []
    else
      var init := table[..|table| - 1];
      var last := table[|table| - 1];
      assert forall k :: 0 <= k < |init| ==> init[k] == table[k];
      MatchedTechnologies(combined, init) + (if Contains(combined, last.0) then [last.1] else [])
  }

  /** `f"{image} {tech}"` after lowering both; None when either is not a string. */
  function CombinedText(containerData: Value): (r: Option<string>)
    ensures r.Some? <==> containerData.Obj? && Get(containerData, "image", Str("")).value.Str?
                         && Get(containerData, "technology", Str("")).value.Str?
  {
    var image :- Get(containerData, "image", Str(""));
    var imageLower :- LowerOf(image);
    var tech :- Get(containerData, "technology", Str(""));
    var techLower :- LowerOf(tech);
    Some(imageLower + " " + techLower)
  }

  /**
   * `_extract_technologies`: the mapped technologies whose key occurs in
   * the combined text, in mapping order, or None (not []) when none does.
   */
  function TechnologiesOf(containerData: Value): (r: Option<Option<seq<Technology>>>)
    ensures r.Some? <==> CombinedText(containerData).Some?
    ensures r.Some? ==>
              (r.value.None? <==> forall k :: 0 <= k < |TechMapping| ==> !Contains(CombinedText(containerData).value, TechMapping[k].0))
    ensures r.Some? && r.value.Some? ==>
              forall t :: t in r.value.value <==>
                exists k :: 0 <= k < |TechMapping| && TechMapping[k].1 == t && Contains(CombinedText(containerData).value, TechMapping[k].0)
  {
    var combined :- CombinedText(containerData);
    var found := MatchedTechnologies(combined, TechMapping);
    if |found| == 0 then
      Some(None)
    else
      assert found[0] in found;
      Some(Some(found))
  }

  /** `_extract_technologies`, with its loop over the mapping. */
  method ExtractTechnologies(containerData: Value) returns (r: Option<Option<seq<Technology>>>)
    ensures r == TechnologiesOf(containerData)
  {
    var combined := CombinedText(containerData);
    if combined.None? {
      return None;
    }
    var technologies := MatchTable(combined.value, TechMapping);
    r := Some(if |technologies| == 0 then None else Some(technologies));
  }

  /** The loop over the mapping: the technologies whose key occurs in `combined`, in table order. */
  method MatchTable(combined: string, table: seq<(string, Technology)>) returns (found: seq<Technology>)
    ensures found == MatchedTechnologies(combined, table)
  {
    found := [];
    var i := 0;
    while i < |table|
      invariant 0 <= i <= |table|
      invariant found == MatchedTechnologies(combined, table[..i])
    {
      MatchedSnoc(combined, table, i);
      var (key, tech) := table[i];
      if Contains(combined, key) {
        found := found + [tech];
      }
      i := i + 1;
    }
    assert table[..i] == table;
  }

  lemma MatchedSnoc(combined: string, table: seq<(string, Technology)>, i: nat)
    requires i < |table|
    ensures MatchedTechnologies(combined, table[..i + 1]) ==
              MatchedTechnologies(combined, table[..i]) + (if Contains(combined, table[i].0) then [table[i].1] else [])
  {
    assert table[..i + 1][..i] == table[..i];
  }

  /** `[int(p) for p in ports if str(p).isdigit()]`. */
  function PortsOf(ports: seq<Value>): (r: seq<int>)
    ensures |r| <= |ports|
    ensures forall n :: n in r <==>
              exists k :: 0 <= k < |ports| && IsDigits(Display(ports[k])) && n == DigitsValue(Display(ports[k]))
    decreases |ports|
  {
    if |ports| == 0 then []
    else
      var rest := PortsOf(ports[1..]);
      assert forall k :: 0 <= k < |ports[1..]| ==> ports[1..][k] == ports[k + 1];
      var text := Display(ports[0]);
      (if IsDigits(text) then [DigitsValue(text) as int] else []) + rest
  }

  /** A mapped port "8080:80" is not all digits, so it is dropped; a plain "80" is kept. */
  lemma MappedPortDropped()
    ensures PortsOf([Str("8080:80"), Str("80")]) == [80]
  {
    assert "8080:80"[4] == ':';
    assert !IsDigits("8080:80");
    assert IsDigit('8') && IsDigit('0');
    assert "80"[..1] == "8" && "8"[..0] == "";
    assert DigitsValue("80") == 80;
    assert [Str("8080:80"), Str("80")][1..] == [Str("80")];
    assert [Str("80")][1..] == [];
  }

  /**
   * The container for one analysis entry; None where `_build_container_level`
   * raises: not a mapping, `['id']` or `['name']` missing, a non-string image
   * or technology, ports that cannot be iterated.
   */
  function ContainerOf(containerData: Value, llm: Prompt -> Reply): (r: Option<Container>)
    ensures r.Some? ==> containerData.Obj? && "id" in Keys(containerData.fields) && "name" in Keys(containerData.fields)
    ensures r.Some? ==> r.value.id == Display(Item(containerData, "id").value)
                        && r.value.name == Display(Item(containerData, "name").value)
    ensures r.Some? ==> r.value.kind == ContainerElement && Some(r.value.technology) == TechnologiesOf(containerData)
    ensures r.Some? ==> r.value.description == GenerateComponentDescription(containerData.fields, llm)
  {
    if !containerData.Obj? then None
    else
      var description := GenerateComponentDescription(containerData.fields, llm);
      var technologies :- TechnologiesOf(containerData);
      var id :- Item(containerData, "id");
      var name :- Item(containerData, "name");
      var runtime :- Get(containerData, "image", Lookup(containerData.fields, "technology").GetOr(Str("")));
      var portsValue :- Get(containerData, "ports", List([]));
      var ports :- Iter(portsValue);
      var environment :- Get(containerData, "environment", Obj([]));
      var dependsOn :- Get(containerData, "depends_on", List([]));
      Some(Container(Display(id), Display(name), description, ContainerElement, technologies, {}, [],
                     runtime, PortsOf(ports), environment, dependsOn))
  }

  /**
   * When `ContainerOf` succeeds, and the fields it copies: the runtime is
   * the image, else the technology, else ''; the ports are the entry's
   * ports, each through `PortsOf`; environment and dependencies default to
   * an empty mapping and an empty list.
   */
  lemma ContainerOfFields(containerData: Value, llm: Prompt -> Reply)
    ensures var r := ContainerOf(containerData, llm);
            && (r.Some? <==> (&& containerData.Obj? && TechnologiesOf(containerData).Some?
                              && "id" in Keys(containerData.fields) && "name" in Keys(containerData.fields)
                              && Iter(Lookup(containerData.fields, "ports").GetOr(List([]))).Some?))
            && (r.Some? ==>
                  var fs := containerData.fields;
                  && r.value.runtimeEnvironment == Lookup(fs, "image").GetOr(Lookup(fs, "technology").GetOr(Str("")))
                  && r.value.exposedPorts == PortsOf(Iter(Lookup(fs, "ports").GetOr(List([]))).value)
                  && r.value.environmentVars == Lookup(fs, "environment").GetOr(Obj([]))
                  && r.value.dependencies == Lookup(fs, "depends_on").GetOr(List([]))
                  && r.value.tags == {} && r.value.properties == [])
  {
  }

  /** `ContainerOf` as a function value. */
  function ContainerOfFn(llm: Prompt -> Reply): (f: Value -> Option<Container>)
    ensures forall v :: f(v) == ContainerOf(v, llm)
  {
    (v: Value) => ContainerOf(v, llm)
  }

  /** One container per entry, in order, or None when one entry raises. */
  function ContainersIn(entries: seq<Value>, llm: Prompt -> Reply): (r: Option<seq<Container>>)
    ensures r.Some? <==> forall i :: 0 <= i < |entries| ==> ContainerOf(entries[i], llm).Some?
    ensures r.Some? ==> |r.value| == |entries| && forall i :: 0 <= i < |entries| ==> ContainerOf(entries[i], llm) == Some(r.value[i])
  {
    TryMap(entries, ContainerOfFn(llm))
  }

  function ContainersOf(analysis: Value, llm: Prompt -> Reply): Option<seq<Container>> {
    var entries :- Entries(analysis, "containers");
    ContainersIn(entries, llm)
  }

  /** The loop body of `_build_container_level` for one entry. */
  method MakeContainer(containerData: Value, llm: Prompt -> Reply) returns (r: Option<Container>)
    ensures r == ContainerOf(containerData, llm)
  {
    if !containerData.Obj? {
      return None;
    }
    var description := GenerateComponentDescription(containerData.fields, llm);
    var technologies := ExtractTechnologies(containerData);
    if technologies.None? {
      return None;
    }
    var id := Item(containerData, "id");
    var name := Item(containerData, "name");
    var runtime := Get(containerData, "image", Lookup(containerData.fields, "technology").GetOr(Str("")));
    var portsValue := Get(containerData, "ports", List([]));
    if id.None? || name.None? || runtime.None? || portsValue.None? {
      return None;
    }
    var ports := Iter(portsValue.value);
    var environment := Get(containerData, "environment", Obj([]));
    var dependsOn := Get(containerData, "depends_on", List([]));
    if ports.None? || environment.None? || dependsOn.None? {
      return None;
    }
    r := Some(Container(Display(id.value), Display(name.value), description, ContainerElement, technologies.value, {}, [],
                        runtime.value, PortsOf(ports.value), environment.value, dependsOn.value));
  }

  /** `_build_container_level`: exactly one container per analysis container, appended in order. */
  method BuildContainerLevel(model: C4Model, analysis: Value, llm: Prompt -> Reply) returns (r: Option<C4Model>)
    ensures r.Some? <==> ContainersOf(analysis, llm).Some?
    ensures r.Some? ==> r.value == model.(containers := model.containers + ContainersOf(analysis, llm).value)
  {
    var entries := Entries(analysis, "containers");
    if entries.None? {
      return None;
    }
    var es := entries.value;
    var m := model;
    ghost var added: seq<Container> := [];
    var i := 0;
    while i < |es|
      invariant 0 <= i <= |es|
      invariant ContainersIn(es[..i], llm) == Some(added)
      invariant m == model.(containers := model.containers + added)
    {
      var c := MakeContainer(es[i], llm);
      if c.None? {
        return None;
      }
      TryMapSnoc(es, ContainerOfFn(llm), i, added, c.value);
      AppendAssoc(model.containers, added, [c.value]);
      added := added + [c.value];
      m := m.(containers := m.containers + [c.value]);
      i := i + 1;
    }
    assert es[..i] == es;
    r := Some(m);
  }

  // ---------------------------------------------------------------- component level

  /** `_language_to_technology`: a lookup of the lowered language name; None for an unknown language. */
  function LanguageToTechnology(language: string): (r: Option<Technology>)
    ensures r.None? <==> Lower(language) !in ["python", "java", "javascript", "typescript", "go", "csharp"]
    ensures Lower(language) in ["javascript", "typescript"] ==> r == Some(NodeJs)
  {
    var key := Lower(language);
    if key == "python" then Some(Python)
    else if key == "java" then Some(Java)
    else if key == "javascript" || key == "typescript" then Some(NodeJs)
    else if key == "go" then Some(Golang)
    else if key == "csharp" then Some(CSharp)
    else None
  }

  /** Lowering twice is lowering once. */
  lemma LowerTwice(s: string)
    ensures Lower(Lower(s)) == Lower(s)
  {
    assert forall i :: 0 <= i < |s| ==> Lower(Lower(s))[i] == LowerChar(LowerChar(s[i]));
  }

  /** The lookup does not depend on letter case. */
  lemma LanguageCaseInsensitive(language: string)
    ensures LanguageToTechnology(Lower(language)) == LanguageToTechnology(language)
  {
    LowerTwice(language);
  }

  /** `[cls['name'] for cls in details['classes']]`. */
  function InterfaceNames(details: Value): (r: Option<seq<Value>>)
    ensures r.Some? ==> Item(details, "classes").Some? && Iter(Item(details, "classes").value).Some?
    ensures r.Some? ==> var classes := Iter(Item(details, "classes").value).value;
                        |r.value| == |classes| && forall i :: 0 <= i < |classes| ==> Item(classes[i], "name") == Some(r.value[i])
  {
    var classes :- Item(details, "classes");
    var items :- Iter(classes);
    TryMap(items, (cls: Value) => Item(cls, "name"))
  }

  /**
   * The component for one analysis entry; None where `_build_component_level`
   * raises: not a mapping, `['id']` or `['name']` missing, a non-string
   * language, a `details` that `in` or `['classes']` does not apply to.
   */
  function ComponentOf(componentData: Value, llm: Prompt -> Reply): (r: Option<Component>)
    ensures r.Some? ==> componentData.Obj? && "id" in Keys(componentData.fields) && "name" in Keys(componentData.fields)
    ensures r.Some? ==> r.value.id == Display(Item(componentData, "id").value)
                        && r.value.name == Display(Item(componentData, "name").value)
                        && r.value.kind == ComponentElement
    ensures r.Some? ==> r.value.containerId == Get(componentData, "container_id", Str("")).value
                        && r.value.sourceFiles == [Get(componentData, "file_path", Str("")).value]
    ensures r.Some? ==> Get(componentData, "language", Str("")).value.Str? &&
                        var tech := LanguageToTechnology(Get(componentData, "language", Str("")).value.s);
                        r.value.technology == (if tech.Some? then Some([tech.value]) else None)
    ensures r.Some? && HasIn(Get(componentData, "details", Obj([])).value, "classes") == Some(false) ==> r.value.interfaces == []
    ensures r.Some? && HasIn(Get(componentData, "details", Obj([])).value, "classes") == Some(true) ==>
              Some(r.value.interfaces) == InterfaceNames(Get(componentData, "details", Obj([])).value)
    ensures r.Some? ==> r.value.description == GenerateComponentDescription(componentData.fields, llm)
  {
    if !componentData.Obj? then None
    else
      var description := GenerateComponentDescription(componentData.fields, llm);
      var language :- Get(componentData, "language", Str(""));
      if !language.Str? then None
      else
        var tech := LanguageToTechnology(language.s);
        var id :- Item(componentData, "id");
        var name :- Item(componentData, "name");
        var containerId :- Get(componentData, "container_id", Str(""));
        var filePath :- Get(componentData, "file_path", Str(""));
        var details :- Get(componentData, "details", Obj([]));
        var hasClasses :- HasIn(details, "classes");
        var interfaces :- if hasClasses then InterfaceNames(details) else Some([]);
        Some(Component(Display(id), Display(name), description, containerId, ComponentElement,
                       if tech.Some? then Some([tech.value]) else None, {}, [], [filePath], interfaces))
  }

  /** `ComponentOf` as a function value. */
  function ComponentOfFn(llm: Prompt -> Reply): (f: Value -> Option<Component>)
    ensures forall v :: f(v) == ComponentOf(v, llm)
  {
    (v: Value) => ComponentOf(v, llm)
  }

  /** One component per entry, in order, or None when one entry raises. */
  function ComponentsIn(entries: seq<Value>, llm: Prompt -> Reply): (r: Option<seq<Component>>)
    ensures r.Some? <==> forall i :: 0 <= i < |entries| ==> ComponentOf(entries[i], llm).Some?
    ensures r.Some? ==> |r.value| == |entries| && forall i :: 0 <= i < |entries| ==> ComponentOf(entries[i], llm) == Some(r.value[i])
  {
    TryMap(entries, ComponentOfFn(llm))
  }

  function ComponentsOf(analysis: Value, llm: Prompt -> Reply): Option<seq<Component>> {
    var entries :- Entries(analysis, "components");
    ComponentsIn(entries, llm)
  }

  /** `_build_component_level`: exactly one component per analysis component, appended in order. */
  method BuildComponentLevel(model: C4Model, analysis: Value, llm: Prompt -> Reply) returns (r: Option<C4Model>)
    ensures r.Some? <==> ComponentsOf(analysis, llm).Some?
    ensures r.Some? ==> r.value == model.(components := model.components + ComponentsOf(analysis, llm).value)
  {
    var entries := Entries(analysis, "components");
    if entries.None? {
      return None;
    }
    var es := entries.value;
    var m := model;
    ghost var added: seq<Component> := [];
    var i := 0;
    while i < |es|
      invariant 0 <= i <= |es|
      invariant ComponentsIn(es[..i], llm) == Some(added)
      invariant m == model.(components := model.components + added)
    {
      var c := ComponentOf(es[i], llm);
      if c.None? {
        return None;
      }
      TryMapSnoc(es, ComponentOfFn(llm), i, added, c.value);
      AppendAssoc(model.components, added, [c.value]);
      added := added + [c.value];
      m := m.(components := m.components + [c.value]);
      i := i + 1;
    }
    assert es[..i] == es;
    r := Some(m);
  }

  // ---------------------------------------------------------------- relationships

  /** `graph.nodes.get(n, {})`. */
  function NodeAttrsOr(g: Graph, n: string): Attrs {
    if n in g.nodeAttrs then g.nodeAttrs[n] else map[]
  }

  /** The edge's relationship type as the prompt and the default description show it. */
  function EdgeContext(g: Graph, e: (string, string)): string {
    Display(RelationshipType(if e in g.edgeAttrs then g.edgeAttrs[e] else map[]))
  }

  /** `data.get('relationship', 'uses')` for an edge's attribute dict. */
  function RelationshipType(data: Attrs): Value {
    if "relationship" in data then data["relationship"] else Str("uses")
  }

  /**
   * The relationship for one graph edge.  `render` gives a node's
   * attribute dict in the order the prompt shows it, which the graph model
   * does not keep.  None when the decoded details are not a mapping.
   */
  function RelationshipOf(g: Graph, e: (string, string), llm: Prompt -> Reply, decode: string -> Option<Value>,
                          render: Attrs -> Fields): (r: Option<Relationship>)
    ensures r.Some? ==> r.value.sourceId == e.0 && r.value.targetId == e.1 && r.value.technology == r.value.protocol
    ensures var details := InferRelationships(render(NodeAttrsOr(g, e.0)), render(NodeAttrsOr(g, e.1)), EdgeContext(g, e), llm, decode);
            r.Some? <==> details.Obj?
    ensures var details := InferRelationships(render(NodeAttrsOr(g, e.0)), render(NodeAttrsOr(g, e.1)), EdgeContext(g, e), llm, decode);
            r.Some? ==>
              && r.value.description == Display(Lookup(details.fields, "description").GetOr(Str(EdgeContext(g, e) + " relationship")))
              && r.value.protocol == Lookup(details.fields, "protocol").GetOr(Str(""))
  {
    var context := EdgeContext(g, e);
    var details := InferRelationships(render(NodeAttrsOr(g, e.0)), render(NodeAttrsOr(g, e.1)), context, llm, decode);
    var description :- Get(details, "description", Str(context + " relationship"));
    var protocol :- Get(details, "protocol", Str(""));
    Some(Relationship(e.0, e.1, Display(description), protocol, protocol))
  }

  /**
   * When the reply is not JSON the fallback answer is used: the
   * description is "<rel> relationship" (rel 'uses' when the edge has no
   * 'relationship' attribute) and technology and protocol are 'unknown'.
   */
  lemma RelationshipOnBadReply(g: Graph, e: (string, string), llm: Prompt -> Reply, decode: string -> Option<Value>,
                               render: Attrs -> Fields)
    requires decode(GenerateWithFallback(llm(RelationshipPrompt(render(NodeAttrsOr(g, e.0)), render(NodeAttrsOr(g, e.1)),
                                                                EdgeContext(g, e))))).None?
    ensures RelationshipOf(g, e, llm, decode, render) ==
              Some(Relationship(e.0, e.1, EdgeContext(g, e) + " relationship", Str("unknown"), Str("unknown")))
  {
    var fallback := RelationshipFallback(EdgeContext(g, e));
    assert Lookup(fallback.fields, "description") == Some(Str(EdgeContext(g, e) + " relationship"));
    assert Lookup(fallback.fields, "protocol") == Some(Str("unknown"));
  }

  /** An edge without a 'relationship' attribute is described as "uses". */
  lemma EdgeContextDefault(g: Graph, e: (string, string))
    requires e !in g.edgeAttrs || "relationship" !in g.edgeAttrs[e]
    ensures EdgeContext(g, e) == "uses"
  {
  }

  /** The fallback description of an edge without a 'relationship' attribute. */
  lemma BadReplyUses(g: Graph, e: (string, string), llm: Prompt -> Reply, decode: string -> Option<Value>,
                     render: Attrs -> Fields)
    requires decode(GenerateWithFallback(llm(RelationshipPrompt(render(NodeAttrsOr(g, e.0)), render(NodeAttrsOr(g, e.1)),
                                                                EdgeContext(g, e))))).None?
    requires e !in g.edgeAttrs || "relationship" !in g.edgeAttrs[e]
    ensures RelationshipOf(g, e, llm, decode, render).Some? &&
            RelationshipOf(g, e, llm, decode, render).value.description == "uses relationship"
  {
    RelationshipOnBadReply(g, e, llm, decode, render);
    EdgeContextDefault(g, e);
  }

  /** `RelationshipOf` for one graph as a function value. */
  function RelationshipFn(g: Graph, llm: Prompt -> Reply, decode: string -> Option<Value>, render: Attrs -> Fields)
    : (f: ((string, string)) -> Option<Relationship>)
    ensures forall e :: f(e) == RelationshipOf(g, e, llm, decode, render)
  {
    (e: (string, string)) => RelationshipOf(g, e, llm, decode, render)
  }

  /** One relationship per edge, in order, or None when one edge raises. */
  function RelationshipsIn(g: Graph, edges: seq<(string, string)>, llm: Prompt -> Reply, decode: string -> Option<Value>,
                           render: Attrs -> Fields): (r: Option<seq<Relationship>>)
    ensures r.Some? <==> forall i :: 0 <= i < |edges| ==> RelationshipOf(g, edges[i], llm, decode, render).Some?
    ensures r.Some? ==> |r.value| == |edges| &&
                        forall i :: 0 <= i < |edges| ==> RelationshipOf(g, edges[i], llm, decode, render) == Some(r.value[i])
  {
    TryMap(edges, RelationshipFn(g, llm, decode, render))
  }

  /** `_build_relationships`: exactly one relationship per graph edge, appended in edge order. */
  method BuildRelationships(model: C4Model, graph: Graph, llm: Prompt -> Reply, decode: string -> Option<Value>,
                            render: Attrs -> Fields) returns (r: Option<C4Model>)
    requires graph.Valid()
    ensures r.Some? <==> RelationshipsIn(graph, graph.Edges(), llm, decode, render).Some?
    ensures r.Some? ==>
              r.value == model.(relationships := model.relationships + RelationshipsIn(graph, graph.Edges(), llm, decode, render).value)
  {
    var edges := graph.Edges();
    var rels := TryMapEach(edges, RelationshipFn(graph, llm, decode, render));
    if rels.None? {
      return None;
    }
    r := Some(model.(relationships := model.relationships + rels.value));
  }

  /** Every relationship connects the endpoints of a graph edge. */
  lemma RelationshipsFollowEdges(graph: Graph, llm: Prompt -> Reply, decode: string -> Option<Value>, render: Attrs -> Fields, k: nat)
    requires graph.Valid()
    requires RelationshipsIn(graph, graph.Edges(), llm, decode, render).Some?
    requires k < |RelationshipsIn(graph, graph.Edges(), llm, decode, render).value|
    ensures var x := RelationshipsIn(graph, graph.Edges(), llm, decode, render).value[k];
            graph.HasEdge(x.sourceId, x.targetId)
  {
    var edges := graph.Edges();
    EdgesMembers(graph, edges[k].0, edges[k].1);
  }

  // ---------------------------------------------------------------- context level and build

  /**
   * `_build_context_level`, which ends with `_identify_external_systems`:
   * the context systems are appended, then one external system per
   * distinct pair.
   */
  method BuildContextLevel(model: C4Model, analysis: Value, llm: Prompt -> Reply) returns (r: Option<C4Model>)
    ensures r.Some? <==> ContextSystems(analysis, model.name, llm).Some? && ExternalPairs(analysis).Some?
    ensures r.Some? ==>
              var systems := ContextSystems(analysis, model.name, llm).value;
              && r.value == model.(systems := r.value.systems)
              && |r.value.systems| >= |model.systems| + |systems|
              && r.value.systems[..|model.systems| + |systems|] == model.systems + systems
              && ExternalsFor(ExternalPairs(analysis).value, r.value.systems[|model.systems| + |systems|..])
  {
    var m := AppendContextSystems(model, analysis, llm);
    if m.None? {
      return None;
    }
    r := IdentifyExternalSystems(m.value, analysis);
  }

  /** The part of `_build_context_level` before the external systems. */
  method AppendContextSystems(model: C4Model, analysis: Value, llm: Prompt -> Reply) returns (r: Option<C4Model>)
    ensures r.Some? <==> ContextSystems(analysis, model.name, llm).Some?
    ensures r.Some? ==> r.value == model.(systems := model.systems + ContextSystems(analysis, model.name, llm).value)
  {
    var boundary := BoundarySystems(analysis);
    if boundary.None? {
      return None;
    }
    if !Truthy(boundary.value) {
      var d := DefaultSystem(model.name, analysis, llm);
      if d.None? {
        return None;
      }
      return Some(model.(systems := model.systems + [d.value]));
    }
    var entries := Iter(boundary.value);
    if entries.None? {
      return None;
    }
    r := AppendGroupedSystems(model, entries.value);
  }

  /** One system per boundary entry, appended in order. */
  method AppendGroupedSystems(model: C4Model, es: seq<Value>) returns (r: Option<C4Model>)
    ensures r.Some? <==> GroupedSystems(es).Some?
    ensures r.Some? ==> r.value == model.(systems := model.systems + GroupedSystems(es).value)
  {
    var m := model;
    ghost var added: seq<ArchitectureElement> := [];
    var i := 0;
    while i < |es|
      invariant 0 <= i <= |es|
      invariant TryMap(es[..i], GroupedSystem) == Some(added)
      invariant m == model.(systems := model.systems + added)
    {
      var s := GroupedSystem(es[i]);
      if s.None? {
        return None;
      }
      TryMapSnoc(es, GroupedSystem, i, added, s.value);
      AppendAssoc(model.systems, added, [s.value]);
      added := added + [s.value];
      m := m.(systems := m.systems + [s.value]);
      i := i + 1;
    }
    assert es[..i] == es;
    r := Some(m);
  }

  /**
   * `_identify_external_systems`: the distinct pairs from Terraform
   * resource types and container images, then one system per pair.
   */
  method IdentifyExternalSystems(model: C4Model, analysis: Value) returns (r: Option<C4Model>)
    ensures r.Some? <==> ExternalPairs(analysis).Some?
    ensures r.Some? ==> r.value == model.(systems := r.value.systems)
    ensures r.Some? ==> |r.value.systems| >= |model.systems| && r.value.systems[..|model.systems|] == model.systems
    ensures r.Some? ==> ExternalsFor(ExternalPairs(analysis).value, r.value.systems[|model.systems|..])
  {
    var resources := TerraformResources(analysis);
    if resources.None? {
      return None;
    }
    var pairs := CollectPairs(resources.value, TerraformPair);
    if pairs.None? {
      return None;
    }
    var containers := Entries(analysis, "containers");
    if containers.None? {
      return None;
    }
    var more := CollectPairs(containers.value, ImagePair);
    if more.None? {
      return None;
    }
    var external := pairs.value + more.value;
    var order := ListOf(external);
    var m := AppendExternals(model, order);
    ExternalsListed(external, order);
    assert m.systems[|model.systems|..] == ExternalElements(order);
    r := Some(m);
  }

  /** The loop of `_identify_external_systems` that adds one system per listed pair. */
  method AppendExternals(model: C4Model, order: seq<Pair>) returns (m: C4Model)
    ensures m == model.(systems := model.systems + ExternalElements(order))
  {
    m := model;
    var j := 0;
    while j < |order|
      invariant 0 <= j <= |order|
      invariant m == model.(systems := model.systems + ExternalElements(order[..j]))
    {
      assert order[..j + 1][..j] == order[..j];
      AppendAssoc(model.systems, ExternalElements(order[..j]), [ExternalElement(order[j])]);
      m := m.(systems := m.systems + [ExternalElement(order[j])]);
      j := j + 1;
    }
    assert order[..j] == order;
  }

  /** One more optional pair adds its pair, if any, to the collected set. */
  lemma CollectedSnoc(ps: seq<Option<Pair>>, p: Option<Pair>)
    ensures Collected(ps + [p]) == Collected(ps) + (if p.Some? then {p.value} else {})
  {
    assert (ps + [p])[..|ps|] == ps;
  }

  /** `set.add` for each item's pair, in order. */
  method CollectPairs(items: seq<Value>, f: Value -> Option<Option<Pair>>) returns (r: Option<set<Pair>>)
    ensures r.Some? <==> TryMap(items, f).Some?
    ensures r.Some? ==> r.value == Collected(TryMap(items, f).value)
  {
    var pairs: set<Pair> := {};
    ghost var seen: seq<Option<Pair>> := [];
    var i := 0;
    while i < |items|
      invariant 0 <= i <= |items|
      invariant TryMap(items[..i], f) == Some(seen)
      invariant pairs == Collected(seen)
    {
      var p := f(items[i]);
      if p.None? {
        TryMapFails(items, f, i);
        return None;
      }
      TryMapSnoc(items, f, i, seen, p.value);
      CollectedSnoc(seen, p.value);
      seen := seen + [p.value];
      if p.value.Some? {
        pairs := pairs + {p.value.value};
      }
      i := i + 1;
    }
    assert items[..i] == items;
    r := Some(pairs);
  }

  /**
   * `build`: a model named after the repository with the context systems,
   * the external systems, one container per analysis container, one
   * component per analysis component and one relationship per graph edge.
   */
  method Build(analysis: Value, repositoryName: string, graph: Graph, llm: Prompt -> Reply,
               decode: string -> Option<Value>, render: Attrs -> Fields) returns (r: Option<C4Model>)
    requires graph.Valid()
    ensures r.Some? <==>
              && ContextSystems(analysis, repositoryName, llm).Some?
              && ExternalPairs(analysis).Some?
              && ContainersOf(analysis, llm).Some?
              && ComponentsOf(analysis, llm).Some?
              && RelationshipsIn(graph, graph.Edges(), llm, decode, render).Some?
    ensures r.Some? ==>
              && r.value.name == repositoryName
              && r.value.description == "Architecture model for " + repositoryName
              && r.value.people == []
              && var systems := ContextSystems(analysis, repositoryName, llm).value;
              && |r.value.systems| >= |systems|
              && r.value.systems[..|systems|] == systems
              && ExternalsFor(ExternalPairs(analysis).value, r.value.systems[|systems|..])
              && r.value.containers == ContainersOf(analysis, llm).value
              && r.value.components == ComponentsOf(analysis, llm).value
              && r.value.relationships == RelationshipsIn(graph, graph.Edges(), llm, decode, render).value
  {
    var m := BuildLevels(analysis, repositoryName, llm);
    if m.None? {
      return None;
    }
    r := BuildRelationships(m.value, graph, llm, decode, render);
    if r.Some? {
      ghost var rels := RelationshipsIn(graph, graph.Edges(), llm, decode, render).value;
      assert [] + rels == rels;
    }
  }

  /** The three levels of `build` before the relationships, on the empty model. */
  method BuildLevels(analysis: Value, repositoryName: string, llm: Prompt -> Reply) returns (r: Option<C4Model>)
    ensures r.Some? <==>
              && ContextSystems(analysis, repositoryName, llm).Some?
              && ExternalPairs(analysis).Some?
              && ContainersOf(analysis, llm).Some?
              && ComponentsOf(analysis, llm).Some?
    ensures r.Some? ==>
              && r.value.name == repositoryName
              && r.value.description == "Architecture model for " + repositoryName
              && r.value.people == []
              && var systems := ContextSystems(analysis, repositoryName, llm).value;
              && |r.value.systems| >= |systems|
              && r.value.systems[..|systems|] == systems
              && ExternalsFor(ExternalPairs(analysis).value, r.value.systems[|systems|..])
              && r.value.containers == ContainersOf(analysis, llm).value
              && r.value.components == ComponentsOf(analysis, llm).value
              && r.value.relationships == []
  {
    var model := C4Model(repositoryName, "Architecture model for " + repositoryName, [], [], [], [], []);
    var m1 := BuildContextLevel(model, analysis, llm);
    if m1.None? {
      return None;
    }
    ghost var systems := ContextSystems(analysis, repositoryName, llm).value;
    assert [] + systems == systems;
    var m2 := BuildContainerLevel(m1.value, analysis, llm);
    if m2.None? {
      return None;
    }
    ghost var containers := ContainersOf(analysis, llm).value;
    assert [] + containers == containers;
    r := BuildComponentLevel(m2.value, analysis, llm);
    if r.Some? {
      ghost var components := ComponentsOf(analysis, llm).value;
      assert [] + components == components;
    }
  }

  // ---------------------------------------------------------------- properties of the external systems

  /**
   * Only the first match counts: an image naming postgres or mysql is a
   * database whatever else it names, redis is a cache only when no
   * database name occurs, and kafka/rabbitmq a message queue only when
   * neither of the others does.
   */
  lemma ImageFirstMatch(container: Value, image: string)
    requires Get(container, "image", Str("")) == Some(Str(image))
    ensures Contains(image, "postgres") || Contains(image, "mysql") ==> ImagePair(container) == Some(Some(DatabasePair))
    ensures !Contains(image, "postgres") && !Contains(image, "mysql") && Contains(image, "redis") ==>
              ImagePair(container) == Some(Some(CachePair))
    ensures !Contains(image, "postgres") && !Contains(image, "mysql") && !Contains(image, "redis") ==>
              ImagePair(container) == Some(if Contains(image, "kafka") || Contains(image, "rabbitmq") then Some(MessagingPair) else None)
  {
  }

  /** A pair contributed by one resource or one container is among the collected pairs. */
  lemma Contributes(xs: seq<Value>, f: Value -> Option<Option<Pair>>, k: nat, p: Pair)
    requires TryMap(xs, f).Some? && k < |xs| && f(xs[k]) == Some(Some(p))
    ensures p in Collected(TryMap(xs, f).value)
  {
    assert TryMap(xs, f).value[k] == Some(p);
  }

  /**
   * A Terraform RDS instance and a postgres image give two different pairs,
   * so two systems are created, and both have the same id, "external_database"
   * by `SlugDatabase`.
   */
  lemma RdsAndPostgresTwice(analysis: Value, i: nat, j: nat)
    requires ExternalPairs(analysis).Some?
    requires TerraformResources(analysis).Some? && i < |TerraformResources(analysis).value|
    requires Item(TerraformResources(analysis).value[i], "type") == Some(Str("aws_rds_instance"))
    requires Entries(analysis, "containers").Some? && j < |Entries(analysis, "containers").value|
    requires Get(Entries(analysis, "containers").value[j], "image", Str("")) == Some(Str("postgres:15"))
    ensures ExternalDatabase in ExternalPairs(analysis).value && DatabasePair in ExternalPairs(analysis).value
    ensures ExternalDatabase != DatabasePair
    ensures ExternalElement(ExternalDatabase).id == ExternalElement(DatabasePair).id == "external_" + Slug("Database")
  {
    var resources := TerraformResources(analysis).value;
    var containers := Entries(analysis, "containers").value;
    Contributes(resources, TerraformPair, i, ExternalDatabase);
    PostgresImage(containers[j]);
    Contributes(containers, ImagePair, j, DatabasePair);
    assert ExternalDatabase.1[0] != DatabasePair.1[0];
  }

  /** A "postgres:15" image gives the database pair. */
  lemma PostgresImage(container: Value)
    requires Get(container, "image", Str("")) == Some(Str("postgres:15"))
    ensures ImagePair(container) == Some(Some(DatabasePair))
  {
    assert "postgres:15"[0..8] == "postgres";
    assert OccursAt("postgres:15", "postgres", 0);
    ImageFirstMatch(container, "postgres:15");
  }

  /** The slug both database systems share. */
  lemma SlugDatabase()
    ensures Slug("Database") == "database"
  {
    var s := Slug("Database");
    assert forall i :: 0 <= i < 8 ==> s[i] == LowerChar("Database"[i]);
    assert LowerChar('D') == 'd';
    assert forall i :: 0 <= i < 8 ==> s[i] == "database"[i];
  }

  /** Pairs are collected into a set, so a pair found many times is there once. */
  lemma CollectedOnce(ps: seq<Option<Pair>>, p: Pair)
    requires |ps| > 0
    requires forall k :: 0 <= k < |ps| ==> ps[k] == Some(p)
    ensures Collected(ps) == {p}
  {
    assert ps[0] == Some(p);
    forall q | q in Collected(ps)
      ensures q == p
    {
      var k :| 0 <= k < |ps| && ps[k] == Some(q);
    }
  }

}
