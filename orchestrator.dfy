/**
 * The deterministic part of `C4ArchitectureRecovery` (src/orchestrator.py):
 * the per-file parse loops, the relationship rules for Kubernetes Services
 * and Deployments and for docker-compose services, and the population of
 * the knowledge graph.  Each file arrives with its name, its parent
 * directory's name and its text; the YAML and HCL loaders are parameters
 * (`yaml.safe_load_all`, `hcl2.load`), and so are the Python parser's two
 * entry points.  A Python exception is `None`: inside a per-file `try` it
 * means the file contributes what it appended before the raise.
 */
module Orchestrator {
  import opened Wrappers
  import opened Strings
  import opened Values
  import opened PyDict
  import opened AstParser
  import DiGraph
  import KnowledgeGraph

  /** A file of the repository: its `name`, its parent directory's name, and its text (None when it cannot be opened). */
  datatype SourceFile = SourceFile(name: string, parent: string, text: Option<string>)

  /** The file lists of `RepositoryStructure` that the orchestrator reads. */
  datatype Structure = Structure(
    dockerFiles: seq<SourceFile>,
    kubernetesFiles: seq<SourceFile>,
    terraformFiles: seq<SourceFile>,
    sourceCode: Dict<string, seq<SourceFile>>)

  // ---------------------------------------------------------------- per-file try loops

  /** What one `try` contributes: the file's items, or nothing when it raised. */
  function Contribution<U>(o: Option<seq<U>>): seq<U> {
    if o.Some? then o.value else []
  }

  /** A loop of per-file `try`s that extends a list with each file's items. */
  function Gather<T, U(!new)>(xs: seq<T>, f: T -> Option<seq<U>>): (r: seq<U>)
    ensures forall u :: u in r <==> exists i :: 0 <= i < |xs| && f(xs[i]).Some? && u in f(xs[i]).value
    decreases |xs|
  {
    if |xs| == 0 then []
    else
      var init := xs[..|xs| - 1];
      assert forall i :: 0 <= i < |init| ==> init[i] == xs[i];
      Gather(init, f) + Contribution(f(xs[|xs| - 1]))
  }

  lemma GatherSnoc<T, U(!new)>(xs: seq<T>, f: T -> Option<seq<U>>, i: nat)
    requires i < |xs|
    ensures Gather(xs[..i + 1], f) == Gather(xs[..i], f) + Contribution(f(xs[i]))
  {
    assert xs[..i + 1][..i] == xs[..i];
  }

  /** `DockerfileParser.parse`: one component named after the parent directory, or a raise. */
  function DockerfileComponents(f: SourceFile): (r: Option<seq<Component>>)
    ensures r.Some? ==> |r.value| == 1 && r.value[0].name == f.parent && r.value[0].kind == "container"
    ensures f.text.None? ==> r.None?
  {
    var text :- f.text;
    var c :- DockerfileLines(Bare(f.parent, "container", "docker"), SplitOn(text, '\n'));
    DockerfileKeepsIdentity(Bare(f.parent, "container", "docker"), SplitOn(text, '\n'));
    Some([c])
  }

  /** `KubernetesParser.parse`: the components of the file's documents. */
  function KubernetesComponents(f: SourceFile, loadAll: string -> Option<seq<Value>>): (r: Option<seq<Component>>)
    ensures f.text.None? ==> r.None?
    ensures r.Some? ==> f.text.Some? && loadAll(f.text.value).Some? && |r.value| == CountParsed(loadAll(f.text.value).value)
  {
    var text :- f.text;
    var ms :- loadAll(text);
    var cs :- ManifestsComponents(ms);
    ManifestsCount(ms);
    Some(cs)
  }

  function KubernetesFn(loadAll: string -> Option<seq<Value>>): (g: SourceFile -> Option<seq<Component>>)
    ensures forall f :: g(f) == KubernetesComponents(f, loadAll)
  {
    f => KubernetesComponents(f, loadAll)
  }

  /** `TerraformParser.parse`: the components of the file's resources. */
  function TerraformComponents(f: SourceFile, loadHcl: string -> Option<Value>): (r: Option<seq<Component>>)
    ensures f.text.None? ==> r.None?
    ensures r.Some? ==> forall c :: c in r.value ==> c.kind in ResourceKinds
    ensures f.text.Some? && loadHcl(f.text.value).None? ==> r.None?
    ensures f.text.Some? && loadHcl(f.text.value).Some? ==> r == TerraformOf(loadHcl(f.text.value).value)
  {
    var text :- f.text;
    var tf :- loadHcl(text);
    TerraformOf(tf)
  }

  function TerraformFn(loadHcl: string -> Option<Value>): (g: SourceFile -> Option<seq<Component>>)
    ensures forall f :: g(f) == TerraformComponents(f, loadHcl)
  {
    f => TerraformComponents(f, loadHcl)
  }

  /** The files listed under 'python' in `source_code`; no other language is parsed. */
  function PythonFiles(s: Structure): seq<SourceFile> {
    if "python" in s.sourceCode.vals then s.sourceCode.vals["python"] else []
  }

  /** `files[:10]`. */
  function FirstTen<T>(files: seq<T>): (r: seq<T>)
    ensures |r| <= 10 && r <= files
    ensures |files| <= 10 ==> r == files
  {
    if |files| <= 10 then files else files[..10]
  }

  /**
   * The components `_parse_all_files` returns: every Dockerfile's, then
   * every Kubernetes file's, then every Terraform file's, then those of
   * at most the first ten Python files, each file's `try` contributing
   * its components or nothing.
   */
  function AllComponents(s: Structure, loadAll: string -> Option<seq<Value>>, loadHcl: string -> Option<Value>,
                         pyParse: SourceFile -> Option<seq<Component>>): (r: seq<Component>)
    ensures forall c :: c in r <==>
      || (exists i :: 0 <= i < |s.dockerFiles| && DockerfileComponents(s.dockerFiles[i]).Some?
                      && c in DockerfileComponents(s.dockerFiles[i]).value)
      || (exists i :: 0 <= i < |s.kubernetesFiles| && KubernetesComponents(s.kubernetesFiles[i], loadAll).Some?
                      && c in KubernetesComponents(s.kubernetesFiles[i], loadAll).value)
      || (exists i :: 0 <= i < |s.terraformFiles| && TerraformComponents(s.terraformFiles[i], loadHcl).Some?
                      && c in TerraformComponents(s.terraformFiles[i], loadHcl).value)
      || (exists i :: 0 <= i < |FirstTen(PythonFiles(s))| && pyParse(FirstTen(PythonFiles(s))[i]).Some?
                      && c in pyParse(FirstTen(PythonFiles(s))[i]).value)
  {
    Gather(s.dockerFiles, DockerfileComponents) + Gather(s.kubernetesFiles, KubernetesFn(loadAll))
      + Gather(s.terraformFiles, TerraformFn(loadHcl)) + Gather(FirstTen(PythonFiles(s)), pyParse)
  }

  /** `_parse_all_files`. */
  method ParseAllFiles(s: Structure, loadAll: string -> Option<seq<Value>>, loadHcl: string -> Option<Value>,
                       pyParse: SourceFile -> Option<seq<Component>>) returns (r: seq<Component>)
    ensures r == AllComponents(s, loadAll, loadHcl, pyParse)
  {
    var docker := ParseDockerfiles(s.dockerFiles);
    var k8s := ParseKubernetesFiles(s.kubernetesFiles, loadAll);
    var tf := ParseTerraformFiles(s.terraformFiles, loadHcl);
    var py := ParsePythonFiles(PythonFiles(s), pyParse);
    r := docker + k8s + tf + py;
  }

  method ParseDockerfiles(files: seq<SourceFile>) returns (r: seq<Component>)
    ensures r == Gather(files, DockerfileComponents)
  {
    r := [];
    var i := 0;
    while i < |files|
      invariant 0 <= i <= |files|
      invariant r == Gather(files[..i], DockerfileComponents)
    {
      GatherSnoc(files, DockerfileComponents, i);
      if files[i].text.Some? {
        var c := ParseDockerfile(files[i].parent, files[i].text.value);
        if c.Some? {
          r := r + [c.value];
        }
      }
      i := i + 1;
    }
    assert files[..i] == files;
  }

  method ParseKubernetesFiles(files: seq<SourceFile>, loadAll: string -> Option<seq<Value>>) returns (r: seq<Component>)
    ensures r == Gather(files, KubernetesFn(loadAll))
  {
    r := [];
    var i := 0;
    while i < |files|
      invariant 0 <= i <= |files|
      invariant r == Gather(files[..i], KubernetesFn(loadAll))
    {
      GatherSnoc(files, KubernetesFn(loadAll), i);
      var text := files[i].text;
      if text.Some? {
        var ms := loadAll(text.value);
        if ms.Some? {
          var cs := ParseManifests(ms.value);
          if cs.Some? {
            r := r + cs.value;
          }
        }
      }
      i := i + 1;
    }
    assert files[..i] == files;
  }

  method ParseTerraformFiles(files: seq<SourceFile>, loadHcl: string -> Option<Value>) returns (r: seq<Component>)
    ensures r == Gather(files, TerraformFn(loadHcl))
  {
    r := [];
    var i := 0;
    while i < |files|
      invariant 0 <= i <= |files|
      invariant r == Gather(files[..i], TerraformFn(loadHcl))
    {
      GatherSnoc(files, TerraformFn(loadHcl), i);
      var text := files[i].text;
      if text.Some? {
        var tf := loadHcl(text.value);
        if tf.Some? {
          var cs := ParseTerraform(tf.value);
          if cs.Some? {
            r := r + cs.value;
          }
        }
      }
      i := i + 1;
    }
    assert files[..i] == files;
  }

  /** The `for py_file in files[:10]` loop. */
  method ParsePythonFiles(files: seq<SourceFile>, pyParse: SourceFile -> Option<seq<Component>>) returns (r: seq<Component>)
    ensures r == Gather(FirstTen(files), pyParse)
  {
    var limited := FirstTen(files);
    r := [];
    var i := 0;
    while i < |limited|
      invariant 0 <= i <= |limited|
      invariant r == Gather(limited[..i], pyParse)
    {
      GatherSnoc(limited, pyParse, i);
      var cs := pyParse(limited[i]);
      if cs.Some? {
        r := r + cs.value;
      }
      i := i + 1;
    }
    assert limited[..i] == limited;
  }

  /** Python files after the tenth are never read: replacing them changes nothing. */
  lemma PythonBeyondTenIgnored(s: Structure, extra: seq<SourceFile>, loadAll: string -> Option<seq<Value>>,
                                loadHcl: string -> Option<Value>, pyParse: SourceFile -> Option<seq<Component>>)
    requires |PythonFiles(s)| >= 10
    ensures var s2 := s.(sourceCode := s.sourceCode.Put("python", PythonFiles(s)[..10] + extra));
            AllComponents(s2, loadAll, loadHcl, pyParse) == AllComponents(s, loadAll, loadHcl, pyParse)
  {
    var s2 := s.(sourceCode := s.sourceCode.Put("python", PythonFiles(s)[..10] + extra));
    assert PythonFiles(s2) == PythonFiles(s)[..10] + extra;
    assert FirstTen(PythonFiles(s2)) == FirstTen(PythonFiles(s));
  }

  /** A loop over files none of which contributes anything collects nothing. */
  lemma GatherNothing<T, U(!new)>(xs: seq<T>, f: T -> Option<seq<U>>)
    requires forall i :: 0 <= i < |xs| ==> Contribution(f(xs[i])) == []
    ensures Gather(xs, f) == []
  {
  }

  /**
   * `PythonASTParser.parse` as written: every `_find_*` search returns [],
   * so a Python file yields no component whether or not it parses, and
   * the components are those of the Dockerfiles, Kubernetes and Terraform
   * files alone.
   */
  lemma StubPythonParse(s: Structure, loadAll: string -> Option<seq<Value>>, loadHcl: string -> Option<Value>,
                        pyParse: SourceFile -> Option<seq<Component>>)
    requires forall f :: Contribution(pyParse(f)) == []
    ensures AllComponents(s, loadAll, loadHcl, pyParse) ==
      Gather(s.dockerFiles, DockerfileComponents) + Gather(s.kubernetesFiles, KubernetesFn(loadAll))
        + Gather(s.terraformFiles, TerraformFn(loadHcl))
  {
    GatherNothing(FirstTen(PythonFiles(s)), pyParse);
  }

  // ---------------------------------------------------------------- Kubernetes Service -> Deployment

  /** Service selectors and Deployment template labels, keyed by the manifests' names. */
  datatype K8sIndex = K8sIndex(services: Dict<Value, Value>, deployments: Dict<Value, Value>) {
    predicate Valid() {
      services.Valid() && deployments.Valid()
    }
  }

  /** A value Python can use as a dictionary key. */
  predicate Hashable(v: Value) {
    !v.List? && !v.Obj?
  }

  /** `manifest.get('spec', {}).get('selector', {})`. */
  function Selector(m: Value): (r: Option<Value>)
    ensures r.Some? <==> m.Obj? && Get(m, "spec", Obj([])).value.Obj?
    ensures m.Obj? && "spec" !in Keys(m.fields) ==> r == Some(Obj([]))
  {
    var spec :- Get(m, "spec", Obj([]));
    Get(spec, "selector", Obj([]))
  }

  /** `manifest.get('spec', {}).get('template', {}).get('metadata', {}).get('labels', {})`. */
  function TemplateLabels(m: Value): (r: Option<Value>)
    ensures r.Some? ==> m.Obj?
    ensures m.Obj? && "spec" !in Keys(m.fields) ==> r == Some(Obj([]))
  {
    var spec :- Get(m, "spec", Obj([]));
    var template :- Get(spec, "template", Obj([]));
    var metadata :- Get(template, "metadata", Obj([]));
    Get(metadata, "labels", Obj([]))
  }

  /** `manifest.get('metadata', {}).get('name')`. */
  function ManifestName(m: Value): (r: Option<Value>)
    ensures r.Some? <==> m.Obj? && Get(m, "metadata", Obj([])).value.Obj?
    ensures m.Obj? && "metadata" !in Keys(m.fields) ==> r == Some(Null)
  {
    var metadata :- Get(m, "metadata", Obj([]));
    Get(metadata, "name", Null)
  }

  /**
   * One manifest of the collection loop: a Service records its selector
   * under its name, a Deployment its template labels; an empty document
   * and any other kind change nothing.  None when the manifest raises.
   */
  function IndexManifest(ix: K8sIndex, m: Value): (r: Option<K8sIndex>)
    ensures ix.Valid() && r.Some? ==> r.value.Valid()
    ensures !Truthy(m) ==> r == Some(ix)
    ensures r.Some? && Truthy(m) && Get(m, "kind", Null) == Some(Str("Service")) ==>
              ManifestName(m).Some? && Selector(m).Some? &&
              r.value.services.vals == ix.services.vals[ManifestName(m).value := Selector(m).value]
              && r.value.deployments == ix.deployments
    ensures r.Some? && Truthy(m) && Get(m, "kind", Null) == Some(Str("Deployment")) ==>
              ManifestName(m).Some? && TemplateLabels(m).Some? &&
              r.value.deployments.vals == ix.deployments.vals[ManifestName(m).value := TemplateLabels(m).value]
              && r.value.services == ix.services
    ensures r.Some? && Truthy(m) && Get(m, "kind", Null) != Some(Str("Service")) && Get(m, "kind", Null) != Some(Str("Deployment")) ==>
              r == Some(ix)
  {
    if !Truthy(m) then Some(ix)
    else
      var kind :- Get(m, "kind", Null);
      var name :- ManifestName(m);
      if kind == Str("Service") then
        var selector :- Selector(m);
        if Hashable(name) then Some(ix.(services := ix.services.Put(name, selector))) else None
      else if kind == Str("Deployment") then
        var labels :- TemplateLabels(m);
        if Hashable(name) then Some(ix.(deployments := ix.deployments.Put(name, labels))) else None
      else Some(ix)
  }

  /** The manifests of one file, in order, until one raises; what was recorded before it stays. */
  function IndexManifests(ix: K8sIndex, ms: seq<Value>): (r: K8sIndex)
    ensures ix.Valid() ==> r.Valid()
    decreases |ms|
  {
    if |ms| == 0 then ix
    else
      match IndexManifest(ix, ms[0])
      case None => ix
      case Some(next) => IndexManifests(next, ms[1..])
  }

  /** One file's `try`: nothing is recorded when it cannot be opened or loaded. */
  function IndexFile(ix: K8sIndex, f: SourceFile, loadAll: string -> Option<seq<Value>>): (r: K8sIndex)
    ensures ix.Valid() ==> r.Valid()
  {
    match f.text
    case None => ix
    case Some(text) =>
      match loadAll(text)
      case None => ix
      case Some(ms) => IndexManifests(ix, ms)
  }

  function IndexFiles(ix: K8sIndex, files: seq<SourceFile>, loadAll: string -> Option<seq<Value>>): (r: K8sIndex)
    ensures ix.Valid() ==> r.Valid()
    decreases |files|
  {
    if |files| == 0 then ix else IndexFiles(IndexFile(ix, files[0], loadAll), files[1..], loadAll)
  }

  /**
   * `all(labels.get(k) == v for k, v in selector.items())`: None when
   * `selector` is not a mapping, or when it is non-empty and `labels` is
   * not one.  A missing label reads as None.
   */
  function SelectorMatches(selector: Value, labels: Value): (r: Option<bool>)
    ensures r.Some? <==> selector.Obj? && (|selector.fields| == 0 || labels.Obj?)
  {
    if !selector.Obj? then None
    else if |selector.fields| == 0 then Some(true)
    else if !labels.Obj? then None
    else Some(forall i :: 0 <= i < |selector.fields| ==> Lookup(labels.fields, selector.fields[i].0).GetOr(Null) == selector.fields[i].1)
  }

  /** An empty selector matches every Deployment, whatever its labels. */
  lemma EmptySelectorMatchesAll(labels: Value)
    ensures SelectorMatches(Obj([]), labels) == Some(true)
  {
  }

  /**
   * A selector matches labels that carry each of its entries, and labels
   * that a selector matches carry each of its non-None entries.
   */
  lemma SelectorMatchesExactly(selector: Fields, labels: Fields)
    requires Distinct(Keys(labels))
    ensures SelectorMatches(Obj(selector), Obj(labels)) == Some(true) <==>
              forall i :: 0 <= i < |selector| ==>
                if selector[i].1 == Null then selector[i].0 !in Keys(labels) || selector[i] in labels
                else selector[i] in labels
  {
    forall i | 0 <= i < |selector| && selector[i] in labels
      ensures Lookup(labels, selector[i].0) == Some(selector[i].1)
    {
      var j :| 0 <= j < |labels| && labels[j] == selector[i];
      assert forall k :: 0 <= k < j ==> labels[k].0 != labels[j].0 by {
        assert forall k :: 0 <= k < |labels| ==> Keys(labels)[k] == labels[k].0;
      }
      LookupAt(labels, j);
    }
  }

  /** The relationship a matching pair produces. */
  function Route(service: Value, deployment: Value): (x: Relationship)
    ensures x.kind == "routes_to" && x.protocol == "kubernetes"
  {
    Relationship(Display(service), Display(deployment), "routes_to", "kubernetes", "Service routes traffic to deployment")
  }

  /** The inner loop: one relationship per matching Deployment, in order. */
  function RoutesFor(service: Value, selector: Value, deployments: seq<(Value, Value)>): (r: Option<seq<Relationship>>)
    ensures r.Some? <==> forall j :: 0 <= j < |deployments| ==> SelectorMatches(selector, deployments[j].1).Some?
    decreases |deployments|
  {
    if |deployments| == 0 then Some([])
    else
      var init := deployments[..|deployments| - 1];
      var last := deployments[|deployments| - 1];
      assert forall j :: 0 <= j < |init| ==> init[j] == deployments[j];
      var front :- RoutesFor(service, selector, init);
      var m :- SelectorMatches(selector, last.1);
      Some(front + if m then [Route(service, last.0)] else [])
  }

  lemma RoutesForSnoc(service: Value, selector: Value, deployments: seq<(Value, Value)>, j: nat, out: seq<Relationship>, m: bool)
    requires j < |deployments|
    requires RoutesFor(service, selector, deployments[..j]) == Some(out)
    requires SelectorMatches(selector, deployments[j].1) == Some(m)
    ensures RoutesFor(service, selector, deployments[..j + 1]) == Some(out + if m then [Route(service, deployments[j].0)] else [])
  {
    var p := deployments[..j + 1];
    assert p[..|p| - 1] == deployments[..j];
    assert p[|p| - 1] == deployments[j];
  }

  /** The outer loop over the Services. */
  function Routes(services: seq<(Value, Value)>, deployments: seq<(Value, Value)>): (r: Option<seq<Relationship>>)
    ensures r.Some? <==> forall i, j :: 0 <= i < |services| && 0 <= j < |deployments| ==>
                           SelectorMatches(services[i].1, deployments[j].1).Some?
    decreases |services|
  {
    if |services| == 0 then Some([])
    else
      var init := services[..|services| - 1];
      var last := services[|services| - 1];
      assert forall i :: 0 <= i < |init| ==> init[i] == services[i];
      var front :- Routes(init, deployments);
      var more :- RoutesFor(last.0, last.1, deployments);
      Some(front + more)
  }

  /** Each of a Service's relationships routes to a Deployment its selector matches. */
  lemma {:induction false} RoutesForSound(service: Value, selector: Value, deployments: seq<(Value, Value)>, x: Relationship)
    requires RoutesFor(service, selector, deployments).Some? && x in RoutesFor(service, selector, deployments).value
    ensures exists j :: 0 <= j < |deployments| && SelectorMatches(selector, deployments[j].1) == Some(true)
                        && x == Route(service, deployments[j].0)
    decreases |deployments|
  {
    var init := deployments[..|deployments| - 1];
    var last := deployments[|deployments| - 1];
    RoutesForSplit(service, selector, deployments);
    var front := RoutesFor(service, selector, init).value;
    if x in front {
      RoutesForSound(service, selector, init, x);
      var j :| 0 <= j < |init| && SelectorMatches(selector, init[j].1) == Some(true) && x == Route(service, init[j].0);
      assert init[j] == deployments[j];
    } else {
      var k := |deployments| - 1;
      assert SelectorMatches(selector, deployments[k].1) == Some(true) && x == Route(service, deployments[k].0);
    }
  }

  /** A Service gets a relationship to every Deployment its selector matches. */
  lemma {:induction false} RoutesForComplete(service: Value, selector: Value, deployments: seq<(Value, Value)>, j: nat)
    requires RoutesFor(service, selector, deployments).Some?
    requires j < |deployments| && SelectorMatches(selector, deployments[j].1) == Some(true)
    ensures Route(service, deployments[j].0) in RoutesFor(service, selector, deployments).value
    decreases |deployments|
  {
    var init := deployments[..|deployments| - 1];
    var last := deployments[|deployments| - 1];
    RoutesForSplit(service, selector, deployments);
    var front := RoutesFor(service, selector, init).value;
    if j < |init| {
      assert init[j] == deployments[j];
      RoutesForComplete(service, selector, init, j);
      assert Route(service, deployments[j].0) in front;
    } else {
      assert |init| == |deployments| - 1;
      assert j == |deployments| - 1;
    }
  }

  /** Each relationship routes from a Service to a Deployment that Service's selector matches. */
  lemma {:induction false} RoutesSound(services: seq<(Value, Value)>, deployments: seq<(Value, Value)>, x: Relationship)
    requires Routes(services, deployments).Some? && x in Routes(services, deployments).value
    ensures exists i, j :: 0 <= i < |services| && 0 <= j < |deployments|
                           && SelectorMatches(services[i].1, deployments[j].1) == Some(true)
                           && x == Route(services[i].0, deployments[j].0)
    decreases |services|
  {
    var init := services[..|services| - 1];
    var last := services[|services| - 1];
    var front := Routes(init, deployments).value;
    var more := RoutesFor(last.0, last.1, deployments).value;
    assert Routes(services, deployments).value == front + more;
    if x in front {
      RoutesSound(init, deployments, x);
      var i, j :| 0 <= i < |init| && 0 <= j < |deployments| && SelectorMatches(init[i].1, deployments[j].1) == Some(true)
                  && x == Route(init[i].0, deployments[j].0);
      assert init[i] == services[i];
      assert SelectorMatches(services[i].1, deployments[j].1) == Some(true) && x == Route(services[i].0, deployments[j].0);
    } else {
      RoutesForSound(last.0, last.1, deployments, x);
      var j :| 0 <= j < |deployments| && SelectorMatches(last.1, deployments[j].1) == Some(true)
               && x == Route(last.0, deployments[j].0);
      var i := |services| - 1;
      assert SelectorMatches(services[i].1, deployments[j].1) == Some(true) && x == Route(services[i].0, deployments[j].0);
    }
  }

  /** Every Service gets a relationship to every Deployment its selector matches. */
  lemma {:induction false} RoutesComplete(services: seq<(Value, Value)>, deployments: seq<(Value, Value)>, i: nat, j: nat)
    requires Routes(services, deployments).Some?
    requires i < |services| && j < |deployments| && SelectorMatches(services[i].1, deployments[j].1) == Some(true)
    ensures Route(services[i].0, deployments[j].0) in Routes(services, deployments).value
    decreases |services|
  {
    var init := services[..|services| - 1];
    var last := services[|services| - 1];
    RoutesSplit(services, deployments);
    var front := Routes(init, deployments).value;
    var more := RoutesFor(last.0, last.1, deployments).value;
    assert Routes(services, deployments).value == front + more;
    if i < |init| {
      assert init[i] == services[i];
      assert SelectorMatches(init[i].1, deployments[j].1) == Some(true);
      RoutesComplete(init, deployments, i, j);
      assert Route(services[i].0, deployments[j].0) in front;
    } else {
      assert i == |services| - 1;
      RoutesForComplete(last.0, last.1, deployments, j);
      assert Route(services[i].0, deployments[j].0) in more;
    }
  }

  /** The inner loop's last step: a matching last Deployment adds its relationship. */
  lemma RoutesForSplit(service: Value, selector: Value, deployments: seq<(Value, Value)>)
    requires |deployments| > 0 && RoutesFor(service, selector, deployments).Some?
    ensures var init := deployments[..|deployments| - 1];
            var last := deployments[|deployments| - 1];
            RoutesFor(service, selector, init).Some? && SelectorMatches(selector, last.1).Some? &&
            RoutesFor(service, selector, deployments).value ==
              RoutesFor(service, selector, init).value + if SelectorMatches(selector, last.1).value then [Route(service, last.0)] else []
  {
  }

  /** The outer loop's last step: the last Service's relationships come after the others'. */
  lemma RoutesSplit(services: seq<(Value, Value)>, deployments: seq<(Value, Value)>)
    requires |services| > 0 && Routes(services, deployments).Some?
    ensures var init := services[..|services| - 1];
            var last := services[|services| - 1];
            Routes(init, deployments).Some? && RoutesFor(last.0, last.1, deployments).Some? &&
            Routes(services, deployments).value == Routes(init, deployments).value + RoutesFor(last.0, last.1, deployments).value
  {
  }

  function EmptyIndex(): (ix: K8sIndex)
    ensures ix.Valid()
  {
    K8sIndex(PyDict.Empty(), PyDict.Empty())
  }

  /**
   * `_extract_k8s_relationships`: the relationships of the Services and
   * Deployments collected from all files.  None when the linking loop,
   * which no `try` guards, raises.
   */
  function K8sRelationships(files: seq<SourceFile>, loadAll: string -> Option<seq<Value>>): Option<seq<Relationship>> {
    var ix := IndexFiles(EmptyIndex(), files, loadAll);
    Routes(ix.services.Items(), ix.deployments.Items())
  }

  /** Every Kubernetes relationship links a collected Service to a collected Deployment. */
  lemma K8sRelationshipShape(files: seq<SourceFile>, loadAll: string -> Option<seq<Value>>, x: Relationship)
    requires K8sRelationships(files, loadAll).Some? && x in K8sRelationships(files, loadAll).value
    ensures x.kind == "routes_to" && x.protocol == "kubernetes"
    ensures var ix := IndexFiles(EmptyIndex(), files, loadAll);
            exists s, d :: s in ix.services.keys && d in ix.deployments.keys &&
                           SelectorMatches(ix.services.vals[s], ix.deployments.vals[d]) == Some(true) &&
                           x == Route(s, d)
  {
    var ix := IndexFiles(EmptyIndex(), files, loadAll);
    IndexRoutesShape(ix, x);
  }

  /** Every Kubernetes relationship is a `routes_to` over kubernetes. */
  lemma K8sKinds(files: seq<SourceFile>, loadAll: string -> Option<seq<Value>>)
    requires K8sRelationships(files, loadAll).Some?
    ensures forall x :: x in K8sRelationships(files, loadAll).value ==> x.kind == "routes_to" && x.protocol == "kubernetes"
  {
    forall x | x in K8sRelationships(files, loadAll).value {
      K8sRelationshipShape(files, loadAll, x);
    }
  }

  /** The relationships of an index link one of its Services to one of its Deployments. */
  lemma IndexRoutesShape(ix: K8sIndex, x: Relationship)
    requires ix.Valid() && Routes(ix.services.Items(), ix.deployments.Items()).Some?
    requires x in Routes(ix.services.Items(), ix.deployments.Items()).value
    ensures exists s, d :: s in ix.services.keys && d in ix.deployments.keys &&
                           SelectorMatches(ix.services.vals[s], ix.deployments.vals[d]) == Some(true) &&
                           x == Route(s, d)
  {
    var ss := ix.services.Items();
    var ds := ix.deployments.Items();
    RoutesSound(ss, ds, x);
    var i, j :| 0 <= i < |ss| && 0 <= j < |ds| && SelectorMatches(ss[i].1, ds[j].1) == Some(true) && x == Route(ss[i].0, ds[j].0);
    var sk, dk := ix.services.keys[i], ix.deployments.keys[j];
    assert ss[i] == (sk, ix.services.vals[sk]) && ds[j] == (dk, ix.deployments.vals[dk]);
    assert SelectorMatches(ix.services.vals[sk], ix.deployments.vals[dk]) == Some(true) && x == Route(sk, dk);
  }

  /** A later Service manifest with the same name replaces the earlier selector. */
  lemma LaterServiceOverwrites(ix: K8sIndex, m1: Value, m2: Value)
    requires Truthy(m1) && Truthy(m2)
    requires Get(m1, "kind", Null) == Some(Str("Service")) && Get(m2, "kind", Null) == Some(Str("Service"))
    requires ManifestName(m1).Some? && ManifestName(m1) == ManifestName(m2)
    requires IndexManifest(ix, m1).Some? && IndexManifest(IndexManifest(ix, m1).value, m2).Some?
    ensures var n := ManifestName(m2).value;
            var after := IndexManifests(ix, [m1, m2]);
            n in after.services.vals && after.services.vals[n] == Selector(m2).value
  {
    var next := IndexManifest(ix, m1).value;
    assert [m1, m2][1..] == [m2];
    assert IndexManifests(next, [m2]) == IndexManifest(next, m2).value by {
      assert [m2][1..] == [];
    }
  }

  /** `_extract_k8s_relationships`, with its two loops. */
  method ExtractK8sRelationships(files: seq<SourceFile>, loadAll: string -> Option<seq<Value>>) returns (r: Option<seq<Relationship>>)
    ensures r == K8sRelationships(files, loadAll)
  {
    var ix := CollectK8s(files, loadAll);
    r := LinkServices(ix.services.Items(), ix.deployments.Items());
  }

  /** The collection loop over the files and their manifests. */
  method CollectK8s(files: seq<SourceFile>, loadAll: string -> Option<seq<Value>>) returns (ix: K8sIndex)
    ensures ix == IndexFiles(EmptyIndex(), files, loadAll) && ix.Valid()
  {
    ix := EmptyIndex();
    var i := 0;
    while i < |files|
      invariant 0 <= i <= |files|
      invariant ix.Valid()
      invariant IndexFiles(ix, files[i..], loadAll) == IndexFiles(EmptyIndex(), files, loadAll)
    {
      assert files[i..][1..] == files[i + 1..];
      var text := files[i].text;
      if text.Some? {
        var ms := loadAll(text.value);
        if ms.Some? {
          ix := CollectManifests(ix, ms.value);
        }
      }
      i := i + 1;
    }
  }

  /** One file's `for manifest in manifests` loop inside its `try`. */
  method CollectManifests(ix0: K8sIndex, ms: seq<Value>) returns (ix: K8sIndex)
    requires ix0.Valid()
    ensures ix == IndexManifests(ix0, ms) && ix.Valid()
  {
    ix := ix0;
    var i := 0;
    while i < |ms|
      invariant 0 <= i <= |ms|
      invariant ix.Valid()
      invariant IndexManifests(ix, ms[i..]) == IndexManifests(ix0, ms)
    {
      assert ms[i..][1..] == ms[i + 1..];
      var next := IndexManifest(ix, ms[i]);
      if next.None? {
        return;
      }
      ix := next.value;
      i := i + 1;
    }
  }

  /** The linking loops: for each Service, each Deployment in order. */
  method LinkServices(services: seq<(Value, Value)>, deployments: seq<(Value, Value)>) returns (r: Option<seq<Relationship>>)
    ensures r == Routes(services, deployments)
  {
    var out: seq<Relationship> := [];
    var i := 0;
    while i < |services|
      invariant 0 <= i <= |services|
      invariant Routes(services[..i], deployments) == Some(out)
    {
      assert services[..i + 1][..i] == services[..i];
      var more := LinkService(services[i].0, services[i].1, deployments);
      if more.None? {
        return None;
      }
      out := out + more.value;
      i := i + 1;
    }
    assert services[..i] == services;
    r := Some(out);
  }

  method LinkService(service: Value, selector: Value, deployments: seq<(Value, Value)>) returns (r: Option<seq<Relationship>>)
    ensures r == RoutesFor(service, selector, deployments)
  {
    var out: seq<Relationship> := [];
    var j := 0;
    while j < |deployments|
      invariant 0 <= j <= |deployments|
      invariant RoutesFor(service, selector, deployments[..j]) == Some(out)
    {
      var m := SelectorMatches(selector, deployments[j].1);
      if m.None? {
        return None;
      }
      RoutesForSnoc(service, selector, deployments, j, out, m.value);
      if m.value {
        out := out + [Route(service, deployments[j].0)];
      } else {
        assert out + [] == out;
      }
      assert RoutesFor(service, selector, deployments[..j + 1]) == Some(out);
      j := j + 1;
    }
    assert deployments[..j] == deployments;
    r := Some(out);
  }

  // ---------------------------------------------------------------- docker-compose

  /** The relationships appended so far, and whether the loop ran to the end without raising. */
  datatype Run = Run(rels: seq<Relationship>, completed: bool)

  /** Relationships appended before the rest of the run. */
  function Prepend(rels: seq<Relationship>, run: Run): Run {
    Run(rels + run.rels, run.completed)
  }

  function DependsOn(service: string, dep: Value): (x: Relationship)
    ensures x.source == service && x.kind == "depends_on" && x.protocol == "docker"
  {
    Relationship(service, Display(dep), "depends_on", "docker", "Service dependency")
  }

  /** `link.split(':')[0]`. */
  function LinkTarget(link: string): string {
    SplitOn(link, ':')[0]
  }

  /** The target of a link is the text before its first ':', or the whole link without one. */
  lemma {:induction false} LinkTargetBeforeColon(link: string)
    ensures ':' in link ==> LinkTarget(link) == SplitAtFirst(link, ':').0
    ensures ':' !in link ==> LinkTarget(link) == link
    decreases |link|
  {
    if |link| > 0 && link[0] != ':' {
      LinkTargetBeforeColon(link[1..]);
      assert link == [link[0]] + link[1..];
      assert LinkTarget(link) == [link[0]] + LinkTarget(link[1..]);
      if ':' in link {
        var k := IndexOf(link[1..], ':').value;
        assert link[..k + 1] == [link[0]] + link[1..][..k];
      }
    }
  }

  function LinkTo(service: string, link: string): (x: Relationship)
    ensures x.source == service && x.kind == "links_to" && x.protocol == "docker"
  {
    Relationship(service, LinkTarget(link), "links_to", "docker", "Network link")
  }

  /** One relationship per `depends_on` entry, in order. */
  function DependsOnAll(service: string, deps: seq<Value>): (r: seq<Relationship>)
    ensures |r| == |deps| && forall k :: 0 <= k < |deps| ==> r[k] == DependsOn(service, deps[k])
    decreases |deps|
  {
    if |deps| == 0 then [] else DependsOnAll(service, deps[..|deps| - 1]) + [DependsOn(service, deps[|deps| - 1])]
  }

  /** The `for link in links` loop: it stops at the first link that is not a string (`split` raises). */
  function LinkRun(service: string, links: seq<Value>): (r: Run)
    ensures |r.rels| <= |links|
    ensures r.completed <==> forall k :: 0 <= k < |links| ==> links[k].Str?
    ensures r.completed ==> |r.rels| == |links|
    ensures !r.completed ==> |r.rels| < |links| && !links[|r.rels|].Str?
    ensures forall k :: 0 <= k < |r.rels| ==> links[k].Str? && r.rels[k] == LinkTo(service, links[k].s)
    decreases |links|
  {
    if |links| == 0 then Run([], true)
    else if !links[0].Str? then Run([], false)
    else
      var rest := LinkRun(service, links[1..]);
      assert forall k :: 1 <= k < |links| ==> links[k] == links[1..][k - 1];
      Prepend([LinkTo(service, links[0].s)], rest)
  }

  /**
   * One service of the compose file: one relationship per `depends_on` entry, then one per link
   * up to the first link that is not a string. The loop raises when the configuration is not a
   * dictionary, or `depends_on` or `links` cannot be iterated.
   */
  function ServiceRun(service: string, config: Value): (r: Run)
    ensures !config.Obj? ==> r == Run([], false)
    ensures config.Obj? && Iter(Get(config, "depends_on", List([])).value).Some? ==>
              var deps := Iter(Get(config, "depends_on", List([])).value).value;
              |r.rels| >= |deps| && r.rels[..|deps|] == DependsOnAll(service, deps)
  {
    if !config.Obj? then Run([], false)
    else
      match Iter(Get(config, "depends_on", List([])).value)
      case None => Run([], false)
      case Some(deps) =>
        var rels := DependsOnAll(service, deps);
        match Iter(Get(config, "links", List([])).value)
        case None => Run(rels, false)
        case Some(links) => Prepend(rels, LinkRun(service, links))
  }

  /**
   * A service raises unless its configuration is a dictionary whose `depends_on` and `links`
   * can be iterated; its relationships are its dependencies, then its links up to the first
   * that is not a string.
   */
  lemma ServiceRunParts(service: string, config: Value)
    ensures config.Obj? && Iter(Get(config, "depends_on", List([])).value).None? ==>
              ServiceRun(service, config) == Run([], false)
    ensures config.Obj? && Iter(Get(config, "depends_on", List([])).value).Some? ==>
              var r := ServiceRun(service, config);
              var deps := Iter(Get(config, "depends_on", List([])).value).value;
              var links := Iter(Get(config, "links", List([])).value);
              && (links.None? ==> r == Run(DependsOnAll(service, deps), false))
              && (links.Some? ==> r.rels == DependsOnAll(service, deps) + LinkRun(service, links.value).rels
                                  && r.completed == LinkRun(service, links.value).completed)
    ensures ServiceRun(service, config).completed ==>
              config.Obj? && Iter(Get(config, "depends_on", List([])).value).Some?
              && Iter(Get(config, "links", List([])).value).Some?
  {
  }

  /** The position of the first service whose loop raises, or the number of services when none does. */
  function FirstRaise(entries: Fields): (j: nat)
    ensures j <= |entries|
    decreases |entries|
  {
    if |entries| == 0 then 0
    else if !ServiceRun(entries[0].0, entries[0].1).completed then 0
    else 1 + FirstRaise(entries[1..])
  }

  /** Every service before `FirstRaise` completes, and the service at it raises. */
  lemma {:induction false} FirstRaiseMeaning(entries: Fields)
    ensures forall k :: 0 <= k < FirstRaise(entries) ==> ServiceRun(entries[k].0, entries[k].1).completed
    ensures FirstRaise(entries) < |entries| ==>
              !ServiceRun(entries[FirstRaise(entries)].0, entries[FirstRaise(entries)].1).completed
    decreases |entries|
  {
    if |entries| > 0 && ServiceRun(entries[0].0, entries[0].1).completed {
      var tail := entries[1..];
      FirstRaiseMeaning(tail);
      var j := FirstRaise(entries);
      forall k | 1 <= k < j
        ensures ServiceRun(entries[k].0, entries[k].1).completed
      {
        assert entries[k] == tail[k - 1];
      }
      assert j < |entries| ==> entries[j] == tail[j - 1];
    }
  }

  /** The relationships of every service in turn, as if none raised. */
  function ServiceRels(entries: Fields): seq<Relationship>
    decreases |entries|
  {
    if |entries| == 0 then [] else ServiceRun(entries[0].0, entries[0].1).rels + ServiceRels(entries[1..])
  }

  /**
   * The loop over `services.items()`: it completes exactly when no service raises, and keeps the
   * relationships of the services before the first that raises, then those that service appended.
   */
  function ServicesRun(entries: Fields): (r: Run)
    ensures r.completed <==> FirstRaise(entries) == |entries|
    ensures var j := FirstRaise(entries);
            r.rels == ServiceRels(entries[..j]) +
                      (if j < |entries| then ServiceRun(entries[j].0, entries[j].1).rels else [])
    decreases |entries|
  {
    if |entries| == 0 then Run([], true)
    else
      var first := ServiceRun(entries[0].0, entries[0].1);
      if !first.completed then
        assert entries[..0] == [];
        first
      else
        ServicesStep(entries);
        Prepend(first.rels, ServicesRun(entries[1..]))
  }

  /** The relationships kept up to the first raise, for services whose first does not raise. */
  lemma ServicesStep(entries: Fields)
    requires |entries| > 0 && ServiceRun(entries[0].0, entries[0].1).completed
    ensures FirstRaise(entries) == 1 + FirstRaise(entries[1..])
    ensures var j := FirstRaise(entries);
            var tail := entries[1..];
            var k := FirstRaise(tail);
            ServiceRels(entries[..j]) + (if j < |entries| then ServiceRun(entries[j].0, entries[j].1).rels else []) ==
            ServiceRun(entries[0].0, entries[0].1).rels +
            (ServiceRels(tail[..k]) + (if k < |tail| then ServiceRun(tail[k].0, tail[k].1).rels else []))
  {
    var tail := entries[1..];
    var j := FirstRaise(entries);
    var k := FirstRaise(tail);
    assert j == 1 + k;
    assert ServiceRels(entries[..j]) == ServiceRun(entries[0].0, entries[0].1).rels + ServiceRels(tail[..k]) by {
      SliceTail(entries, j);
    }
    assert j < |entries| ==> entries[j] == tail[k] by {
      SliceTail(entries, j);
    }
    var part := if k < |tail| then ServiceRun(tail[k].0, tail[k].1).rels else [];
    AppendAssoc(ServiceRun(entries[0].0, entries[0].1).rels, ServiceRels(tail[..k]), part);
  }

  /** The first `j` entries without their head are the first `j - 1` entries of the tail. */
  lemma SliceTail<T>(s: seq<T>, j: nat)
    requires 1 <= j <= |s|
    ensures s[..j][1..] == s[1..][..j - 1]
    ensures j < |s| ==> s[j] == s[1..][j - 1]
  {
  }

  /** `yaml.safe_load`: None for an empty stream, the document itself, or a raise for several. */
  function SingleDocument(docs: seq<Value>): Option<Value> {
    if |docs| == 0 then Some(Null) else if |docs| == 1 then Some(docs[0]) else None
  }

  /**
   * The `services` entries of a compose file; None when the file is not a compose file, or when
   * opening, loading or `compose.get('services', {})` raises, or the services cannot be iterated
   * as items.
   */
  function ServiceEntries(f: SourceFile, loadAll: string -> Option<seq<Value>>): (r: Option<Fields>)
    ensures r.Some? ==> Contains(f.name, "docker-compose") && f.text.Some?
    ensures f.text.Some? && loadAll(f.text.value).Some? && |loadAll(f.text.value).value| == 0 ==> r.None?
  {
    if !Contains(f.name, "docker-compose") || f.text.None? then None
    else
      var docs :- loadAll(f.text.value);
      var compose :- SingleDocument(docs);
      var services :- Get(compose, "services", Obj([]));
      if !services.Obj? then None else Some(services.fields)
  }

  /**
   * The relationships one compose file contributes: nothing when it is skipped or raises before
   * its loop, and otherwise those of its services before the first that raises, then those that
   * service appended before it raised.
   */
  function ComposeFileRelationships(f: SourceFile, loadAll: string -> Option<seq<Value>>): (r: seq<Relationship>)
    ensures !Contains(f.name, "docker-compose") ==> r == []
    ensures ServiceEntries(f, loadAll).None? ==> r == []
    ensures ServiceEntries(f, loadAll).Some? ==>
              var entries := ServiceEntries(f, loadAll).value;
              var j := FirstRaise(entries);
              r == ServiceRels(entries[..j]) +
                   (if j < |entries| then ServiceRun(entries[j].0, entries[j].1).rels else [])
    ensures forall x :: x in r ==> ComposeKind(x)
  {
    match ServiceEntries(f, loadAll)
    case None => []
    case Some(entries) =>
      var run := ServicesRun(entries);
      RunKinds(entries);
      run.rels
  }

  /** A docker `depends_on` or `links_to` relationship. */
  predicate ComposeKind(x: Relationship) {
    x.protocol == "docker" && (x.kind == "depends_on" || x.kind == "links_to")
  }

  /** One service's relationships are docker `depends_on` or `links_to` ones. */
  lemma ServiceRunKinds(service: string, config: Value)
    ensures forall x :: x in ServiceRun(service, config).rels ==> ComposeKind(x)
  {
    if config.Obj? {
      match Iter(Get(config, "depends_on", List([])).value)
      case None =>
      case Some(deps) =>
        var rels := DependsOnAll(service, deps);
        assert forall x :: x in rels ==> ComposeKind(x);
        match Iter(Get(config, "links", List([])).value)
        case None =>
        case Some(links) =>
          var run := LinkRun(service, links);
          assert forall x :: x in run.rels ==> ComposeKind(x);
          assert ServiceRun(service, config).rels == rels + run.rels;
    }
  }

  /** Every compose relationship is a docker `depends_on` or `links_to` one. */
  lemma {:induction false} RunKinds(entries: Fields)
    ensures forall x :: x in ServicesRun(entries).rels ==> ComposeKind(x)
    decreases |entries|
  {
    if |entries| > 0 {
      ServiceRunKinds(entries[0].0, entries[0].1);
      RunKinds(entries[1..]);
    }
  }

  /** `_extract_docker_compose_relationships`, as a function of the files. */
  function ComposeRelationships(files: seq<SourceFile>, loadAll: string -> Option<seq<Value>>): (r: seq<Relationship>)
    ensures forall x :: x in r ==> ComposeKind(x)
    ensures (forall i :: 0 <= i < |files| ==> !Contains(files[i].name, "docker-compose")) ==> r == []
    decreases |files|
  {
    if |files| == 0 then []
    else ComposeRelationships(files[..|files| - 1], loadAll) + ComposeFileRelationships(files[|files| - 1], loadAll)
  }

  /** A link that is not a string ends the file, but the dependencies appended before it are kept. */
  lemma BadLinkKeepsDependencies(service: string, dep: string)
    ensures var config := Obj([("depends_on", List([Str(dep)])), ("links", List([Int(5)]))]);
            ServiceRun(service, config) == Run([DependsOn(service, Str(dep))], false)
  {
    var config := Obj([("depends_on", List([Str(dep)])), ("links", List([Int(5)]))]);
    assert Lookup(config.fields, "depends_on") == Some(List([Str(dep)]));
    assert "links" != "depends_on";
    assert Lookup(config.fields, "links") == Some(List([Int(5)]));
    assert DependsOnAll(service, [Str(dep)]) == [DependsOn(service, Str(dep))];
  }

  /** The compose relationships of the first `i + 1` files: those of the first `i`, then file `i`'s. */
  lemma ComposeStep(files: seq<SourceFile>, loadAll: string -> Option<seq<Value>>, i: nat)
    requires i < |files|
    ensures ComposeRelationships(files[..i + 1], loadAll) ==
            ComposeRelationships(files[..i], loadAll) + ComposeFileRelationships(files[i], loadAll)
  {
    assert files[..i + 1][..i] == files[..i];
    assert files[..i + 1][i] == files[i];
  }

  /** `_extract_docker_compose_relationships`, with its loops over files, services, dependencies and links. */
  method ExtractDockerComposeRelationships(files: seq<SourceFile>, loadAll: string -> Option<seq<Value>>)
    returns (r: seq<Relationship>)
    ensures r == ComposeRelationships(files, loadAll)
  {
    r := [];
    var i := 0;
    while i < |files|
      invariant 0 <= i <= |files|
      invariant r == ComposeRelationships(files[..i], loadAll)
    {
      ComposeStep(files, loadAll, i);
      var more := ComposeFile(files[i], loadAll);
      r := r + more;
      i := i + 1;
    }
    assert files[..i] == files;
  }

  /** One file of the compose loop, with its `try`. */
  method ComposeFile(f: SourceFile, loadAll: string -> Option<seq<Value>>) returns (r: seq<Relationship>)
    ensures r == ComposeFileRelationships(f, loadAll)
  {
    if !Contains(f.name, "docker-compose") || f.text.None? {
      return [];
    }
    var docs := loadAll(f.text.value);
    if docs.None? {
      return [];
    }
    var compose := SingleDocument(docs.value);
    if compose.None? {
      return [];
    }
    var services := Get(compose.value, "services", Obj([]));
    if services.None? || !services.value.Obj? {
      return [];
    }
    var run := ComposeServices(services.value.fields);
    r := run.rels;
  }

  method ComposeServices(entries: Fields) returns (r: Run)
    ensures r == ServicesRun(entries)
  {
    var rels: seq<Relationship> := [];
    var i := 0;
    while i < |entries|
      invariant 0 <= i <= |entries|
      invariant ServicesRun(entries) == Prepend(rels, ServicesRun(entries[i..]))
    {
      assert entries[i..][1..] == entries[i + 1..];
      var run := ComposeService(entries[i].0, entries[i].1);
      if !run.completed {
        return Run(rels + run.rels, false);
      }
      AppendAssoc(rels, run.rels, ServicesRun(entries[i + 1..]).rels);
      rels := rels + run.rels;
      i := i + 1;
    }
    return Run(rels, true);
  }

  method ComposeService(service: string, config: Value) returns (r: Run)
    ensures r == ServiceRun(service, config)
  {
    if !config.Obj? {
      return Run([], false);
    }
    var deps := Iter(Get(config, "depends_on", List([])).value);
    if deps.None? {
      return Run([], false);
    }
    var rels: seq<Relationship> := [];
    var j := 0;
    while j < |deps.value|
      invariant 0 <= j <= |deps.value|
      invariant rels == DependsOnAll(service, deps.value[..j])
    {
      assert deps.value[..j + 1][..j] == deps.value[..j];
      rels := rels + [DependsOn(service, deps.value[j])];
      j := j + 1;
    }
    assert deps.value[..j] == deps.value;
    var links := Iter(Get(config, "links", List([])).value);
    if links.None? {
      return Run(rels, false);
    }
    var run := CollectLinks(service, links.value);
    r := Prepend(rels, run);
  }

  /** The link run from link `k` on: it stops at a non-string, else that link's relationship comes first. */
  lemma LinkRunFrom(service: string, links: seq<Value>, k: nat)
    requires k < |links|
    ensures !links[k].Str? ==> LinkRun(service, links[k..]) == Run([], false)
    ensures links[k].Str? ==>
              LinkRun(service, links[k..]) == Prepend([LinkTo(service, links[k].s)], LinkRun(service, links[k + 1..]))
  {
    assert links[k..][0] == links[k] && links[k..][1..] == links[k + 1..];
  }

  method CollectLinks(service: string, links: seq<Value>) returns (r: Run)
    ensures r == LinkRun(service, links)
  {
    var rels: seq<Relationship> := [];
    var k := 0;
    while k < |links|
      invariant 0 <= k <= |links|
      invariant LinkRun(service, links) == Prepend(rels, LinkRun(service, links[k..]))
    {
      LinkRunFrom(service, links, k);
      if !links[k].Str? {
        return Run(rels, false);
      }
      AppendAssoc(rels, [LinkTo(service, links[k].s)], LinkRun(service, links[k + 1..]).rels);
      rels := rels + [LinkTo(service, links[k].s)];
      k := k + 1;
    }
    return Run(rels, true);
  }

  // ---------------------------------------------------------------- all relationships

  /**
   * `_extract_relationships`: the dependencies of at most the first ten
   * Python files, then the Kubernetes relationships, then the compose ones.
   */
  function AllRelationships(s: Structure, loadAll: string -> Option<seq<Value>>,
                            pyDeps: SourceFile -> Option<seq<Relationship>>): (r: Option<seq<Relationship>>)
    ensures r.Some? <==> K8sRelationships(s.kubernetesFiles, loadAll).Some?
    ensures r.Some? ==> forall x :: x in r.value ==>
      || (exists i :: 0 <= i < |FirstTen(PythonFiles(s))| && pyDeps(FirstTen(PythonFiles(s))[i]).Some?
                      && x in pyDeps(FirstTen(PythonFiles(s))[i]).value)
      || (x.kind == "routes_to" && x.protocol == "kubernetes")
      || ComposeKind(x)
  {
    var k8s :- K8sRelationships(s.kubernetesFiles, loadAll);
    K8sKinds(s.kubernetesFiles, loadAll);
    Some(Gather(FirstTen(PythonFiles(s)), pyDeps) + k8s + ComposeRelationships(s.dockerFiles, loadAll))
  }

  method ExtractRelationships(s: Structure, loadAll: string -> Option<seq<Value>>,
                              pyDeps: SourceFile -> Option<seq<Relationship>>) returns (r: Option<seq<Relationship>>)
    ensures r == AllRelationships(s, loadAll, pyDeps)
  {
    var py := MinePythonFiles(PythonFiles(s), pyDeps);
    var k8s := ExtractK8sRelationships(s.kubernetesFiles, loadAll);
    if k8s.None? {
      return None;
    }
    var compose := ExtractDockerComposeRelationships(s.dockerFiles, loadAll);
    r := Some(py + k8s.value + compose);
  }

  /** The `extract_dependencies` loop over `files[:10]`. */
  method MinePythonFiles(files: seq<SourceFile>, pyDeps: SourceFile -> Option<seq<Relationship>>) returns (r: seq<Relationship>)
    ensures r == Gather(FirstTen(files), pyDeps)
  {
    var limited := FirstTen(files);
    r := [];
    var i := 0;
    while i < |limited|
      invariant 0 <= i <= |limited|
      invariant r == Gather(limited[..i], pyDeps)
    {
      GatherSnoc(limited, pyDeps, i);
      var rels := pyDeps(limited[i]);
      if rels.Some? {
        r := r + rels.value;
      }
      i := i + 1;
    }
    assert limited[..i] == limited;
  }

  /**
   * `PythonASTParser.extract_dependencies` as written: `_find_http_calls`
   * and `_find_grpc_calls` return [], so the relationships are the
   * Kubernetes and compose ones alone.
   */
  lemma StubPythonDeps(s: Structure, loadAll: string -> Option<seq<Value>>,
                       pyDeps: SourceFile -> Option<seq<Relationship>>)
    requires forall f :: Contribution(pyDeps(f)) == []
    ensures AllRelationships(s, loadAll, pyDeps).Some? <==> K8sRelationships(s.kubernetesFiles, loadAll).Some?
    ensures AllRelationships(s, loadAll, pyDeps).Some? ==>
      AllRelationships(s, loadAll, pyDeps).value
        == K8sRelationships(s.kubernetesFiles, loadAll).value + ComposeRelationships(s.dockerFiles, loadAll)
  {
    GatherNothing(FirstTen(PythonFiles(s)), pyDeps);
    NoPythonRelationships(s, loadAll, pyDeps);
  }

  /** With no Python dependencies, the relationships are the Kubernetes ones followed by the compose ones. */
  lemma NoPythonRelationships(s: Structure, loadAll: string -> Option<seq<Value>>,
                              pyDeps: SourceFile -> Option<seq<Relationship>>)
    requires Gather(FirstTen(PythonFiles(s)), pyDeps) == []
    ensures AllRelationships(s, loadAll, pyDeps).Some? ==>
      AllRelationships(s, loadAll, pyDeps).value
        == K8sRelationships(s.kubernetesFiles, loadAll).value + ComposeRelationships(s.dockerFiles, loadAll)
  {
    var k := K8sRelationships(s.kubernetesFiles, loadAll);
    if k.Some? {
      var py := Gather(FirstTen(PythonFiles(s)), pyDeps);
      var compose := ComposeRelationships(s.dockerFiles, loadAll);
      assert AllRelationships(s, loadAll, pyDeps) == Some(py + k.value + compose);
      EmptyThen(py, k.value, compose);
    }
  }

  /** An empty first part of a concatenation drops out. */
  lemma EmptyThen<T>(py: seq<T>, a: seq<T>, b: seq<T>)
    requires py == []
    ensures py + a + b == a + b
  {
  }

  // ---------------------------------------------------------------- knowledge graph

  /** The name and node `add_component` stores for each component that has a semantic context. */
  function ContextItems(cs: seq<Component>, contexts: map<string, KnowledgeGraph.SemanticContext>)
    : (r: seq<(string, KnowledgeGraph.GraphNode)>)
    ensures |r| <= |cs|
    decreases |cs|
  {
    if |cs| == 0 then []
    else
      (if cs[0].name in contexts then [(cs[0].name, KnowledgeGraph.NodeOf(cs[0], contexts[cs[0].name]))] else [])
        + ContextItems(cs[1..], contexts)
  }

  /** The names stored are exactly the names of the components that have a context. */
  lemma {:induction false} ContextNames(cs: seq<Component>, contexts: map<string, KnowledgeGraph.SemanticContext>)
    ensures KnowledgeGraph.NameSet(ContextItems(cs, contexts)) == set c | c in cs && c.name in contexts :: c.name
    decreases |cs|
  {
    if |cs| > 0 {
      var here := if cs[0].name in contexts then [(cs[0].name, KnowledgeGraph.NodeOf(cs[0], contexts[cs[0].name]))] else [];
      ContextNames(cs[1..], contexts);
      NameSetAppend(here, ContextItems(cs[1..], contexts));
      assert forall c :: c in cs <==> c == cs[0] || c in cs[1..];
      assert (set c | c in cs && c.name in contexts :: c.name) ==
             (if cs[0].name in contexts then {cs[0].name} else {}) + (set c | c in cs[1..] && c.name in contexts :: c.name);
    }
  }

  /** One step of the `add_component` loop on the node map. */
  lemma ContextItemsStep(d: Dict<string, KnowledgeGraph.GraphNode>, cs: seq<Component>,
                         contexts: map<string, KnowledgeGraph.SemanticContext>)
    requires |cs| > 0
    ensures KnowledgeGraph.PutAll(d, ContextItems(cs, contexts)) ==
              KnowledgeGraph.PutAll(if cs[0].name in contexts then d.Put(cs[0].name, KnowledgeGraph.NodeOf(cs[0], contexts[cs[0].name])) else d,
                                    ContextItems(cs[1..], contexts))
  {
    var rest := ContextItems(cs[1..], contexts);
    if cs[0].name in contexts {
      var items := [(cs[0].name, KnowledgeGraph.NodeOf(cs[0], contexts[cs[0].name]))] + rest;
      assert items[1..] == rest;
    } else {
      assert [] + rest == rest;
    }
  }

  lemma {:induction false} NameSetAppend(a: seq<(string, KnowledgeGraph.GraphNode)>, b: seq<(string, KnowledgeGraph.GraphNode)>)
    ensures KnowledgeGraph.NameSet(a + b) == KnowledgeGraph.NameSet(a) + KnowledgeGraph.NameSet(b)
    decreases |a|
  {
    if |a| > 0 {
      assert (a + b)[0] == a[0];
      assert (a + b)[1..] == a[1..] + b;
      NameSetAppend(a[1..], b);
    } else {
      assert a + b == b;
    }
  }

  /** The graph after `add_component` for each component that has a semantic context. */
  function WithComponentNodes(g: DiGraph.Graph, cs: seq<Component>, contexts: map<string, KnowledgeGraph.SemanticContext>)
    : (r: DiGraph.Graph)
    requires g.Valid()
    ensures r.Valid()
    decreases |cs|
  {
    if |cs| == 0 then g
    else
      var next := if cs[0].name in contexts then g.AddNode(cs[0].name, KnowledgeGraph.NodeAttrs(cs[0], contexts[cs[0].name])) else g;
      WithComponentNodes(next, cs[1..], contexts)
  }

  /** The graph after `add_relationship` for each enriched relationship. */
  function WithRelationshipEdges(g: DiGraph.Graph, rels: seq<(Relationship, Fields)>): (r: DiGraph.Graph)
    requires g.Valid()
    ensures r.Valid()
    decreases |rels|
  {
    if |rels| == 0 then g
    else
      var x := rels[0].0;
      WithRelationshipEdges(g.AddEdge(x.source, x.target, DiGraph.AttrsOf(KnowledgeGraph.EdgeProperties(x, rels[0].1))), rels[1..])
  }

  /** `add_relationship` removes no node. */
  lemma {:induction false} EdgesKeepNodes(g: DiGraph.Graph, rels: seq<(Relationship, Fields)>, n: string)
    requires g.Valid() && g.HasNode(n)
    ensures WithRelationshipEdges(g, rels).HasNode(n)
    decreases |rels|
  {
    if |rels| > 0 {
      var x := rels[0].0;
      EdgesKeepNodes(g.AddEdge(x.source, x.target, DiGraph.AttrsOf(KnowledgeGraph.EdgeProperties(x, rels[0].1))), rels[1..], n);
    }
  }

  /** Both endpoints of every enriched relationship become graph nodes, whether or not a component was added for them. */
  lemma {:induction false} EdgesTouchEndpoints(g: DiGraph.Graph, rels: seq<(Relationship, Fields)>, k: nat)
    requires g.Valid() && k < |rels|
    ensures WithRelationshipEdges(g, rels).HasNode(rels[k].0.source)
    ensures WithRelationshipEdges(g, rels).HasNode(rels[k].0.target)
    decreases k
  {
    var x := rels[0].0;
    var next := g.AddEdge(x.source, x.target, DiGraph.AttrsOf(KnowledgeGraph.EdgeProperties(x, rels[0].1)));
    assert WithRelationshipEdges(g, rels) == WithRelationshipEdges(next, rels[1..]);
    if k == 0 {
      assert next.HasNode(x.source) && next.HasNode(x.target);
      EdgesKeepNodes(next, rels[1..], x.source);
      EdgesKeepNodes(next, rels[1..], x.target);
    } else {
      var rest := rels[1..];
      assert rest[k - 1].0 == rels[k].0;
      EdgesTouchEndpoints(next, rest, k - 1);
    }
  }

  /** The edge-list entries `add_relationship` appends, one per enriched relationship. */
  function EdgeEntries(rels: seq<(Relationship, Fields)>): (r: seq<KnowledgeGraph.GraphEdge>)
    ensures |r| == |rels|
    decreases |rels|
  {
    if |rels| == 0 then [] else [KnowledgeGraph.EdgeOf(rels[0].0, rels[0].1)] + EdgeEntries(rels[1..])
  }

  /** The k-th entry appended is the k-th relationship's edge, duplicates included. */
  lemma {:induction false} EdgeEntriesAt(rels: seq<(Relationship, Fields)>, k: nat)
    requires k < |rels|
    ensures EdgeEntries(rels)[k] == KnowledgeGraph.EdgeOf(rels[k].0, rels[k].1)
    decreases k
  {
    if k > 0 {
      EdgeEntriesAt(rels[1..], k - 1);
    }
  }

  /**
   * `_build_knowledge_graph`: a node for each component that has a
   * semantic context, then an edge for each enriched relationship.  The
   * plain relationship list is not read.
   */
  method BuildKnowledgeGraph(kg: KnowledgeGraph.KnowledgeGraphBuilder, components: seq<Component>,
                             contexts: map<string, KnowledgeGraph.SemanticContext>,
                             semanticRelationships: seq<(Relationship, Fields)>)
    modifies kg
    requires kg.Valid()
    ensures kg.Valid()
    ensures kg.nodes == KnowledgeGraph.PutAll(old(kg.nodes), ContextItems(components, contexts))
    ensures kg.graph == WithRelationshipEdges(WithComponentNodes(old(kg.graph), components, contexts), semanticRelationships)
    ensures kg.edges == old(kg.edges) + EdgeEntries(semanticRelationships)
  {
    AddComponents(kg, components, contexts);
    AddRelationships(kg, semanticRelationships);
  }

  method AddComponents(kg: KnowledgeGraph.KnowledgeGraphBuilder, components: seq<Component>,
                       contexts: map<string, KnowledgeGraph.SemanticContext>)
    modifies kg
    requires kg.Valid()
    ensures kg.Valid()
    ensures kg.nodes == KnowledgeGraph.PutAll(old(kg.nodes), ContextItems(components, contexts))
    ensures kg.graph == WithComponentNodes(old(kg.graph), components, contexts)
    ensures kg.edges == old(kg.edges)
  {
    var i := 0;
    while i < |components|
      invariant 0 <= i <= |components|
      invariant kg.Valid()
      invariant KnowledgeGraph.PutAll(kg.nodes, ContextItems(components[i..], contexts))
                == KnowledgeGraph.PutAll(old(kg.nodes), ContextItems(components, contexts))
      invariant WithComponentNodes(kg.graph, components[i..], contexts) == WithComponentNodes(old(kg.graph), components, contexts)
      invariant kg.edges == old(kg.edges)
    {
      var c := components[i];
      assert components[i..][1..] == components[i + 1..];
      ContextItemsStep(kg.nodes, components[i..], contexts);
      if c.name in contexts {
        kg.AddComponent(c, contexts[c.name]);
      }
      i := i + 1;
    }
  }

  method AddRelationships(kg: KnowledgeGraph.KnowledgeGraphBuilder, rels: seq<(Relationship, Fields)>)
    modifies kg
    requires kg.Valid()
    ensures kg.Valid()
    ensures kg.nodes == old(kg.nodes)
    ensures kg.graph == WithRelationshipEdges(old(kg.graph), rels)
    ensures kg.edges == old(kg.edges) + EdgeEntries(rels)
  {
    var i := 0;
    while i < |rels|
      invariant 0 <= i <= |rels|
      invariant kg.Valid()
      invariant WithRelationshipEdges(kg.graph, rels[i..]) == WithRelationshipEdges(old(kg.graph), rels)
      invariant kg.edges + EdgeEntries(rels[i..]) == old(kg.edges) + EdgeEntries(rels)
      invariant kg.nodes == old(kg.nodes)
    {
      assert rels[i..][1..] == rels[i + 1..];
      AppendAssoc(kg.edges, [KnowledgeGraph.EdgeOf(rels[i].0, rels[i].1)], EdgeEntries(rels[i + 1..]));
      kg.AddRelationship(rels[i].0, rels[i].1);
      i := i + 1;
    }
    assert kg.edges + [] == kg.edges;
  }

  /**
   * A component without a semantic context adds no node: a name not in
   * the node map before is there afterwards exactly when some component
   * with that name has a context.
   */
  lemma ContextlessNotAdded(d: Dict<string, KnowledgeGraph.GraphNode>, components: seq<Component>,
                            contexts: map<string, KnowledgeGraph.SemanticContext>, name: string)
    requires d.Valid() && name !in d.keys
    ensures name in KnowledgeGraph.PutAll(d, ContextItems(components, contexts)).keys <==>
              exists c :: c in components && c.name == name && name in contexts
  {
    KnowledgeGraph.PutAllMembers(d, ContextItems(components, contexts));
    ContextNames(components, contexts);
    var names := set k | k in KnowledgeGraph.PutAll(d, ContextItems(components, contexts)).keys;
    assert name in KnowledgeGraph.PutAll(d, ContextItems(components, contexts)).keys <==> name in names;
  }
}
