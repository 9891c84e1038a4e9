/**
 * `SemanticAnalyzer` (src/analyzer/semantic_analyzer.py): containers from
 * Dockerfiles and compose files, components from parsed source files,
 * the file-to-container match, the dependency graph with its
 * `depends_on`, `deployed_in` and `imports` edges, and the counts of the
 * insights.  File contents and parser results are parameters; the graph
 * is a field of the analyzer that its methods update.
 */
module SemanticAnalysis {
  import opened Wrappers
  import opened Strings
  import opened Values
  import opened PyDict
  import opened Paths
  import opened DockerParser
  import opened DiGraph
  import opened LlmEngine

  // ---------------------------------------------------------------- containers

  /**
   * A file of `docker_files`: its text when read as a Dockerfile and its
   * loaded YAML when read as a compose file, None when unreadable.
   */
  datatype DockerFile = DockerFile(path: Path, text: Option<string>, document: Option<Value>)

  /** Where a container came from, with the entries only that origin sets. */
  datatype Origin =
    | FromDockerfile(technology: Value, sourcePath: string)
    | FromCompose(image: Value, dependsOn: seq<string>, environment: Dict<string, string>)

  /**
   * One entry of `containers`: the dictionary `_analyze_docker` builds, with
   * 'type' always 'container'.
   */
  datatype Container = Container(id: string, name: string, ports: seq<string>, origin: Origin) {

    /** `container.get('source_path')`. */
    function SourcePath(): Option<string> {
      if origin.FromDockerfile? then Some(origin.sourcePath) else None
    }

    /** `container.get('depends_on', [])`. */
    function DependsOn(): seq<string> {
      if origin.FromCompose? then origin.dependsOn else []
    }

    /** The dictionary itself, in the source's key order. */
    function ToValue(): Value {
      match origin
      case FromDockerfile(technology, sourcePath) =>
        Obj([("id", Str(id)), ("name", Str(name)), ("type", Str("container")),
             ("technology", technology), ("ports", StrList(ports)), ("source_path", Str(sourcePath))])
      case FromCompose(image, dependsOn, environment) =>
        Obj([("id", Str(id)), ("name", Str(name)), ("type", Str("container")),
             ("image", image), ("ports", StrList(ports)), ("depends_on", StrList(dependsOn)),
             ("environment", EnvValue(environment))])
    }
  }

  /** A compose environment as a mapping value. */
  function EnvValue(env: Dict<string, string>): Value {
    Obj(seq(|env.keys|, i requires 0 <= i < |env.keys| =>
      (env.keys[i], if env.keys[i] in env.vals then Str(env.vals[env.keys[i]]) else Null)))
  }

  /** The container of a Dockerfile, named after its directory; `info` None is the `{}` of an unreadable file. */
  function DockerfileContainer(path: Path, info: Option<DockerfileInfo>): (r: Container)
    ensures r.id == "container_" + path.Parent().Name() && r.name == path.Parent().Name()
    ensures r.SourcePath() == Some(path.Parent().Str())
    // 'technology' is the parse's base image: '' for an unreadable file, None when no FROM was seen
    ensures r.origin.FromDockerfile? && r.origin.technology ==
      (if info.None? then Str("") else if info.value.baseImage.Some? then Str(info.value.baseImage.value) else Null)
    // 'ports' is the parse's exposed ports, [] for an unreadable file
    ensures r.ports == (if info.None? then [] else info.value.exposedPorts)
  {
    var name := path.Parent().Name();
    var technology := match info
      case None => Str("")
      case Some(i) => (match i.baseImage case Some(b) => Str(b) case None => Null);
    var ports := match info
      case None => []
      case Some(i) => i.exposedPorts;
    Container("container_" + name, name, ports, FromDockerfile(technology, path.Parent().Str()))
  }

  /** The container of one compose service: no `source_path`. */
  function ComposeContainer(name: string, svc: DockerService): (r: Container)
    ensures r.id == "container_" + name && r.name == name
    ensures r.SourcePath().None? && r.DependsOn() == svc.dependsOn
  {
    Container("container_" + name, name, svc.ports, FromCompose(svc.image, svc.dependsOn, svc.environment))
  }

  function ServiceContainers(items: seq<(string, DockerService)>): (r: seq<Container>)
    ensures |r| == |items|
    ensures forall i :: 0 <= i < |items| ==> r[i] == ComposeContainer(items[i].0, items[i].1)
  {
    seq(|items|, i requires 0 <= i < |items| => ComposeContainer(items[i].0, items[i].1))
  }

  /** The containers one file contributes; None when parsing the compose file raises. */
  function FileContainers(f: DockerFile): (r: Option<seq<Container>>)
    ensures f.path.Name() == "Dockerfile" ==> r == Some([DockerfileContainer(f.path, DockerfileOf(f.text))])
    ensures f.path.Name() != "Dockerfile" && !Contains(f.path.Name(), "docker-compose") ==> r == Some([])
  {
    if f.path.Name() == "Dockerfile" then Some([DockerfileContainer(f.path, DockerfileOf(f.text))])
    else if Contains(f.path.Name(), "docker-compose") then
      match ComposeOf(f.document)
      case None => None
      case Some(d) => Some(ServiceContainers(d.Items()))
    else Some([])
  }

  /** `_analyze_docker` on the files in order. */
  function ContainersOf(files: seq<DockerFile>): Option<seq<Container>>
    decreases |files|
  {
    if |files| == 0 then Some([])
    else
      match FileContainers(files[0])
      case None => None
      case Some(head) =>
        match ContainersOf(files[1..])
        case None => None
        case Some(rest) => Some(head + rest)
  }

  /** `out` in front of a result that may be missing. */
  function Prepend(out: seq<Container>, o: Option<seq<Container>>): Option<seq<Container>> {
    if o.None? then None else Some(out + o.value)
  }

  lemma ContainersOfStep(files: seq<DockerFile>)
    requires |files| > 0
    ensures FileContainers(files[0]).None? ==> ContainersOf(files).None?
    ensures FileContainers(files[0]).Some? ==>
              ContainersOf(files) == Prepend(FileContainers(files[0]).value, ContainersOf(files[1..]))
  {
  }

  lemma PrependPrepend(a: seq<Container>, b: seq<Container>, o: Option<seq<Container>>)
    ensures Prepend(a, Prepend(b, o)) == Prepend(a + b, o)
  {
    if o.Some? {
      AppendAssoc(a, b, o.value);
    }
  }

  /** The loop's step at index `i`: the file's containers join the others, or the loop raises. */
  lemma ContainersOfAt(files: seq<DockerFile>, i: nat, out: seq<Container>)
    requires i < |files| && ContainersOf(files) == Prepend(out, ContainersOf(files[i..]))
    ensures FileContainers(files[i]).None? ==> ContainersOf(files).None?
    ensures FileContainers(files[i]).Some? ==>
              ContainersOf(files) == Prepend(out + FileContainers(files[i]).value, ContainersOf(files[i + 1..]))
  {
    ContainersOfStep(files[i..]);
    assert files[i..][0] == files[i];
    assert files[i..][1..] == files[i + 1..];
    if FileContainers(files[i]).Some? {
      PrependPrepend(out, FileContainers(files[i]).value, ContainersOf(files[i + 1..]));
    }
  }

  /** `_analyze_docker`, with its loop over the files. */
  method AnalyzeDocker(files: seq<DockerFile>) returns (r: Option<seq<Container>>)
    ensures r == ContainersOf(files)
  {
    var out: seq<Container> := [];
    var i := 0;
    if ContainersOf(files).Some? {
      assert [] + ContainersOf(files).value == ContainersOf(files).value;
    }
    while i < |files|
      invariant 0 <= i <= |files|
      invariant ContainersOf(files) == Prepend(out, ContainersOf(files[i..]))
    {
      ContainersOfAt(files, i, out);
      var head := ReadDockerFile(files[i]);
      if head.None? {
        return None;
      }
      out := out + head.value;
      i := i + 1;
    }
    assert files[i..] == [];
    assert out + [] == out;
    return Some(out);
  }

  /** The body of the loop: one Dockerfile, one compose file, or nothing. */
  method ReadDockerFile(f: DockerFile) returns (r: Option<seq<Container>>)
    ensures r == FileContainers(f)
  {
    if f.path.Name() == "Dockerfile" {
      var info := ParseDockerfile(f.text);
      return Some([DockerfileContainer(f.path, info)]);
    } else if Contains(f.path.Name(), "docker-compose") {
      var services := ParseCompose(f.document);
      if services.None? {
        return None;
      }
      var out := AddServices([], services.value.Items());
      assert out == ServiceContainers(services.value.Items());
      return Some(out);
    }
    return Some([]);
  }

  /** The services loop: one container per service, in order. */
  method AddServices(out0: seq<Container>, items: seq<(string, DockerService)>) returns (out: seq<Container>)
    ensures out == out0 + ServiceContainers(items)
  {
    out := out0;
    var j := 0;
    while j < |items|
      invariant 0 <= j <= |items|
      invariant out == out0 + ServiceContainers(items[..j])
    {
      assert ServiceContainers(items[..j + 1]) == ServiceContainers(items[..j]) + [ComposeContainer(items[j].0, items[j].1)];
      out := out + [ComposeContainer(items[j].0, items[j].1)];
      j := j + 1;
    }
    assert items[..j] == items;
  }

  /** Every container is named "container_" followed by its name. */
  lemma {:induction false} ContainersNamed(files: seq<DockerFile>)
    requires ContainersOf(files).Some?
    ensures forall c :: c in ContainersOf(files).value ==> c.id == "container_" + c.name
    decreases |files|
  {
    if |files| > 0 {
      ContainersNamed(files[1..]);
    }
  }

  // ---------------------------------------------------------------- matching files to containers

  /** The container's `source_path` is a prefix of the file path. */
  predicate Serves(c: Container, filePath: string) {
    c.SourcePath().Some? && c.SourcePath().value <= filePath
  }

  /**
   * `_match_file_to_container`: the id of the first container, in list
   * order, whose `source_path` prefixes the path; None if there is none.
   */
  function MatchFileToContainer(filePath: string, containers: seq<Container>): (r: Option<string>)
    ensures r.None? <==> forall k :: 0 <= k < |containers| ==> !Serves(containers[k], filePath)
    ensures r.Some? ==>
              exists k :: (0 <= k < |containers| && Serves(containers[k], filePath) && containers[k].id == r.value
                           && forall j :: 0 <= j < k ==> !Serves(containers[j], filePath))
  {
    match FirstWhere(containers, c => Serves(c, filePath), 0)
    case None => None
    case Some(k) => Some(containers[k].id)
  }

  /** A container from a compose file never matches, and among Dockerfile containers the first prefix wins, not the longest. */
  lemma ComposeNeverMatches(filePath: string, containers: seq<Container>, k: nat)
    requires k < |containers| && containers[k].origin.FromCompose?
    ensures MatchFileToContainer(filePath, containers) != Some(containers[k].id)
              || exists j :: 0 <= j < |containers| && j != k && containers[j].id == containers[k].id
  {
    var r := MatchFileToContainer(filePath, containers);
    if r == Some(containers[k].id) {
      var j :| 0 <= j < |containers| && Serves(containers[j], filePath) && containers[j].id == r.value
               && forall i :: 0 <= i < j ==> !Serves(containers[i], filePath);
      assert j != k;
    }
  }

  // ---------------------------------------------------------------- components

  /**
   * A file of `code_files`: its text (None when unreadable) and what the
   * language's parser returns for it (None when it raises).
   */
  datatype CodeFile = CodeFile(path: Path, text: Option<string>, parsed: Option<Value>)

  /** One entry of `components`, with 'type' always 'component'. */
  datatype Component = Component(
    id: string,
    name: string,
    language: string,
    containerId: Option<string>,
    filePath: string,
    details: Value)
  {
    /** The dictionary itself, in the source's key order. */
    function ToValue(): Value {
      Obj([("id", Str(id)), ("name", Str(name)), ("type", Str("component")), ("language", Str(language)),
           ("container_id", if containerId.Some? then Str(containerId.value) else Null),
           ("file_path", Str(filePath)), ("details", details)])
    }
  }

  /** The languages with a registered parser. */
  const Parsers: seq<string> := ["python", "docker", "k8s", "terraform"]

  /**
   * `code_info`: the parser's result, updated with the structure analysis
   * for text under 10000 characters; None when parsing, reading or the
   * update raises.
   */
  function CodeInfo(f: CodeFile, language: string, llm: Prompt -> Reply, decode: string -> Option<Value>): (r: Option<Value>)
    ensures f.parsed.None? || f.text.None? ==> r.None?
    ensures f.parsed.Some? && f.text.Some? && |f.text.value| >= 10000 ==> r == f.parsed
    ensures f.parsed.Some? && f.text.Some? && |f.text.value| < 10000 ==>
              var analysis := AnalyzeCodeStructure(f.text.value, language, llm, decode);
              && (r.Some? <==> f.parsed.value.Obj? && DictUpdate(f.parsed.value.fields, analysis).Some?)
              && (r.Some? ==> r == Some(Obj(DictUpdate(f.parsed.value.fields, analysis).value)))
  {
    match (f.parsed, f.text)
    case (Some(info), Some(code)) =>
      if |code| < 10000 then
        var analysis := AnalyzeCodeStructure(code, language, llm, decode);
        if info.Obj? then
          match DictUpdate(info.fields, analysis)
          case None => None
          case Some(fs) => Some(Obj(fs))
        else None
      else Some(info)
    case _ => None
  }

  /**
   * A structure reply that is an empty list or an empty string is accepted by
   * `dict.update`: the parse result is kept unchanged and the file still
   * yields its component.
   */
  lemma EmptyReplyKeepsInfo(f: CodeFile, language: string, containers: seq<Container>,
                            llm: Prompt -> Reply, decode: string -> Option<Value>)
    requires f.parsed.Some? && f.parsed.value.Obj? && f.text.Some? && |f.text.value| < 10000
    requires AnalyzeCodeStructure(f.text.value, language, llm, decode) in {List([]), Str("")}
    ensures CodeInfo(f, language, llm, decode) == f.parsed
    ensures ComponentOf(f, language, containers, llm, decode).Some?
  {
  }

  /** A structure reply `[[k, v]]` is merged in as the pair: the details then map `k` to `v`. */
  lemma PairReplyMerged(f: CodeFile, language: string, llm: Prompt -> Reply, decode: string -> Option<Value>,
                        k: string, v: Value)
    requires f.parsed.Some? && f.parsed.value.Obj? && f.text.Some? && |f.text.value| < 10000
    requires AnalyzeCodeStructure(f.text.value, language, llm, decode) == List([List([Str(k), v])])
    ensures CodeInfo(f, language, llm, decode).Some?
    ensures Lookup(CodeInfo(f, language, llm, decode).value.fields, k) == Some(v)
  {
    var reply := List([List([Str(k), v])]);
    assert UpdatePair(reply.items[0]) == Some((k, v));
    var pairs := TryMap(reply.items, UpdatePair);
    assert pairs.Some? && |pairs.value| == 1 && UpdatePair(reply.items[0]) == Some(pairs.value[0]);
    assert pairs.value == [(k, v)];
    DictUpdateLookup(f.parsed.value.fields, reply, k);
  }

  /** The component of one file, or None when the `try` block raised and the file is skipped. */
  function ComponentOf(f: CodeFile, language: string, containers: seq<Container>,
                       llm: Prompt -> Reply, decode: string -> Option<Value>): (r: Option<Component>)
    ensures r.Some? <==> CodeInfo(f, language, llm, decode).Some?
    ensures r.Some? ==> r.value.details == CodeInfo(f, language, llm, decode).value
    ensures r.Some? ==> r.value.id == "component_" + f.path.Stem() && r.value.name == f.path.Stem()
    ensures r.Some? ==> r.value.language == language && r.value.filePath == f.path.Str()
    ensures r.Some? ==> r.value.containerId == MatchFileToContainer(f.path.Str(), containers)
  {
    match CodeInfo(f, language, llm, decode)
    case None => None
    case Some(details) =>
      Some(Component("component_" + f.path.Stem(), f.path.Stem(), language,
                     MatchFileToContainer(f.path.Str(), containers), f.path.Str(), details))
  }

  /** The files of one language, in order. */
  function FilesComponents(files: seq<CodeFile>, language: string, containers: seq<Container>,
                           llm: Prompt -> Reply, decode: string -> Option<Value>): seq<Component>
    decreases |files|
  {
    if |files| == 0 then []
    else
      var rest := FilesComponents(files[1..], language, containers, llm, decode);
      match ComponentOf(files[0], language, containers, llm, decode)
      case None => rest
      case Some(c) => [c] + rest
  }

  /** `_analyze_code` on the `code_files` entries in order; unregistered languages are skipped. */
  function ComponentsOf(codeFiles: seq<(string, seq<CodeFile>)>, containers: seq<Container>,
                        llm: Prompt -> Reply, decode: string -> Option<Value>): seq<Component>
    decreases |codeFiles|
  {
    if |codeFiles| == 0 then []
    else
      var rest := ComponentsOf(codeFiles[1..], containers, llm, decode);
      if codeFiles[0].0 in Parsers then
        FilesComponents(codeFiles[0].1, codeFiles[0].0, containers, llm, decode) + rest
      else rest
  }

  lemma ComponentsOfStep(codeFiles: seq<(string, seq<CodeFile>)>, containers: seq<Container>,
                         llm: Prompt -> Reply, decode: string -> Option<Value>)
    requires |codeFiles| > 0
    ensures codeFiles[0].0 in Parsers ==>
              ComponentsOf(codeFiles, containers, llm, decode) == FilesComponents(codeFiles[0].1, codeFiles[0].0, containers, llm, decode) + ComponentsOf(codeFiles[1..], containers, llm, decode)
    ensures codeFiles[0].0 !in Parsers ==> ComponentsOf(codeFiles, containers, llm, decode) == ComponentsOf(codeFiles[1..], containers, llm, decode)
  {
  }

  /** `_analyze_code`, with its loop over the languages. */
  method AnalyzeCode(codeFiles: seq<(string, seq<CodeFile>)>, containers: seq<Container>,
                     llm: Prompt -> Reply, decode: string -> Option<Value>) returns (r: seq<Component>)
    ensures r == ComponentsOf(codeFiles, containers, llm, decode)
  {
    r := [];
    var i := 0;
    while i < |codeFiles|
      invariant 0 <= i <= |codeFiles|
      invariant ComponentsOf(codeFiles, containers, llm, decode) == r + ComponentsOf(codeFiles[i..], containers, llm, decode)
    {
      ComponentsOfStep(codeFiles[i..], containers, llm, decode);
      assert codeFiles[i..][0] == codeFiles[i];
      assert codeFiles[i..][1..] == codeFiles[i + 1..];
      var language := codeFiles[i].0;
      if language in Parsers {
        var more := FilesComponents(codeFiles[i].1, language, containers, llm, decode);
        AppendAssoc(r, more, ComponentsOf(codeFiles[i + 1..], containers, llm, decode));
        r := AnalyzeFiles(r, codeFiles[i].1, language, containers, llm, decode);
      }
      i := i + 1;
    }
    assert codeFiles[i..] == [];
    assert r + [] == r;
  }

  /** The loop over the files of one language. */
  method AnalyzeFiles(r0: seq<Component>, files: seq<CodeFile>, language: string, containers: seq<Container>,
                      llm: Prompt -> Reply, decode: string -> Option<Value>) returns (r: seq<Component>)
    ensures r == r0 + FilesComponents(files, language, containers, llm, decode)
  {
    r := r0;
    var j := 0;
    while j < |files|
      invariant 0 <= j <= |files|
      invariant r0 + FilesComponents(files, language, containers, llm, decode)
                == r + FilesComponents(files[j..], language, containers, llm, decode)
    {
      assert files[j..][1..] == files[j + 1..];
      var c := ComponentOf(files[j], language, containers, llm, decode);
      if c.Some? {
        AppendAssoc(r, [c.value], FilesComponents(files[j + 1..], language, containers, llm, decode));
        r := r + [c.value];
      }
      j := j + 1;
    }
    assert files[j..] == [];
    assert r + [] == r;
  }

  /** What every component of one language satisfies. */
  predicate WellFormedComponent(c: Component, containers: seq<Container>) {
    && c.language in Parsers
    && c.id == "component_" + c.name
    && c.containerId == MatchFileToContainer(c.filePath, containers)
  }

  lemma {:induction false} FilesComponentsShape(files: seq<CodeFile>, language: string, containers: seq<Container>,
                                                llm: Prompt -> Reply, decode: string -> Option<Value>)
    requires language in Parsers
    ensures forall c :: c in FilesComponents(files, language, containers, llm, decode) ==>
              c.language == language && WellFormedComponent(c, containers)
    decreases |files|
  {
    if |files| > 0 {
      FilesComponentsShape(files[1..], language, containers, llm, decode);
    }
  }

  /**
   * Components come only from registered languages; each is named
   * "component_" + file stem and placed in the container its path matches.
   */
  lemma {:induction false} ComponentsShape(codeFiles: seq<(string, seq<CodeFile>)>, containers: seq<Container>,
                                           llm: Prompt -> Reply, decode: string -> Option<Value>)
    ensures forall c :: c in ComponentsOf(codeFiles, containers, llm, decode) ==> WellFormedComponent(c, containers)
    decreases |codeFiles|
  {
    if |codeFiles| > 0 {
      ComponentsShape(codeFiles[1..], containers, llm, decode);
      if codeFiles[0].0 in Parsers {
        FilesComponentsShape(codeFiles[0].1, codeFiles[0].0, containers, llm, decode);
      }
    }
  }

  /** An entry whose language has no parser contributes nothing. */
  lemma UnregisteredSkipped(codeFiles: seq<(string, seq<CodeFile>)>, containers: seq<Container>,
                            llm: Prompt -> Reply, decode: string -> Option<Value>)
    requires |codeFiles| > 0 && codeFiles[0].0 !in Parsers
    ensures ComponentsOf(codeFiles, containers, llm, decode) == ComponentsOf(codeFiles[1..], containers, llm, decode)
  {
  }

  // ---------------------------------------------------------------- the dependency graph, as a value

  function ContainerNodes(cs: seq<Container>): (r: seq<(string, Attrs)>)
    ensures |r| == |cs| && forall i :: 0 <= i < |cs| ==> r[i].0 == cs[i].id
  {
    seq(|cs|, i requires 0 <= i < |cs| => (cs[i].id, AttrsOf(cs[i].ToValue().fields)))
  }

  function ComponentNodes(cs: seq<Component>): (r: seq<(string, Attrs)>)
    ensures |r| == |cs| && forall i :: 0 <= i < |cs| ==> r[i].0 == cs[i].id
  {
    seq(|cs|, i requires 0 <= i < |cs| => (cs[i].id, AttrsOf(cs[i].ToValue().fields)))
  }

  /** The id and the `depends_on` list of every container. */
  function DependsOnLists(cs: seq<Container>): (r: seq<(string, seq<string>)>)
    ensures |r| == |cs| && forall i :: 0 <= i < |cs| ==> r[i] == (cs[i].id, cs[i].DependsOn())
  {
    seq(|cs|, i requires 0 <= i < |cs| => (cs[i].id, cs[i].DependsOn()))
  }

  /** `add_node` as the folds below see it: one more node, the same edges. */
  function WithNode(g: Graph, n: string, a: Attrs): (r: Graph)
    requires g.Valid()
    ensures r.Valid()
    ensures forall m :: r.HasNode(m) <==> g.HasNode(m) || m == n
    ensures forall x, y :: r.HasEdge(x, y) <==> g.HasEdge(x, y)
  {
    var r := g.AddNode(n, a);
    assert forall m :: r.HasNode(m) <==> m in r.nodes;
    r
  }

  /** `add_edge` when `c` holds, nothing otherwise, as the folds below see it. */
  function WithEdgeIf(g: Graph, c: bool, u: string, v: string, a: Attrs): (r: Graph)
    requires g.Valid()
    ensures r.Valid()
    ensures forall n :: r.HasNode(n) <==> g.HasNode(n) || (c && (n == u || n == v))
    ensures forall x, y :: r.HasEdge(x, y) <==> g.HasEdge(x, y) || (c && x == u && y == v)
  {
    if c then g.AddEdge(u, v, a) else g
  }

  /** Some entry of the list names node `n`. */
  predicate Named(items: seq<(string, Attrs)>, n: string)
    decreases |items|
  {
    |items| > 0 && (items[0].0 == n || Named(items[1..], n))
  }

  /** The nodes loop: every id becomes a node and no edge appears. */
  function WithNodes(g: Graph, items: seq<(string, Attrs)>): (r: Graph)
    requires g.Valid()
    ensures r.Valid()
    ensures forall n :: r.HasNode(n) <==> g.HasNode(n) || Named(items, n)
    ensures forall x, y :: r.HasEdge(x, y) <==> g.HasEdge(x, y)
    decreases |items|
  {
    if |items| == 0 then g
    else
      WithNodes(WithNode(g, items[0].0, items[0].1), items[1..])
  }

  const DependsOnAttrs: Attrs := map["relationship" := Str("depends_on")]
  const DeployedInAttrs: Attrs := map["relationship" := Str("deployed_in")]
  const ImportsAttrs: Attrs := map["relationship" := Str("imports")]

  /** `dep_id` names a dependency of the list. */
  predicate DependencyId(deps: seq<string>, y: string)
    decreases |deps|
  {
    |deps| > 0 && (y == "container_" + deps[0] || DependencyId(deps[1..], y))
  }

  /** The `depends_on` loop of one container: an edge to each dependency that is already a node. */
  function WithDependencies(g: Graph, src: string, deps: seq<string>): (r: Graph)
    requires g.Valid() && g.HasNode(src)
    ensures r.Valid()
    ensures forall n :: r.HasNode(n) <==> g.HasNode(n)
    ensures forall x, y :: r.HasEdge(x, y) <==> g.HasEdge(x, y) || (x == src && g.HasNode(y) && DependencyId(deps, y))
    decreases |deps|
  {
    if |deps| == 0 then g
    else
      var d := "container_" + deps[0];
      var g1 := WithEdgeIf(g, g.HasNode(d), src, d, DependsOnAttrs);
      assert forall n :: g1.HasNode(n) <==> g.HasNode(n);
      var r := WithDependencies(g1, src, deps[1..]);
      assert forall y :: DependencyId(deps, y) <==> y == d || DependencyId(deps[1..], y);
      r
  }

  /** Some container `x` lists `y`'s name among its `depends_on`. */
  predicate DependsOnEdge(cs: seq<(string, seq<string>)>, x: string, y: string)
    decreases |cs|
  {
    |cs| > 0 && ((cs[0].0 == x && DependencyId(cs[0].1, y)) || DependsOnEdge(cs[1..], x, y))
  }

  /** The `depends_on` loop over all containers, whose ids are already nodes. */
  function WithAllDependencies(g: Graph, cs: seq<(string, seq<string>)>): (r: Graph)
    requires g.Valid() && forall k :: 0 <= k < |cs| ==> g.HasNode(cs[k].0)
    ensures r.Valid()
    ensures forall n :: r.HasNode(n) <==> g.HasNode(n)
    ensures forall x, y :: r.HasEdge(x, y) <==> g.HasEdge(x, y) || (g.HasNode(y) && DependsOnEdge(cs, x, y))
    decreases |cs|
  {
    if |cs| == 0 then g
    else
      var g1 := WithDependencies(g, cs[0].0, cs[0].1);
      WithAllDependencies(g1, cs[1..])
  }

  /** `component.get('container_id')` is truthy and names `y`. */
  predicate DeployedIn(c: Component, y: string) {
    c.containerId == Some(y) && |y| > 0
  }

  /** Some component `x` is deployed in `y`. */
  predicate DeployedEdge(cs: seq<Component>, x: string, y: string)
    decreases |cs|
  {
    |cs| > 0 && ((cs[0].id == x && DeployedIn(cs[0], y)) || DeployedEdge(cs[1..], x, y))
  }

  /** The `deployed_in` loop: an edge from each component with a truthy `container_id`. */
  function WithDeployments(g: Graph, cs: seq<Component>): (r: Graph)
    requires g.Valid()
    ensures r.Valid()
    ensures forall x, y :: r.HasEdge(x, y) <==> g.HasEdge(x, y) || DeployedEdge(cs, x, y)
    decreases |cs|
  {
    if |cs| == 0 then g
    else
      var c := cs[0];
      var g1 := WithEdgeIf(g, c.containerId.Some? && |c.containerId.value| > 0, c.id, c.containerId.GetOr(""), DeployedInAttrs);
      WithDeployments(g1, cs[1..])
  }

  // ---------------------------------------------------------------- module map

  /** `cls['name']`, when it succeeds and gives a string. */
  function ClassName(v: Value): Option<string> {
    match Item(v, "name")
    case Some(Str(n)) => Some(n)
    case _ => None
  }

  /** `cls['name']` for every class entry; None when an entry is not a mapping with a string name. */
  function ClassNames(vs: seq<Value>): (r: Option<seq<string>>)
    ensures r.Some? <==> forall i :: 0 <= i < |vs| ==> ClassName(vs[i]).Some?
    ensures r.Some? ==> |r.value| == |vs| && forall i :: 0 <= i < |vs| ==> ClassName(vs[i]) == Some(r.value[i])
  {
    TryMap(vs, ClassName)
  }

  /** The class names of one component; None where reading `details['classes']` raises. */
  function ClassesOf(c: Component): Option<seq<string>> {
    var items :- ClassEntries(c);
    ClassNames(items)
  }

  /** `details.get('classes', [])`, iterated; None where that raises. */
  function ClassEntries(c: Component): Option<seq<Value>> {
    var classes :- Get(c.details, "classes", List([]));
    Iter(classes)
  }

  /** Each component's id with its class names, in order; None when some component's classes raise. */
  function ClassDecls(cs: seq<Component>): (r: Option<seq<(string, seq<string>)>>)
    decreases |cs|
  {
    if |cs| == 0 then Some([])
    else
      match ClassesOf(cs[0])
      case None => None
      case Some(names) =>
        match ClassDecls(cs[1..])
        case None => None
        case Some(rest) => Some([(cs[0].id, names)] + rest)
  }

  /** `module_map[cls['name']] = component['id']` for each class of one component. */
  function WithClasses(m: Dict<string, string>, id: string, classes: seq<string>): (r: Dict<string, string>)
    ensures m.Valid() ==> r.Valid()
    decreases |classes|
  {
    if |classes| == 0 then m else WithClasses(m.Put(classes[0], id), id, classes[1..])
  }

  /** After the class loop of one component, its class names map to it and every other entry is as before. */
  lemma {:induction false} WithClassesEntries(m: Dict<string, string>, id: string, classes: seq<string>, n: string)
    ensures n in WithClasses(m, id, classes).vals <==> n in m.vals || n in classes
    ensures n in classes ==> WithClasses(m, id, classes).vals[n] == id
    ensures n !in classes && n in m.vals ==> WithClasses(m, id, classes).vals[n] == m.vals[n]
    decreases |classes|
  {
    if |classes| > 0 {
      WithClassesEntries(m.Put(classes[0], id), id, classes[1..], n);
    }
  }

  /** Putting one more class name is one more `Put`. */
  lemma {:induction false} WithClassesSnoc(m: Dict<string, string>, id: string, a: seq<string>, x: string)
    ensures WithClasses(m, id, a + [x]) == WithClasses(m, id, a).Put(x, id)
    decreases |a|
  {
    if |a| == 0 {
      assert [x][1..] == [];
    } else {
      assert (a + [x])[1..] == a[1..] + [x];
      WithClassesSnoc(m.Put(a[0], id), id, a[1..], x);
    }
  }

  /** The class loop of one component; None when some `cls['name']` raises. */
  method PutClasses(m0: Dict<string, string>, id: string, vals: seq<Value>) returns (r: Option<Dict<string, string>>)
    ensures r.None? <==> ClassNames(vals).None?
    ensures r.Some? ==> r.value == WithClasses(m0, id, ClassNames(vals).value)
  {
    var m := m0;
    ghost var names: seq<string> := [];
    var j := 0;
    while j < |vals|
      invariant 0 <= j <= |vals|
      invariant TryMap(vals[..j], ClassName) == Some(names)
      invariant m == WithClasses(m0, id, names)
    {
      var name := ClassName(vals[j]);
      if name.None? {
        TryMapFails(vals, ClassName, j);
        return None;
      }
      TryMapSnoc(vals, ClassName, j, names, name.value);
      WithClassesSnoc(m0, id, names, name.value);
      m := m.Put(name.value, id);
      names := names + [name.value];
      j := j + 1;
    }
    assert vals[..j] == vals;
    return Some(m);
  }

  /** The first loop of `_analyze_code_dependencies`; None when it raises. */
  method BuildModuleMap(cs: seq<Component>) returns (r: Option<Dict<string, string>>)
    ensures r.None? <==> ClassDecls(cs).None?
    ensures r.Some? ==> r.value == ModuleMap(ClassDecls(cs).value)
  {
    var m: Dict<string, string> := PyDict.Empty();
    ghost var decls: seq<(string, seq<string>)> := [];
    var i := 0;
    while i < |cs|
      invariant 0 <= i <= |cs|
      invariant ClassDecls(cs[..i]) == Some(decls)
      invariant m == ModuleMap(decls)
    {
      var vals := ClassEntries(cs[i]);
      if vals.None? {
        ModuleMapFails(cs, i);
        return None;
      }
      var next := PutClasses(m, cs[i].id, vals.value);
      if next.None? {
        ModuleMapFails(cs, i);
        return None;
      }
      ghost var entry := (cs[i].id, ClassNames(vals.value).value);
      ModuleMapStep(cs, i, decls, entry.1);
      m := next.value;
      decls := decls + [entry];
      i := i + 1;
    }
    assert cs[..i] == cs;
    return Some(m);
  }

  /** The declarations of one more prefix element. */
  lemma ClassDeclsAt(cs: seq<Component>, i: nat)
    requires i < |cs|
    ensures ClassDecls(cs[..i + 1]) ==
              if ClassDecls(cs[..i]).Some? && ClassesOf(cs[i]).Some? then Some(ClassDecls(cs[..i]).value + [(cs[i].id, ClassesOf(cs[i]).value)])
              else None
  {
    var pre := cs[..i];
    assert cs[..i + 1] == pre + [cs[i]];
    ClassDeclsSnoc(pre, cs[i]);
  }

  /** One iteration of the module map loop on a component whose classes are read. */
  lemma ModuleMapStep(cs: seq<Component>, i: nat, decls: seq<(string, seq<string>)>, names: seq<string>)
    requires i < |cs| && ClassDecls(cs[..i]) == Some(decls) && ClassesOf(cs[i]) == Some(names)
    ensures ClassDecls(cs[..i + 1]) == Some(decls + [(cs[i].id, names)])
    ensures ModuleMap(decls + [(cs[i].id, names)]) == WithClasses(ModuleMap(decls), cs[i].id, names)
  {
    ClassDeclsAt(cs, i);
    assert (decls + [(cs[i].id, names)])[..|decls|] == decls;
  }

  /** An iteration on a component whose classes raise makes the whole loop raise. */
  lemma ModuleMapFails(cs: seq<Component>, i: nat)
    requires i < |cs| && ClassDecls(cs[..i]).Some? && ClassesOf(cs[i]).None?
    ensures ClassDecls(cs).None?
  {
    ClassDeclsAt(cs, i);
    ClassDeclsFails(cs, i + 1);
  }

  /** A component whose classes raise makes the whole loop raise. */
  lemma {:induction false} ClassDeclsFails(cs: seq<Component>, i: nat)
    requires i <= |cs| && ClassDecls(cs[..i]).None?
    ensures ClassDecls(cs).None?
    decreases i
  {
    assert i > 0;
    if ClassesOf(cs[0]).Some? {
      assert cs[..i][1..] == cs[1..][..i - 1];
      ClassDeclsFails(cs[1..], i - 1);
    }
  }

  /** Declaring one more component extends the declarations, or fails with it. */
  lemma {:induction false} ClassDeclsSnoc(cs: seq<Component>, c: Component)
    ensures ClassDecls(cs + [c]) ==
              if ClassDecls(cs).Some? && ClassesOf(c).Some? then Some(ClassDecls(cs).value + [(c.id, ClassesOf(c).value)])
              else None
    decreases |cs|
  {
    if |cs| == 0 {
      assert cs + [c] == [c] && [c][1..] == [];
      if ClassesOf(c).Some? {
        assert ClassDecls(cs).value + [(c.id, ClassesOf(c).value)] == [(c.id, ClassesOf(c).value)] + [];
      }
    } else {
      assert (cs + [c])[0] == cs[0];
      assert (cs + [c])[1..] == cs[1..] + [c];
      ClassDeclsSnoc(cs[1..], c);
      if ClassesOf(cs[0]).Some? && ClassDecls(cs[1..]).Some? && ClassesOf(c).Some? {
        AppendAssoc([(cs[0].id, ClassesOf(cs[0]).value)], ClassDecls(cs[1..]).value, [(c.id, ClassesOf(c).value)]);
      }
    }
  }

  /** `module_map` after the first loop of `_analyze_code_dependencies`. */
  function ModuleMap(decls: seq<(string, seq<string>)>): (r: Dict<string, string>)
    ensures r.Valid()
    decreases |decls|
  {
    if |decls| == 0 then PyDict.Empty()
    else WithClasses(ModuleMap(decls[..|decls| - 1]), decls[|decls| - 1].0, decls[|decls| - 1].1)
  }

  /** The id of the last component that defines class `n`, if any. */
  function LastOwner(decls: seq<(string, seq<string>)>, n: string): Option<string>
    decreases |decls|
  {
    if |decls| == 0 then None
    else if n in decls[|decls| - 1].1 then Some(decls[|decls| - 1].0)
    else LastOwner(decls[..|decls| - 1], n)
  }

  /** Component `k` defines class `n` and no later component does. */
  predicate LastDefiner(decls: seq<(string, seq<string>)>, n: string, k: int) {
    0 <= k < |decls| && n in decls[k].1 && forall j :: k < j < |decls| ==> n !in decls[j].1
  }

  /** `LastOwner` finds the last definer, and finds nothing only when no component defines the class. */
  lemma {:induction false} LastOwnerIsLast(decls: seq<(string, seq<string>)>, n: string) returns (k: int)
    ensures LastOwner(decls, n).Some? ==> LastDefiner(decls, n, k) && LastOwner(decls, n).value == decls[k].0
    ensures LastOwner(decls, n).None? ==> forall j :: 0 <= j < |decls| ==> n !in decls[j].1
    decreases |decls|
  {
    k := -1;
    if |decls| > 0 {
      var init := decls[..|decls| - 1];
      if n in decls[|decls| - 1].1 {
        k := |decls| - 1;
      } else {
        k := LastOwnerIsLast(init, n);
        assert forall j :: 0 <= j < |init| ==> decls[j] == init[j];
      }
    }
  }

  /** The module map holds for each class name the last component that defines it. */
  lemma {:induction false} ModuleMapOwner(decls: seq<(string, seq<string>)>, n: string)
    ensures n in ModuleMap(decls).vals <==> LastOwner(decls, n).Some?
    ensures n in ModuleMap(decls).vals ==> ModuleMap(decls).vals[n] == LastOwner(decls, n).value
    decreases |decls|
  {
    if |decls| > 0 {
      var init := decls[..|decls| - 1];
      ModuleMapOwner(init, n);
      WithClassesEntries(ModuleMap(init), decls[|decls| - 1].0, decls[|decls| - 1].1, n);
    }
  }

  // ---------------------------------------------------------------- import edges

  /** `module_name in imp` raises for nothing but a string, a list or a mapping. */
  predicate SupportsIn(imp: Value) {
    imp.Str? || imp.List? || imp.Obj?
  }

  /** Some class name of the map that `imp` contains is mapped to `y`. */
  predicate Hit(imp: Value, items: seq<(string, string)>, y: string)
    decreases |items|
  {
    |items| > 0 && ((HasIn(imp, items[0].0) == Some(true) && items[0].1 == y) || Hit(imp, items[1..], y))
  }

  /**
   * The innermost loop: one import against every entry of the module map;
   * None when the membership test raises.
   */
  function WithImport(g: Graph, id: string, imp: Value, items: seq<(string, string)>): (r: Option<Graph>)
    requires g.Valid()
    ensures r.None? <==> |items| > 0 && !SupportsIn(imp)
    ensures r.Some? ==> r.value.Valid()
    ensures r.Some? ==> forall x, y :: r.value.HasEdge(x, y) <==> g.HasEdge(x, y) || (x == id && y != id && Hit(imp, items, y))
    decreases |items|
  {
    if |items| == 0 then Some(g)
    else
      match HasIn(imp, items[0].0)
      case None => None
      case Some(b) =>
        var t := items[0].1;
        WithImport(WithEdgeIf(g, b && t != id, id, t, ImportsAttrs), id, imp, items[1..])
  }

  /** Some import of the list hits `y`. */
  predicate ImportHit(imports: seq<Value>, items: seq<(string, string)>, y: string)
    decreases |imports|
  {
    |imports| > 0 && (Hit(imports[0], items, y) || ImportHit(imports[1..], items, y))
  }

  /** Some import of the list does not support `in`. */
  predicate SomeUnsupported(imports: seq<Value>)
    decreases |imports|
  {
    |imports| > 0 && (!SupportsIn(imports[0]) || SomeUnsupported(imports[1..]))
  }

  /** The loop over the imports of one component. */
  function WithImports(g: Graph, id: string, imports: seq<Value>, items: seq<(string, string)>): (r: Option<Graph>)
    requires g.Valid()
    ensures r.None? <==> |items| > 0 && SomeUnsupported(imports)
    ensures r.Some? ==> r.value.Valid()
    ensures r.Some? ==> forall x, y :: r.value.HasEdge(x, y) <==> g.HasEdge(x, y) || (x == id && y != id && ImportHit(imports, items, y))
    decreases |imports|
  {
    if |imports| == 0 then Some(g)
    else
      match WithImport(g, id, imports[0], items)
      case None => None
      case Some(g1) => WithImports(g1, id, imports[1..], items)
  }

  /** `details.get('imports', [])`, iterated; None where that raises. */
  function ImportsOf(c: Component): Option<seq<Value>> {
    var imports :- Get(c.details, "imports", List([]));
    Iter(imports)
  }

  /** Reading or testing the imports of `c` raises. */
  predicate ImportsRaise(c: Component, items: seq<(string, string)>) {
    ImportsOf(c).None? || (|items| > 0 && SomeUnsupported(ImportsOf(c).value))
  }

  /** The imports of some component raise. */
  predicate SomeImportsRaise(cs: seq<Component>, items: seq<(string, string)>)
    decreases |cs|
  {
    |cs| > 0 && (ImportsRaise(cs[0], items) || SomeImportsRaise(cs[1..], items))
  }

  /** Some component `x` imports a class that the map assigns to a different `y`. */
  predicate ImportEdge(cs: seq<Component>, items: seq<(string, string)>, x: string, y: string)
    decreases |cs|
  {
    |cs| > 0 &&
    ((cs[0].id == x && y != x && ImportsOf(cs[0]).Some? && ImportHit(ImportsOf(cs[0]).value, items, y))
     || ImportEdge(cs[1..], items, x, y))
  }

  /** The second loop of `_analyze_code_dependencies`, over all components. */
  function WithAllImports(g: Graph, cs: seq<Component>, items: seq<(string, string)>): (r: Option<Graph>)
    requires g.Valid()
    ensures r.None? <==> SomeImportsRaise(cs, items)
    ensures r.Some? ==> r.value.Valid()
    ensures r.Some? ==> forall x, y :: r.value.HasEdge(x, y) <==> g.HasEdge(x, y) || ImportEdge(cs, items, x, y)
    decreases |cs|
  {
    if |cs| == 0 then Some(g)
    else
      match ImportsOf(cs[0])
      case None => None
      case Some(imports) =>
        match WithImports(g, cs[0].id, imports, items)
        case None => None
        case Some(g1) => WithAllImports(g1, cs[1..], items)
  }

  /** No import edge is a self-loop. */
  lemma {:induction false} NoSelfImport(cs: seq<Component>, items: seq<(string, string)>, x: string)
    ensures !ImportEdge(cs, items, x, x)
    decreases |cs|
  {
    if |cs| > 0 {
      NoSelfImport(cs[1..], items, x);
    }
  }

  /** An import hits `y` exactly when some class name it contains is mapped to `y`. */
  lemma {:induction false} HitSome(imp: Value, items: seq<(string, string)>, y: string)
    ensures Hit(imp, items, y) <==> exists b :: 0 <= b < |items| && HasIn(imp, items[b].0) == Some(true) && items[b].1 == y
    decreases |items|
  {
    if |items| > 0 {
      HitSome(imp, items[1..], y);
      if exists b :: 0 <= b < |items| && HasIn(imp, items[b].0) == Some(true) && items[b].1 == y {
        var b :| 0 <= b < |items| && HasIn(imp, items[b].0) == Some(true) && items[b].1 == y;
        if b > 0 {
          assert items[1..][b - 1] == items[b];
        }
      }
    }
  }

  /**
   * Over the module map, an import hits `y` exactly when it contains a
   * class name whose last defining component is `y`.
   */
  lemma ModuleMapHit(imp: Value, decls: seq<(string, seq<string>)>, y: string)
    ensures Hit(imp, ModuleMap(decls).Items(), y) <==>
              exists n :: n in ModuleMap(decls).keys && HasIn(imp, n) == Some(true) && LastOwner(decls, n) == Some(y)
  {
    var m := ModuleMap(decls);
    var items := m.Items();
    HitSome(imp, items, y);
    if Hit(imp, items, y) {
      var b :| 0 <= b < |items| && HasIn(imp, items[b].0) == Some(true) && items[b].1 == y;
      ModuleMapOwner(decls, m.keys[b]);
    }
    if exists n :: n in m.keys && HasIn(imp, n) == Some(true) && LastOwner(decls, n) == Some(y) {
      var n :| n in m.keys && HasIn(imp, n) == Some(true) && LastOwner(decls, n) == Some(y);
      ModuleMapOwner(decls, n);
      var b :| 0 <= b < |m.keys| && m.keys[b] == n;
      assert items[b] == (n, y);
    }
  }

  // ---------------------------------------------------------------- the whole graph

  /** An entry of a node list is named by it. */
  lemma {:induction false} NamedAt(items: seq<(string, Attrs)>, k: nat)
    requires k < |items|
    ensures Named(items, items[k].0)
    decreases k
  {
    if k > 0 {
      NamedAt(items[1..], k - 1);
    }
  }

  /** The graph after the node loops: containers first, then components. */
  function NodesStage(g: Graph, containers: seq<Container>, components: seq<Component>): (r: Graph)
    requires g.Valid()
    ensures r.Valid()
    ensures forall n :: r.HasNode(n) <==> g.HasNode(n) || Named(ContainerNodes(containers), n) || Named(ComponentNodes(components), n)
    ensures forall x, y :: r.HasEdge(x, y) <==> g.HasEdge(x, y)
  {
    WithNodes(WithNodes(g, ContainerNodes(containers)), ComponentNodes(components))
  }

  /** Every container is a node once the node loops have run. */
  lemma ContainersAreNodes(g: Graph, containers: seq<Container>, components: seq<Component>)
    requires g.Valid()
    ensures forall k :: 0 <= k < |containers| ==> NodesStage(g, containers, components).HasNode(containers[k].id)
  {
    var items := ContainerNodes(containers);
    forall k | 0 <= k < |containers|
      ensures Named(items, containers[k].id)
    {
      NamedAt(items, k);
    }
  }

  /** `_analyze_code_dependencies` on a graph; None when it raises. */
  function CodeDependencies(g: Graph, cs: seq<Component>): (r: Option<Graph>)
    requires g.Valid()
  {
    var decls :- ClassDecls(cs);
    WithAllImports(g, cs, ModuleMap(decls).Items())
  }

  /** `_build_dependency_graph`: the node loops, the `depends_on` loop, the `deployed_in` loop, then the import edges. */
  function DependencyGraph(g: Graph, containers: seq<Container>, components: seq<Component>): (r: Option<Graph>)
    requires g.Valid()
    ensures r.None? <==>
              ClassDecls(components).None? ||
              SomeImportsRaise(components, ModuleMap(ClassDecls(components).value).Items())
    ensures r.Some? ==> r.value.Valid()
    ensures r.Some? ==>
              var items := ModuleMap(ClassDecls(components).value).Items();
              var nodes := NodesStage(g, containers, components);
              forall x, y :: r.value.HasEdge(x, y) <==>
                g.HasEdge(x, y) || (nodes.HasNode(y) && DependsOnEdge(DependsOnLists(containers), x, y)) ||
                DeployedEdge(components, x, y) || ImportEdge(components, items, x, y)
  {
    var g1 := NodesStage(g, containers, components);
    ContainersAreNodes(g, containers, components);
    var g2 := WithAllDependencies(g1, DependsOnLists(containers));
    CodeDependencies(WithDeployments(g2, components), components)
  }

  // ---------------------------------------------------------------- insights

  /** What `_extract_insights` returns. */
  datatype Insights = Insights(
    systems: Value,
    totalContainers: nat,
    totalComponents: nat,
    dependencyDepth: nat,
    patterns: Value)

  /** An edge with its data, as `edges(data=True)` lists it to the pattern analysis. */
  function EdgeValue(g: Graph, e: (string, string)): Value {
    var attrs := if e in g.edgeAttrs && "relationship" in g.edgeAttrs[e]
      then [("relationship", g.edgeAttrs[e]["relationship"])] else [];
    List([Str(e.0), Str(e.1), Obj(attrs)])
  }

  function EdgeValues(g: Graph): (r: seq<Value>)
    requires g.Valid()
    ensures |r| == |g.Edges()|
  {
    var es := g.Edges();
    seq(|es|, i requires 0 <= i < |es| => EdgeValue(g, es[i]))
  }

  function ContainerValues(cs: seq<Container>): (r: seq<Value>)
    ensures |r| == |cs| && forall i :: 0 <= i < |cs| ==> r[i] == cs[i].ToValue()
  {
    seq(|cs|, i requires 0 <= i < |cs| => cs[i].ToValue())
  }

  function ComponentValues(cs: seq<Component>): (r: seq<Value>)
    ensures |r| == |cs| && forall i :: 0 <= i < |cs| ==> r[i] == cs[i].ToValue()
  {
    seq(|cs|, i requires 0 <= i < |cs| => cs[i].ToValue())
  }

  // ---------------------------------------------------------------- one step of each loop

  lemma DependencyStep(g: Graph, src: string, deps: seq<string>)
    requires g.Valid() && g.HasNode(src) && |deps| > 0
    ensures var d := "container_" + deps[0];
            g.HasNode(d) ==> WithDependencies(g, src, deps) == WithDependencies(g.AddEdge(src, d, DependsOnAttrs), src, deps[1..])
    ensures !g.HasNode("container_" + deps[0]) ==> WithDependencies(g, src, deps) == WithDependencies(g, src, deps[1..])
  {
  }

  lemma DeploymentStep(g: Graph, cs: seq<Component>)
    requires g.Valid() && |cs| > 0
    ensures DeployedIn(cs[0], cs[0].containerId.GetOr("")) ==>
              WithDeployments(g, cs) == WithDeployments(g.AddEdge(cs[0].id, cs[0].containerId.value, DeployedInAttrs), cs[1..])
    ensures !DeployedIn(cs[0], cs[0].containerId.GetOr("")) ==> WithDeployments(g, cs) == WithDeployments(g, cs[1..])
  {
  }

  /** The loop over the module map for one import, on the graph `g0`; false when the membership test raises. */
  method LinkImportIn(g0: Graph, id: string, imp: Value, items: seq<(string, string)>) returns (ok: bool, g: Graph)
    requires g0.Valid()
    ensures ok <==> WithImport(g0, id, imp, items).Some?
    ensures ok ==> g == WithImport(g0, id, imp, items).value
  {
    g := g0;
    var j := 0;
    while j < |items|
      invariant 0 <= j <= |items|
      invariant g.Valid()
      invariant WithImport(g0, id, imp, items) == WithImport(g, id, imp, items[j..])
    {
      var found := HasIn(imp, items[j].0);
      if found.None? {
        ImportFailsAt(g, id, imp, items, j);
        return false, g;
      }
      var target := items[j].1;
      ImportStepAt(g, id, imp, items, j);
      if found.value && target != id {
        g := g.AddEdge(id, target, ImportsAttrs);
      }
      j := j + 1;
    }
    return true, g;
  }

  /** The loop's step at index `j`: the edge is added when the module is imported. */
  lemma ImportStepAt(g: Graph, id: string, imp: Value, items: seq<(string, string)>, j: nat)
    requires g.Valid() && j < |items| && HasIn(imp, items[j].0).Some?
    ensures var c := HasIn(imp, items[j].0).value && items[j].1 != id;
            WithImport(g, id, imp, items[j..]) == WithImport(WithEdgeIf(g, c, id, items[j].1, ImportsAttrs), id, imp, items[j + 1..])
  {
    assert items[j..][0] == items[j] && items[j..][1..] == items[j + 1..];
  }

  /** The loop raises at index `j` when the membership test does. */
  lemma ImportFailsAt(g: Graph, id: string, imp: Value, items: seq<(string, string)>, j: nat)
    requires g.Valid() && j < |items| && HasIn(imp, items[j].0).None?
    ensures WithImport(g, id, imp, items[j..]).None?
  {
    assert items[j..][0] == items[j];
  }

  // ---------------------------------------------------------------- attributes read by analyze

  /** The attributes `RepositoryStructure` declares, in declaration order. */
  const StructureAttributes: seq<string> :=
    ["docker_files", "kubernetes_files", "terraform_files", "source_code", "config_files", "dependencies"]

  /** The attributes of the structure `analyze` reads, in order, as written. */
  const AnalyzeReads: seq<string> := ["docker_files", "k8s_files", "terraform_files", "code_files"]

  /** The attributes `analyze` evidently means: the kubernetes and source-code lists. */
  const AnalyzeReadsCorrected: seq<string> := ["docker_files", "kubernetes_files", "terraform_files", "source_code"]

  /**
   * The position of the first attribute read that the structure does not
   * declare, where the read raises AttributeError; None when every read
   * succeeds.
   */
  function FirstMissing(attrs: seq<string>, declared: seq<string>): (r: Option<nat>)
    ensures r.None? <==> forall i :: 0 <= i < |attrs| ==> attrs[i] in declared
    ensures r.Some? ==> r.value < |attrs| && attrs[r.value] !in declared
    ensures r.Some? ==> forall i :: 0 <= i < r.value ==> attrs[i] in declared
    decreases |attrs|
  {
    if |attrs| == 0 then None
    else if attrs[0] !in declared then Some(0)
    else
      var rest := FirstMissing(attrs[1..], declared);
      if rest.None? then None else Some(rest.value + 1)
  }

  /**
   * As written, `analyze` gets past `structure.docker_files` and raises at
   * its second read, `structure.k8s_files`, whatever the repository holds.
   */
  lemma AnalyzeRaisesAtKubernetes()
    ensures FirstMissing(AnalyzeReads, StructureAttributes) == Some(1)
  {
    assert AnalyzeReads[0] in StructureAttributes;
    assert AnalyzeReads[1..][0] !in StructureAttributes;
  }

  /** With the declared names every read of `analyze` succeeds. */
  lemma CorrectedReadsDeclared()
    ensures FirstMissing(AnalyzeReadsCorrected, StructureAttributes).None?
  {
    assert forall i :: 0 <= i < |AnalyzeReadsCorrected| ==> AnalyzeReadsCorrected[i] == StructureAttributes[[0, 1, 2, 3][i]];
  }

  /** The result of one analysis. */
  datatype Analysis = Analysis(containers: seq<Container>, components: seq<Component>, insights: Insights)

  /**
   * The analyzer with its dependency graph, which persists across calls
   * to `Analyze` as the networkx graph does across calls to `analyze`.
   */
  class SemanticAnalyzer {
    var graph: Graph

    constructor()
      ensures graph == DiGraph.Empty()
    {
      graph := DiGraph.Empty();
    }

    /** One node loop of `_build_dependency_graph`. */
    method AddNodes(items: seq<(string, Attrs)>)
      modifies this
      requires graph.Valid()
      ensures graph == WithNodes(old(graph), items)
    {
      var i := 0;
      while i < |items|
        invariant 0 <= i <= |items|
        invariant graph.Valid()
        invariant WithNodes(old(graph), items) == WithNodes(graph, items[i..])
      {
        assert items[i..][1..] == items[i + 1..];
        graph := graph.AddNode(items[i].0, items[i].1);
        i := i + 1;
      }
    }

    /** The inner `depends_on` loop of one container. */
    method AddDependencies(src: string, deps: seq<string>)
      modifies this
      requires graph.Valid() && graph.HasNode(src)
      ensures graph == WithDependencies(old(graph), src, deps)
    {
      var i := 0;
      while i < |deps|
        invariant 0 <= i <= |deps|
        invariant graph.Valid() && graph.HasNode(src)
        invariant WithDependencies(old(graph), src, deps) == WithDependencies(graph, src, deps[i..])
      {
        DependencyStep(graph, src, deps[i..]);
        assert deps[i..][0] == deps[i] && deps[i..][1..] == deps[i + 1..];
        var depId := "container_" + deps[i];
        if graph.HasNode(depId) {
          graph := graph.AddEdge(src, depId, DependsOnAttrs);
        }
        i := i + 1;
      }
    }

    /** The `depends_on` loop over the containers. */
    method AddDependsOn(cs: seq<(string, seq<string>)>)
      modifies this
      requires graph.Valid() && forall k :: 0 <= k < |cs| ==> graph.HasNode(cs[k].0)
      ensures graph == WithAllDependencies(old(graph), cs)
    {
      var i := 0;
      while i < |cs|
        invariant 0 <= i <= |cs|
        invariant graph.Valid() && forall k :: 0 <= k < |cs| ==> graph.HasNode(cs[k].0)
        invariant WithAllDependencies(old(graph), cs) == WithAllDependencies(graph, cs[i..])
      {
        assert cs[i..][0] == cs[i] && cs[i..][1..] == cs[i + 1..];
        AddDependencies(cs[i].0, cs[i].1);
        i := i + 1;
      }
    }

    /** The `deployed_in` loop over the components. */
    method AddDeployments(cs: seq<Component>)
      modifies this
      requires graph.Valid()
      ensures graph == WithDeployments(old(graph), cs)
    {
      var i := 0;
      while i < |cs|
        invariant 0 <= i <= |cs|
        invariant graph.Valid()
        invariant WithDeployments(old(graph), cs) == WithDeployments(graph, cs[i..])
      {
        DeploymentStep(graph, cs[i..]);
        assert cs[i..][0] == cs[i] && cs[i..][1..] == cs[i + 1..];
        var c := cs[i];
        if c.containerId.Some? && |c.containerId.value| > 0 {
          graph := graph.AddEdge(c.id, c.containerId.value, DeployedInAttrs);
        }
        i := i + 1;
      }
    }

    /** The loop over the module map for one import; false when the membership test raises. */
    method LinkImport(id: string, imp: Value, items: seq<(string, string)>) returns (ok: bool)
      modifies this
      requires graph.Valid()
      ensures ok <==> WithImport(old(graph), id, imp, items).Some?
      ensures ok ==> graph == WithImport(old(graph), id, imp, items).value
    {
      ok, graph := LinkImportIn(graph, id, imp, items);
    }

    /** The loop over the imports of one component. */
    method LinkImports(id: string, imports: seq<Value>, items: seq<(string, string)>) returns (ok: bool)
      modifies this
      requires graph.Valid()
      ensures ok <==> WithImports(old(graph), id, imports, items).Some?
      ensures ok ==> graph == WithImports(old(graph), id, imports, items).value
    {
      var i := 0;
      while i < |imports|
        invariant 0 <= i <= |imports|
        invariant graph.Valid()
        invariant WithImports(old(graph), id, imports, items) == WithImports(graph, id, imports[i..], items)
      {
        assert imports[i..][1..] == imports[i + 1..];
        ok := LinkImport(id, imports[i], items);
        if !ok {
          return false;
        }
        i := i + 1;
      }
      return true;
    }

    /** `_analyze_code_dependencies`; false when it raises. */
    method AnalyzeCodeDependencies(cs: seq<Component>) returns (ok: bool)
      modifies this
      requires graph.Valid()
      ensures ok <==> CodeDependencies(old(graph), cs).Some?
      ensures ok ==> graph == CodeDependencies(old(graph), cs).value
    {
      var moduleMap := BuildModuleMap(cs);
      if moduleMap.None? {
        return false;
      }
      var items := moduleMap.value.Items();
      var i := 0;
      while i < |cs|
        invariant 0 <= i <= |cs|
        invariant graph.Valid()
        invariant WithAllImports(old(graph), cs, items) == WithAllImports(graph, cs[i..], items)
      {
        assert cs[i..][1..] == cs[i + 1..];
        var imports := ImportsOf(cs[i]);
        if imports.None? {
          return false;
        }
        ok := LinkImports(cs[i].id, imports.value, items);
        if !ok {
          return false;
        }
        i := i + 1;
      }
      return true;
    }

    /** `_build_dependency_graph`; false when it raises. */
    method BuildDependencyGraph(containers: seq<Container>, components: seq<Component>) returns (ok: bool)
      modifies this
      requires graph.Valid()
      ensures ok <==> DependencyGraph(old(graph), containers, components).Some?
      ensures ok ==> graph == DependencyGraph(old(graph), containers, components).value
    {
      ghost var g1 := NodesStage(graph, containers, components);
      ContainersAreNodes(graph, containers, components);
      ghost var g2 := WithAllDependencies(g1, DependsOnLists(containers));
      ghost var g3 := WithDeployments(g2, components);
      assert DependencyGraph(graph, containers, components) == CodeDependencies(g3, components);
      AddNodes(ContainerNodes(containers));
      AddNodes(ComponentNodes(components));
      assert graph == g1;
      AddDependsOn(DependsOnLists(containers));
      AddDeployments(components);
      ok := AnalyzeCodeDependencies(components);
    }

    /**
     * The pattern analysis of `_extract_insights` runs and succeeds: there
     * are entries, the grouping did not raise, and every entry is a mapping.
     */
    static predicate PatternsReached(all: seq<Value>, llm: Prompt -> Reply, decode: string -> Option<Value>) {
      && |all| > 0
      && IdentifySystemBoundaries(all, llm, decode).Some?
      && forall i :: 0 <= i < |all| ==> all[i].Obj?
    }

    /**
     * `_extract_insights`: the system grouping, the depth of an acyclic
     * graph and the pattern analysis, each step skipped once one raises.
     * `depth` stands for `dag_longest_path_length`; None where it raises.
     */
    method ExtractInsights(containers: seq<Container>, components: seq<Component>, llm: Prompt -> Reply,
                           decode: string -> Option<Value>, depth: Graph -> Option<nat>) returns (r: Insights)
      requires graph.Valid()
      ensures r.totalContainers == |containers| && r.totalComponents == |components|
      ensures HasIn(r.systems, "systems") == Some(true)
      ensures var all := ContainerValues(containers) + ComponentValues(components);
              r.systems == IdentifySystemBoundaries(all, llm, decode).GetOr(NoSystems)
      ensures r.dependencyDepth != 0 ==>
                |graph.nodes| > 0 && (forall n :: graph.HasNode(n) ==> !graph.Reaches(n, n)) &&
                depth(graph) == Some(r.dependencyDepth)
      ensures |containers| + |components| == 0 ==> r.systems == NoSystems && r.patterns == Obj([])
      ensures var all := ContainerValues(containers) + ComponentValues(components);
              PatternsReached(all, llm, decode) ==>
                exists s: ArchSummary :: SummaryFor(s, all, EdgeValues(graph)) &&
                  r.patterns == decode(GenerateWithFallback(llm(PatternPrompt(s)))).GetOr(UnknownPatterns)
      ensures var all := ContainerValues(containers) + ComponentValues(components);
              !PatternsReached(all, llm, decode) ==> r.patterns == Obj([])
    {
      r := Insights(NoSystems, |containers|, |components|, 0, Obj([]));
      assert Keys(NoSystems.fields) == ["systems"];
      var all := ContainerValues(containers) + ComponentValues(components);
      if |all| > 0 {
        var systems := IdentifySystemBoundaries(all, llm, decode);
        if systems.None? {
          return;
        }
        r := r.(systems := systems.value);
      }
      if |graph.nodes| > 0 {
        var acyclic := IsAcyclic(graph);
        if acyclic {
          r := r.(dependencyDepth := depth(graph).GetOr(0));
        }
      }
      if |all| > 0 {
        var patterns, sent := AnalyzeArchitecturePatterns(all, EdgeValues(graph), llm, decode);
        if patterns.None? {
          return;
        }
        r := r.(patterns := patterns.value);
      }
    }

    /**
     * `analyze` as written: the Docker files are analysed, then the read of
     * `structure.k8s_files` raises before the graph is touched, so no
     * analysis is ever returned.
     */
    method AnalyzeAsWritten(dockerFiles: seq<DockerFile>) returns (r: Option<Analysis>)
      ensures r.None?
    {
      var containers := AnalyzeDocker(dockerFiles);
      if containers.None? {
        return None;
      }
      var missing := FirstMissing(AnalyzeReads, StructureAttributes);
      AnalyzeRaisesAtKubernetes();
      if missing.Some? {
        return None;
      }
      assert false;
    }

    /**
     * `analyze`: containers from the Docker files, components from the
     * code files, the dependency graph over both, then the insights.
     * None when a step raises; the graph then holds what was added before.
     */
    method Analyze(dockerFiles: seq<DockerFile>, codeFiles: seq<(string, seq<CodeFile>)>, llm: Prompt -> Reply,
                   decode: string -> Option<Value>, depth: Graph -> Option<nat>) returns (r: Option<Analysis>)
      modifies this
      requires graph.Valid()
      ensures r.Some? <==>
                ContainersOf(dockerFiles).Some? &&
                DependencyGraph(old(graph), ContainersOf(dockerFiles).value,
                                ComponentsOf(codeFiles, ContainersOf(dockerFiles).value, llm, decode)).Some?
      ensures r.Some? ==>
                r.value.containers == ContainersOf(dockerFiles).value &&
                r.value.components == ComponentsOf(codeFiles, r.value.containers, llm, decode) &&
                graph == DependencyGraph(old(graph), r.value.containers, r.value.components).value &&
                r.value.insights.totalContainers == |r.value.containers| &&
                r.value.insights.totalComponents == |r.value.components|
    {
      var containers := AnalyzeDocker(dockerFiles);
      if containers.None? {
        return None;
      }
      var components := AnalyzeCode(codeFiles, containers.value, llm, decode);
      var ok := BuildDependencyGraph(containers.value, components);
      if !ok {
        return None;
      }
      var insights := ExtractInsights(containers.value, components, llm, decode, depth);
      r := Some(Analysis(containers.value, components, insights));
    }
  }
}
