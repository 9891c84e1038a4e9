/**
 * The infrastructure parsers of `src/scanner/ast_parser.py`: a Dockerfile
 * read line by line into one component, Kubernetes manifests read document
 * by document, and Terraform resources mapped by type.  Parsed YAML and HCL
 * documents arrive as values; a Python exception (a `.get` on a non-mapping,
 * `int` of a non-number, a missing `FROM` argument) is `None`, which the
 * orchestrator's per-file `try` turns into "this file contributes nothing".
 */
module AstParser {
  import opened Wrappers
  import opened Strings
  import opened Values

  /** A system component as the parsers produce it. */
  datatype Component = Component(
    name: string,
    kind: string,
    technology: string,
    dependencies: seq<string>,
    exposedPorts: seq<Value>,
    environmentVars: Fields,
    endpoints: seq<string>,
    metadata: Fields)

  /** A relationship between two components, by name. */
  datatype Relationship = Relationship(
    source: string,
    target: string,
    kind: string,
    protocol: string,
    description: string)

  /** A component with no dependencies, ports, variables, endpoints or metadata yet. */
  function Bare(name: string, kind: string, technology: string): Component {
    Component(name, kind, technology, [], [], [], [], [])
  }

  // ---------------------------------------------------------------- Dockerfile

  /** The base-image keywords and the technology each stands for, in lookup order. */
  const TechMap: seq<(string, string)> := [
    ("python", "python"), ("node", "nodejs"), ("openjdk", "java"), ("golang", "go"),
    ("nginx", "nginx"), ("postgres", "postgresql"), ("mongo", "mongodb"), ("redis", "redis")
  ]

  /** `_detect_technology`: the technology of the first keyword found in the lowercased image, else "unknown". */
  function DetectTechnology(image: string): (r: string)
    ensures r == "unknown" <==> forall k :: 0 <= k < |TechMap| ==> !Contains(Lower(image), TechMap[k].0)
    ensures r != "unknown" ==>
      exists k :: 0 <= k < |TechMap| && r == TechMap[k].1 && Contains(Lower(image), TechMap[k].0)
        && forall j :: 0 <= j < k ==> !Contains(Lower(image), TechMap[j].0)
  {
    match FirstContained(Lower(image), TechMap, 0)
    case Some(k) => TechMap[k].1
    case None => "unknown"
  }

  /** `[int(p) for p in ts]`; None when some token is not an integer. */
  function IntTokens(ts: seq<string>): (r: Option<seq<Value>>)
    ensures r.Some? <==> forall k :: 0 <= k < |ts| ==> ParseInt(ts[k]).Some?
    ensures r.Some? ==> |r.value| == |ts| && forall k :: 0 <= k < |ts| ==> r.value[k] == Int(ParseInt(ts[k]).value)
  {
    if |ts| == 0 then Some([])
    else
      match ParseInt(ts[0])
      case None => None
      case Some(n) =>
        match IntTokens(ts[1..])
        case None => None
        case Some(rest) => Some([Int(n)] + rest)
  }

  /** `s.split()[1:]`. */
  function Arguments(s: string): seq<string> {
    var t := Tokens(s);
    if |t| == 0 then [] else t[1..]
  }

  /** A stripped Dockerfile line on which the parser raises: a bare `FROM`, or an `EXPOSE` with a non-integer. */
  predicate DockerfileLineFails(line: string) {
    if "FROM" <= line then |Tokens(line)| < 2
    else "EXPOSE" <= line && IntTokens(Arguments(line)).None?
  }

  /** The instruction a stripped Dockerfile line holds, tested in the parser's order. */
  predicate IsFrom(line: string) { "FROM" <= line }
  predicate IsExpose(line: string) { !IsFrom(line) && "EXPOSE" <= line }
  predicate IsEnv(line: string) { !IsFrom(line) && !("EXPOSE" <= line) && "ENV" <= line }

  /**
   * One iteration of the line loop, on the raw line: `FROM` records the base
   * image and the technology it implies, `EXPOSE` appends its ports, `ENV`
   * with a name and a value sets that variable, and every other line leaves
   * the component as it was.
   */
  function DockerfileLine(c: Component, raw: string): (r: Option<Component>)
    ensures r.None? <==> DockerfileLineFails(Strip(raw))
    ensures r.Some? ==> (r.value.name == c.name && r.value.kind == c.kind
      && r.value.dependencies == c.dependencies && r.value.endpoints == c.endpoints)
    ensures IsFrom(Strip(raw)) && r.Some? ==>
      Lookup(r.value.metadata, "base_image") == Some(Str(Tokens(Strip(raw))[1]))
      && (forall k :: k != "base_image" ==> Lookup(r.value.metadata, k) == Lookup(c.metadata, k))
      && r.value.technology == DetectTechnology(Tokens(Strip(raw))[1])
      && r.value.exposedPorts == c.exposedPorts && r.value.environmentVars == c.environmentVars
    ensures IsExpose(Strip(raw)) && r.Some? ==>
      r.value.exposedPorts == c.exposedPorts + IntTokens(Arguments(Strip(raw))).value
      && r.value.technology == c.technology && r.value.metadata == c.metadata
      && r.value.environmentVars == c.environmentVars
    ensures IsEnv(Strip(raw)) ==>
      r.Some? && r.value.technology == c.technology && r.value.metadata == c.metadata
      && r.value.exposedPorts == c.exposedPorts
      && forall k :: Lookup(r.value.environmentVars, k) ==
                       (if |TokensMax(Strip(raw), 2)| >= 3 && k == TokensMax(Strip(raw), 2)[1]
                        then Some(Str(TokensMax(Strip(raw), 2)[2]))
                        else Lookup(c.environmentVars, k))
    ensures !IsFrom(Strip(raw)) && !IsExpose(Strip(raw)) && !IsEnv(Strip(raw)) ==> r == Some(c)
  {
    var line := Strip(raw);
    if IsFrom(line) then FromLine(c, Tokens(line))
    else if IsExpose(line) then
      match IntTokens(Arguments(line))
      case None => None
      case Some(ps) => Some(c.(exposedPorts := c.exposedPorts + ps))
    else if IsEnv(line) then Some(EnvLine(c, TokensMax(line, 2)))
    else Some(c)
  }

  /** A `FROM` line split into tokens: the image is the second one, and a bare `FROM` raises. */
  function FromLine(c: Component, t: seq<string>): (r: Option<Component>)
    ensures r.None? <==> |t| < 2
    ensures r.Some? ==>
      r.value == c.(metadata := r.value.metadata, technology := DetectTechnology(t[1]))
      && Lookup(r.value.metadata, "base_image") == Some(Str(t[1]))
      && forall k :: k != "base_image" ==> Lookup(r.value.metadata, k) == Lookup(c.metadata, k)
  {
    if |t| < 2 then None
    else
      LookupSetFieldAll(c.metadata, "base_image", Str(t[1]));
      Some(c.(metadata := SetField(c.metadata, "base_image", Str(t[1])), technology := DetectTechnology(t[1])))
  }

  /** An `ENV` line split at most twice: with a name and a value it sets that variable, otherwise nothing. */
  function EnvLine(c: Component, parts: seq<string>): (r: Component)
    ensures r == c.(environmentVars := r.environmentVars)
    ensures forall k :: Lookup(r.environmentVars, k) ==
                      (if |parts| >= 3 && k == parts[1] then Some(Str(parts[2])) else Lookup(c.environmentVars, k))
  {
    if |parts| >= 3 then
      LookupSetFieldAll(c.environmentVars, parts[1], Str(parts[2]));
      c.(environmentVars := SetField(c.environmentVars, parts[1], Str(parts[2])))
    else c
  }

  /** The line loop from `c` over `lines`. */
  function DockerfileLines(c: Component, lines: seq<string>): Option<Component>
    decreases |lines|
  {
    if |lines| == 0 then Some(c)
    else
      match DockerfileLine(c, lines[0])
      case None => None
      case Some(d) => DockerfileLines(d, lines[1..])
  }

  /** `DockerfileParser.parse` on the file's text; the component is named after the parent directory. */
  method ParseDockerfile(parentName: string, content: string) returns (r: Option<Component>)
    ensures r == DockerfileLines(Bare(parentName, "container", "docker"), SplitOn(content, '\n'))
  {
    var lines := SplitOn(content, '\n');
    var c := Bare(parentName, "container", "docker");
    var i := 0;
    while i < |lines|
      invariant 0 <= i <= |lines|
      invariant DockerfileLines(Bare(parentName, "container", "docker"), lines) == DockerfileLines(c, lines[i..])
    {
      assert lines[i..][1..] == lines[i + 1..];
      match DockerfileLine(c, lines[i])
      case None =>
        return None;
      case Some(d) =>
        c := d;
      i := i + 1;
    }
    return Some(c);
  }

  /** The parse raises exactly when one of the lines makes it raise. */
  lemma {:induction false} DockerfileFails(c: Component, lines: seq<string>)
    ensures DockerfileLines(c, lines).None? <==> exists i :: 0 <= i < |lines| && DockerfileLineFails(Strip(lines[i]))
    decreases |lines|
  {
    if |lines| > 0 {
      match DockerfileLine(c, lines[0])
      case None =>
      case Some(d) =>
        DockerfileFails(d, lines[1..]);
        assert forall i :: 1 <= i < |lines| ==> lines[i] == lines[1..][i - 1];
    }
  }

  /** The parsed component keeps the name and the type it started with. */
  lemma {:induction false} DockerfileKeepsIdentity(c: Component, lines: seq<string>)
    requires DockerfileLines(c, lines).Some?
    ensures DockerfileLines(c, lines).value.name == c.name
    ensures DockerfileLines(c, lines).value.kind == c.kind
    decreases |lines|
  {
    if |lines| > 0 {
      DockerfileKeepsIdentity(DockerfileLine(c, lines[0]).value, lines[1..]);
    }
  }

  /** The image named by the last `FROM` line, if any. */
  function LastFrom(lines: seq<string>): Option<string> {
    if |lines| == 0 then None
    else
      match LastFrom(lines[1..])
      case Some(img) => Some(img)
      case None =>
        var line := Strip(lines[0]);
        if "FROM" <= line && |Tokens(line)| >= 2 then Some(Tokens(line)[1]) else None
  }

  /** A later `FROM` overrides an earlier one: the technology comes from the last base image. */
  lemma {:induction false} DockerfileTechnology(c: Component, lines: seq<string>)
    requires DockerfileLines(c, lines).Some?
    ensures DockerfileLines(c, lines).value.technology ==
      match LastFrom(lines) case Some(img) => DetectTechnology(img) case None => c.technology
    decreases |lines|
  {
    if |lines| > 0 {
      DockerfileTechnology(DockerfileLine(c, lines[0]).value, lines[1..]);
    }
  }

  /** The ports an `EXPOSE` line adds; none for any other line or one that does not convert. */
  function LinePorts(raw: string): seq<Value> {
    var line := Strip(raw);
    if IsExpose(line) && IntTokens(Arguments(line)).Some? then IntTokens(Arguments(line)).value else []
  }

  /** The ports of every `EXPOSE` line, in file order. */
  function ExposedPorts(lines: seq<string>): seq<Value> {
    if |lines| == 0 then [] else LinePorts(lines[0]) + ExposedPorts(lines[1..])
  }

  /** `EXPOSE` lines accumulate: the parsed ports are the starting ones followed by every line's ports. */
  lemma {:induction false} DockerfilePorts(c: Component, lines: seq<string>)
    requires DockerfileLines(c, lines).Some?
    ensures DockerfileLines(c, lines).value.exposedPorts == c.exposedPorts + ExposedPorts(lines)
    decreases |lines|
  {
    if |lines| > 0 {
      var d := DockerfileLine(c, lines[0]).value;
      DockerfilePorts(d, lines[1..]);
      assert d.exposedPorts == c.exposedPorts + LinePorts(lines[0]);
      AppendAssoc(c.exposedPorts, LinePorts(lines[0]), ExposedPorts(lines[1..]));
    }
  }

  /** The value the last `ENV` line with a name and a value gives variable `k`, if any. */
  function LastEnv(lines: seq<string>, k: string): Option<string> {
    if |lines| == 0 then None
    else
      match LastEnv(lines[1..], k)
      case Some(v) => Some(v)
      case None =>
        var line := Strip(lines[0]);
        var parts := TokensMax(line, 2);
        if IsEnv(line) && |parts| >= 3 && parts[1] == k then Some(parts[2]) else None
  }

  /** A later `ENV` overrides an earlier one: each variable holds the value of the last line that sets it. */
  lemma {:induction false} DockerfileEnv(c: Component, lines: seq<string>, k: string)
    requires DockerfileLines(c, lines).Some?
    ensures Lookup(DockerfileLines(c, lines).value.environmentVars, k) ==
      match LastEnv(lines, k) case Some(v) => Some(Str(v)) case None => Lookup(c.environmentVars, k)
    decreases |lines|
  {
    if |lines| > 0 {
      DockerfileEnv(DockerfileLine(c, lines[0]).value, lines[1..], k);
    }
  }

  /** The recorded base image is the last `FROM` line's. */
  lemma {:induction false} DockerfileBaseImage(c: Component, lines: seq<string>)
    requires DockerfileLines(c, lines).Some?
    ensures Lookup(DockerfileLines(c, lines).value.metadata, "base_image") ==
      match LastFrom(lines) case Some(img) => Some(Str(img)) case None => Lookup(c.metadata, "base_image")
    decreases |lines|
  {
    if |lines| > 0 {
      DockerfileBaseImage(DockerfileLine(c, lines[0]).value, lines[1..]);
    }
  }

  // ---------------------------------------------------------------- Kubernetes

  /** `[x.get(key) for x in xs]`; None when some element is not a mapping. */
  function FieldOfEach(xs: seq<Value>, key: string): (r: Option<seq<Value>>)
    ensures r.Some? <==> forall k :: 0 <= k < |xs| ==> xs[k].Obj?
    ensures r.Some? ==> |r.value| == |xs| && forall k :: 0 <= k < |xs| ==> r.value[k] == Get(xs[k], key, Null).value
  {
    if |xs| == 0 then Some([])
    else
      match Get(xs[0], key, Null)
      case None => None
      case Some(v) =>
        match FieldOfEach(xs[1..], key)
        case None => None
        case Some(rest) => Some([v] + rest)
  }

  /** One `env` entry of a container: `env[name] = value`; `env['name']` raises when missing. */
  function EnvEntry(env: Fields, e: Value): (r: Option<Fields>)
    ensures r.Some? <==> Item(e, "name").Some?
    ensures r.Some? ==> forall k :: Lookup(r.value, k) ==
                                   (if k == Display(Item(e, "name").value) then Get(e, "value", Str("")) else Lookup(env, k))
  {
    var name :- Item(e, "name");
    var value :- Get(e, "value", Str(""));
    LookupSetFieldAll(env, Display(name), value);
    Some(SetField(env, Display(name), value))
  }

  function EnvEntries(env: Fields, es: seq<Value>): Option<Fields>
    decreases |es|
  {
    if |es| == 0 then Some(env)
    else
      match EnvEntry(env, es[0])
      case None => None
      case Some(env1) => EnvEntries(env1, es[1..])
  }

  /** The items of the list under `key` in a container, or `[]` when they cannot be read. */
  function ListAt(x: Value, key: string): seq<Value> {
    match Get(x, key, List([]))
    case None => []
    case Some(v) => Iter(v).GetOr([])
  }

  /** The `containerPort` of each of a container's ports, in order. */
  function ContainerPorts(x: Value): seq<Value> {
    FieldOfEach(ListAt(x, "ports"), "containerPort").GetOr([])
  }

  /** The value (`''` when missing) of the last `env` entry named `n`, if any. */
  function LastEnvEntry(es: seq<Value>, n: string): Option<Value> {
    if |es| == 0 then None
    else
      match LastEnvEntry(es[1..], n)
      case Some(v) => Some(v)
      case None =>
        match Item(es[0], "name")
        case Some(name) => if Display(name) == n then Get(es[0], "value", Str("")) else None
        case None => None
  }

  /** After the `env` loop each variable holds the value of the last entry naming it. */
  lemma {:induction false} EnvEntriesLookup(env: Fields, es: seq<Value>, n: string)
    requires EnvEntries(env, es).Some?
    ensures Lookup(EnvEntries(env, es).value, n) ==
      match LastEnvEntry(es, n) case Some(v) => Some(v) case None => Lookup(env, n)
    decreases |es|
  {
    if |es| > 0 {
      var name := Item(es[0], "name").value;
      var value := Get(es[0], "value", Str("")).value;
      EnvEntriesLookup(SetField(env, Display(name), value), es[1..], n);
      LookupSetField(env, Display(name), value, n);
    }
  }

  lemma EnvEntriesLookupAll(env: Fields, es: seq<Value>)
    requires EnvEntries(env, es).Some?
    ensures forall n :: Lookup(EnvEntries(env, es).value, n) ==
                      (match LastEnvEntry(es, n) case Some(v) => Some(v) case None => Lookup(env, n))
  {
    forall n {
      EnvEntriesLookup(env, es, n);
    }
  }

  /**
   * One container of a Deployment: its image replaces the recorded one, the
   * `containerPort` of each of its ports is appended, and each of its `env`
   * entries sets a variable.
   */
  function DeployContainer(c: Component, x: Value): (r: Option<Component>)
    ensures r.Some? ==> r.value == c.(metadata := r.value.metadata, exposedPorts := r.value.exposedPorts,
                                      environmentVars := r.value.environmentVars)
    ensures r.Some? ==> (Lookup(r.value.metadata, "image") == Get(x, "image", Str(""))
      && forall k :: k != "image" ==> Lookup(r.value.metadata, k) == Lookup(c.metadata, k))
    ensures r.Some? ==> (r.value.exposedPorts == c.exposedPorts + ContainerPorts(x)
      && |ContainerPorts(x)| == |ListAt(x, "ports")|
      && forall k :: 0 <= k < |ListAt(x, "ports")| ==>
           ContainerPorts(x)[k] == Get(ListAt(x, "ports")[k], "containerPort", Null).value)
    ensures r.Some? ==> forall n :: Lookup(r.value.environmentVars, n) ==
                                   (match LastEnvEntry(ListAt(x, "env"), n)
                                    case Some(v) => Some(v) case None => Lookup(c.environmentVars, n))
  {
    var image :- Get(x, "image", Str(""));
    var ports :- Get(x, "ports", List([]));
    var ps :- Iter(ports);
    var cps :- FieldOfEach(ps, "containerPort");
    var envs :- Get(x, "env", List([]));
    var es :- Iter(envs);
    var env :- EnvEntries(c.environmentVars, es);
    LookupSetFieldAll(c.metadata, "image", image);
    EnvEntriesLookupAll(c.environmentVars, es);
    Some(c.(metadata := SetField(c.metadata, "image", image), exposedPorts := c.exposedPorts + cps, environmentVars := env))
  }

  function DeployContainers(c: Component, xs: seq<Value>): (r: Option<Component>)
    ensures r.Some? ==> (r.value.name == c.name && r.value.kind == c.kind && r.value.technology == c.technology
      && r.value.dependencies == c.dependencies && r.value.endpoints == c.endpoints)
    ensures r.Some? ==> forall k :: k != "image" ==> Lookup(r.value.metadata, k) == Lookup(c.metadata, k)
    decreases |xs|
  {
    if |xs| == 0 then Some(c)
    else
      match DeployContainer(c, xs[0])
      case None => None
      case Some(d) => DeployContainers(d, xs[1..])
  }

  /** The `containerPort` values of every container, container by container. */
  function AllContainerPorts(xs: seq<Value>): seq<Value> {
    if |xs| == 0 then [] else ContainerPorts(xs[0]) + AllContainerPorts(xs[1..])
  }

  /** The value the last container that sets variable `n` gives it, if any. */
  function LastContainerEnv(xs: seq<Value>, n: string): Option<Value> {
    if |xs| == 0 then None
    else
      match LastContainerEnv(xs[1..], n)
      case Some(v) => Some(v)
      case None => LastEnvEntry(ListAt(xs[0], "env"), n)
  }

  /** Ports accumulate over the containers. */
  lemma {:induction false} DeploymentPorts(c: Component, xs: seq<Value>)
    requires DeployContainers(c, xs).Some?
    ensures DeployContainers(c, xs).value.exposedPorts == c.exposedPorts + AllContainerPorts(xs)
    decreases |xs|
  {
    if |xs| > 0 {
      var d := DeployContainer(c, xs[0]).value;
      DeploymentPorts(d, xs[1..]);
      AppendAssoc(c.exposedPorts, ContainerPorts(xs[0]), AllContainerPorts(xs[1..]));
    }
  }

  /** Variables accumulate over the containers; a later container's entry overrides an earlier one. */
  lemma {:induction false} DeploymentEnv(c: Component, xs: seq<Value>, n: string)
    requires DeployContainers(c, xs).Some?
    ensures Lookup(DeployContainers(c, xs).value.environmentVars, n) ==
      match LastContainerEnv(xs, n) case Some(v) => Some(v) case None => Lookup(c.environmentVars, n)
    decreases |xs|
  {
    if |xs| > 0 {
      DeploymentEnv(DeployContainer(c, xs[0]).value, xs[1..], n);
    }
  }

  /** The component a Deployment starts from, and the containers it iterates over. */
  function DeploymentStart(m: Value): (r: Option<(Component, seq<Value>)>)
    ensures r.Some? ==> m.Obj? && Get(m, "metadata", Obj([])).value.Obj?
    ensures r.Some? ==>
      var metadata := Get(m, "metadata", Obj([])).value;
      r.value.0 == Bare(Display(Get(metadata, "name", Str("unknown")).value), "service", "kubernetes")
                     .(metadata := [("kind", Str("Deployment")),
                                    ("namespace", Get(metadata, "namespace", Str("default")).value),
                                    ("labels", Get(metadata, "labels", Obj([])).value)])
  {
    var metadata :- Get(m, "metadata", Obj([]));
    var spec :- Get(m, "spec", Obj([]));
    var template :- Get(spec, "template", Obj([]));
    var tspec :- Get(template, "spec", Obj([]));
    var containers :- Get(tspec, "containers", List([]));
    var name :- Get(metadata, "name", Str("unknown"));
    var ns :- Get(metadata, "namespace", Str("default"));
    var labels :- Get(metadata, "labels", Obj([]));
    var xs :- Iter(containers);
    var c := Component(Display(name), "service", "kubernetes", [], [], [],
                       [], [("kind", Str("Deployment")), ("namespace", ns), ("labels", labels)]);
    Some((c, xs))
  }

  /**
   * `_parse_deployment`: a kubernetes service named after the manifest,
   * whose metadata records kind Deployment, the namespace ('default' when
   * missing), the labels ({} when missing) and the image of the last
   * container; the ports and variables are gathered from every container.
   */
  function DeploymentOf(m: Value): (r: Option<Component>)
    ensures r.Some? ==> m.Obj? && Get(m, "metadata", Obj([])).value.Obj? && DeploymentStart(m).Some?
    ensures r.Some? ==> (r.value.kind == "service" && r.value.technology == "kubernetes"
      && r.value.dependencies == [] && r.value.endpoints == []
      && r.value.name == Display(Get(Get(m, "metadata", Obj([])).value, "name", Str("unknown")).value)
      && Lookup(r.value.metadata, "kind") == Some(Str("Deployment"))
      && Lookup(r.value.metadata, "namespace") == Get(Get(m, "metadata", Obj([])).value, "namespace", Str("default"))
      && Lookup(r.value.metadata, "labels") == Get(Get(m, "metadata", Obj([])).value, "labels", Obj([])))
    // the container loop: every container's ports in order, the image of the last container
    // (no image entry without containers), and each variable from the last container setting it
    ensures r.Some? ==>
              var xs := DeploymentStart(m).value.1;
              && r.value.exposedPorts == AllContainerPorts(xs)
              && (|xs| > 0 ==> Lookup(r.value.metadata, "image") == Get(xs[|xs| - 1], "image", Str("")))
              && (|xs| == 0 ==> Lookup(r.value.metadata, "image") == None)
              && forall n :: Lookup(r.value.environmentVars, n) == LastContainerEnv(xs, n)
  {
    var start :- DeploymentStart(m);
    DeploymentMetadata(start.0.metadata[1].1, start.0.metadata[2].1);
    DeploymentLoop(start.0, start.1);
    DeployContainers(start.0, start.1)
  }

  /** The entries of the metadata a Deployment starts from. */
  lemma DeploymentMetadata(ns: Value, labels: Value)
    ensures var md := [("kind", Str("Deployment")), ("namespace", ns), ("labels", labels)];
            && Lookup(md, "kind") == Some(Str("Deployment")) && Lookup(md, "namespace") == Some(ns)
            && Lookup(md, "labels") == Some(labels) && Lookup(md, "image") == None
  {
    var md := [("kind", Str("Deployment")), ("namespace", ns), ("labels", labels)];
    assert md[1..][1..] == [("labels", labels)];
    assert Keys(md) == ["kind", "namespace", "labels"];
  }

  /** What the container loop leaves in a component that starts with no ports, variables or image. */
  lemma DeploymentLoop(c: Component, xs: seq<Value>)
    requires c.exposedPorts == [] && c.environmentVars == [] && Lookup(c.metadata, "image") == None
    ensures DeployContainers(c, xs).Some? ==>
              var r := DeployContainers(c, xs).value;
              && r.exposedPorts == AllContainerPorts(xs)
              && (|xs| > 0 ==> Lookup(r.metadata, "image") == Get(xs[|xs| - 1], "image", Str("")))
              && (|xs| == 0 ==> Lookup(r.metadata, "image") == None)
              && forall n :: Lookup(r.environmentVars, n) == LastContainerEnv(xs, n)
  {
    if DeployContainers(c, xs).Some? {
      var r := DeployContainers(c, xs).value;
      assert r.exposedPorts == AllContainerPorts(xs) by {
        DeploymentPorts(c, xs);
        assert [] + AllContainerPorts(xs) == AllContainerPorts(xs);
      }
      assert |xs| > 0 ==> Lookup(r.metadata, "image") == Get(xs[|xs| - 1], "image", Str("")) by {
        if |xs| > 0 {
          DeploymentImage(c, xs);
        }
      }
      assert forall n :: Lookup(r.environmentVars, n) == LastContainerEnv(xs, n) by {
        DeploymentLoopEnv(c, xs);
      }
    }
  }

  /** The variables of a Deployment that starts with none. */
  lemma DeploymentLoopEnv(c: Component, xs: seq<Value>)
    requires c.environmentVars == [] && DeployContainers(c, xs).Some?
    ensures forall n :: Lookup(DeployContainers(c, xs).value.environmentVars, n) == LastContainerEnv(xs, n)
  {
    forall n
      ensures Lookup(DeployContainers(c, xs).value.environmentVars, n) == LastContainerEnv(xs, n)
    {
      DeploymentEnv(c, xs, n);
    }
  }

  /** `[p.get(key) for p in ps]`, as the loop over a container's ports. */
  method CollectField(ps: seq<Value>, key: string) returns (r: Option<seq<Value>>)
    ensures r == FieldOfEach(ps, key)
  {
    var out: seq<Value> := [];
    var j := 0;
    while j < |ps|
      invariant 0 <= j <= |ps|
      invariant forall k :: 0 <= k < j ==> ps[k].Obj?
      invariant |out| == j
      invariant forall k :: 0 <= k < j ==> out[k] == Get(ps[k], key, Null).value
    {
      var p := Get(ps[j], key, Null);
      if p.None? {
        return None;
      }
      out := out + [p.value];
      j := j + 1;
    }
    assert FieldOfEach(ps, key).value == out;
    return Some(out);
  }

  /** The loop over a container's `env` entries. */
  method ApplyEnv(env0: Fields, es: seq<Value>) returns (r: Option<Fields>)
    ensures r == EnvEntries(env0, es)
  {
    var env := env0;
    var k := 0;
    while k < |es|
      invariant 0 <= k <= |es|
      invariant EnvEntries(env0, es) == EnvEntries(env, es[k..])
    {
      assert es[k..][1..] == es[k + 1..];
      var e := EnvEntry(env, es[k]);
      if e.None? {
        return None;
      }
      env := e.value;
      k := k + 1;
    }
    return Some(env);
  }

  /** One iteration of the container loop. */
  method ParseContainer(c: Component, x: Value) returns (r: Option<Component>)
    ensures r == DeployContainer(c, x)
  {
    var image := Get(x, "image", Str(""));
    var ports := Get(x, "ports", List([]));
    if image.None? || ports.None? || Iter(ports.value).None? {
      return None;
    }
    var cps := CollectField(Iter(ports.value).value, "containerPort");
    if cps.None? {
      return None;
    }
    var envs := Get(x, "env", List([]));
    if envs.None? || Iter(envs.value).None? {
      return None;
    }
    var env := ApplyEnv(c.environmentVars, Iter(envs.value).value);
    if env.None? {
      return None;
    }
    return Some(c.(metadata := SetField(c.metadata, "image", image.value), exposedPorts := c.exposedPorts + cps.value,
                   environmentVars := env.value));
  }

  /** `_parse_deployment`, with its loop over the pod template's containers. */
  method ParseDeployment(m: Value) returns (r: Option<Component>)
    ensures r == DeploymentOf(m)
  {
    var start := DeploymentStart(m);
    if start.None? {
      return None;
    }
    var c := start.value.0;
    var xs := start.value.1;
    var i := 0;
    while i < |xs|
      invariant 0 <= i <= |xs|
      invariant DeploymentOf(m) == DeployContainers(c, xs[i..])
    {
      assert xs[i..][1..] == xs[i + 1..];
      var d := ParseContainer(c, xs[i]);
      if d.None? {
        return None;
      }
      c := d.value;
      i := i + 1;
    }
    return Some(c);
  }

  /**
   * After the container loop the recorded image is the last container's,
   * while the ports and variables of all the containers accumulate.
   */
  lemma DeploymentLastImage(c: Component, xs: seq<Value>)
    requires |xs| > 0 && DeployContainers(c, xs).Some?
    ensures Lookup(DeployContainers(c, xs).value.metadata, "image") == Get(xs[|xs| - 1], "image", Str(""))
    ensures DeployContainers(c, xs).value.exposedPorts == c.exposedPorts + AllContainerPorts(xs)
    ensures forall n :: Lookup(DeployContainers(c, xs).value.environmentVars, n) ==
                      (match LastContainerEnv(xs, n) case Some(v) => Some(v) case None => Lookup(c.environmentVars, n))
  {
    DeploymentImage(c, xs);
    DeploymentPorts(c, xs);
    forall n {
      DeploymentEnv(c, xs, n);
    }
  }

  /** The image entry is the last container's image. */
  lemma {:induction false} DeploymentImage(c: Component, xs: seq<Value>)
    requires |xs| > 0 && DeployContainers(c, xs).Some?
    ensures Lookup(DeployContainers(c, xs).value.metadata, "image") == Get(xs[|xs| - 1], "image", Str(""))
    decreases |xs|
  {
    var d := DeployContainer(c, xs[0]).value;
    if |xs| > 1 {
      DeploymentImage(d, xs[1..]);
      assert xs[1..][|xs[1..]| - 1] == xs[|xs| - 1];
    }
  }

  /**
   * `_parse_service`: a kubernetes service named after the manifest
   * ('unknown' by default), exposing each port entry's `port` (None when
   * missing), with no dependencies, variables or endpoints, and metadata
   * kind Service, the spec's type ('ClusterIP' by default) and its selector
   * ({} by default). It raises when the manifest, its metadata or its spec is
   * not a mapping, or when a port entry is not one.
   */
  function ServiceOf(m: Value): (r: Option<Component>)
    ensures var md := Get(m, "metadata", Obj([])); var spec := Get(m, "spec", Obj([]));
            r.Some? <==> (&& m.Obj? && md.value.Obj? && spec.value.Obj?
                          && Iter(Get(spec.value, "ports", List([])).value).Some?
                          && FieldOfEach(Iter(Get(spec.value, "ports", List([])).value).value, "port").Some?)
    ensures r.Some? ==>
              var md := Get(m, "metadata", Obj([])).value; var spec := Get(m, "spec", Obj([])).value;
              && r.value.name == Display(Get(md, "name", Str("unknown")).value)
              && r.value.kind == "service" && r.value.technology == "kubernetes"
              && r.value.dependencies == [] && r.value.environmentVars == [] && r.value.endpoints == []
              && r.value.exposedPorts == FieldOfEach(Iter(Get(spec, "ports", List([])).value).value, "port").value
              && r.value.metadata == [("kind", Str("Service")), ("type", Get(spec, "type", Str("ClusterIP")).value),
                                      ("selector", Get(spec, "selector", Obj([])).value)]
    ensures r.Some? ==>
              var md := Get(m, "metadata", Obj([])).value; var spec := Get(m, "spec", Obj([])).value;
              && ("name" !in Keys(md.fields) ==> r.value.name == "unknown")
              && ("ports" !in Keys(spec.fields) ==> r.value.exposedPorts == [])
              && ("type" !in Keys(spec.fields) ==> r.value.metadata[1] == ("type", Str("ClusterIP")))
              && ("selector" !in Keys(spec.fields) ==> r.value.metadata[2] == ("selector", Obj([])))
    ensures r.Some? && Get(Get(m, "spec", Obj([])).value, "ports", List([])).value.List? ==>
              var ps := Get(Get(m, "spec", Obj([])).value, "ports", List([])).value.items;
              |r.value.exposedPorts| == |ps| && forall k :: 0 <= k < |ps| ==> r.value.exposedPorts[k] == Get(ps[k], "port", Null).value
  {
    var metadata :- Get(m, "metadata", Obj([]));
    var spec :- Get(m, "spec", Obj([]));
    var name :- Get(metadata, "name", Str("unknown"));
    var ports :- Get(spec, "ports", List([]));
    var ps :- Iter(ports);
    var exposed :- FieldOfEach(ps, "port");
    var typ :- Get(spec, "type", Str("ClusterIP"));
    var selector :- Get(spec, "selector", Obj([]));
    Some(Component(Display(name), "service", "kubernetes", [], exposed, [], [],
                   [("kind", Str("Service")), ("type", typ), ("selector", selector)]))
  }

  /**
   * `_parse_statefulset`: a StatefulSet is taken to be a database named
   * after the manifest ('unknown' when missing), with nothing but its kind
   * recorded.
   */
  function StatefulSetOf(m: Value): (r: Option<Component>)
    ensures r.Some? <==> m.Obj? && Get(m, "metadata", Obj([])).value.Obj?
    ensures r.Some? ==> r.value.kind == "database" && r.value.exposedPorts == []
    ensures r.Some? ==>
              var md := Get(m, "metadata", Obj([])).value;
              && r.value == Bare(Display(Get(md, "name", Str("unknown")).value), "database", "kubernetes")
                              .(metadata := [("kind", Str("StatefulSet"))])
              && ("name" !in Keys(md.fields) ==> r.value.name == "unknown")
  {
    var metadata :- Get(m, "metadata", Obj([]));
    var name :- Get(metadata, "name", Str("unknown"));
    Some(Component(Display(name), "database", "kubernetes", [], [], [], [], [("kind", Str("StatefulSet"))]))
  }

  /** `f"{host}{path.get('path', '')}"`. */
  function Endpoint(host: Value, path: Value): string
    requires path.Obj?
  {
    Display(host) + Display(Get(path, "path", Str("")).value)
  }

  /** The endpoints of one rule: the host followed by each path, in order. */
  function RuleEndpoints(host: Value, paths: seq<Value>): (r: Option<seq<string>>)
    ensures r.Some? <==> forall k :: 0 <= k < |paths| ==> paths[k].Obj?
    ensures r.Some? ==> |r.value| == |paths|
  {
    if |paths| == 0 then Some([])
    else if !paths[0].Obj? then None
    else
      match RuleEndpoints(host, paths[1..])
      case None => None
      case Some(rest) => Some([Endpoint(host, paths[0])] + rest)
  }

  /** The paths of one rule, with its host. */
  function RulePaths(rule: Value): Option<(Value, seq<Value>)> {
    var host :- Get(rule, "host", Str(""));
    var http :- Get(rule, "http", Obj([]));
    var paths :- Get(http, "paths", List([]));
    var ps :- Iter(paths);
    Some((host, ps))
  }

  /** The endpoints of one rule. */
  function RuleOf(rule: Value): Option<seq<string>> {
    var hp :- RulePaths(rule);
    RuleEndpoints(hp.0, hp.1)
  }

  function RulesEndpoints(rules: seq<Value>): Option<seq<string>> {
    if |rules| == 0 then Some([])
    else
      match RuleOf(rules[0])
      case None => None
      case Some(here) =>
        match RulesEndpoints(rules[1..])
        case None => None
        case Some(rest) => Some(here + rest)
  }

  /** The rules of an Ingress, or `[]` when they cannot be read. */
  function IngressRules(m: Value): seq<Value> {
    match Get(m, "spec", Obj([]))
    case None => []
    case Some(spec) => ListAt(spec, "rules")
  }

  /** `_parse_ingress`: endpoints host+path per rule and path; ports 80 and 443. */
  function IngressOf(m: Value): (r: Option<Component>)
    ensures r.Some? <==>
              var md := Get(m, "metadata", Obj([])); var spec := Get(m, "spec", Obj([]));
              && m.Obj? && md.value.Obj? && spec.value.Obj?
              && Iter(Get(spec.value, "rules", List([])).value).Some?
              && RulesEndpoints(Iter(Get(spec.value, "rules", List([])).value).value).Some?
    ensures r.Some? ==>
              var md := Get(m, "metadata", Obj([])).value;
              && r.value.name == Display(Get(md, "name", Str("unknown")).value)
              && ("name" !in Keys(md.fields) ==> r.value.name == "unknown")
              && r.value.dependencies == [] && r.value.environmentVars == []
    ensures r.Some? ==> (r.value.kind == "ingress" && r.value.technology == "kubernetes"
      && r.value.exposedPorts == [Int(80), Int(443)] && r.value.metadata == [("kind", Str("Ingress"))]
      && RulesEndpoints(IngressRules(m)).Some? && r.value.endpoints == RulesEndpoints(IngressRules(m)).value)
  {
    var metadata :- Get(m, "metadata", Obj([]));
    var spec :- Get(m, "spec", Obj([]));
    var rules :- Get(spec, "rules", List([]));
    var rs :- Iter(rules);
    var endpoints :- RulesEndpoints(rs);
    var name :- Get(metadata, "name", Str("unknown"));
    Some(Component(Display(name), "ingress", "kubernetes", [], [Int(80), Int(443)], [], endpoints,
                   [("kind", Str("Ingress"))]))
  }

  /** Each endpoint of a rule is its host followed by the matching path. */
  lemma {:induction false} RuleEndpointsAt(host: Value, paths: seq<Value>, k: int)
    requires RuleEndpoints(host, paths).Some? && 0 <= k < |paths|
    ensures paths[k].Obj? && RuleEndpoints(host, paths).value[k] == Endpoint(host, paths[k])
  {
    if k > 0 {
      RuleEndpointsAt(host, paths[1..], k - 1);
    }
  }

  /** An endpoint comes from exactly one path of the rule: the host followed by that path. */
  lemma {:induction false} RuleEndpointsMembers(host: Value, paths: seq<Value>, e: string)
    requires RuleEndpoints(host, paths).Some?
    ensures e in RuleEndpoints(host, paths).value <==>
      exists k :: 0 <= k < |paths| && paths[k].Obj? && e == Endpoint(host, paths[k])
  {
    if |paths| > 0 {
      RuleEndpointsMembers(host, paths[1..], e);
      assert forall k :: 1 <= k < |paths| ==> paths[k] == paths[1..][k - 1];
      if e in RuleEndpoints(host, paths[1..]).value {
        var k :| 0 <= k < |paths[1..]| && paths[1..][k].Obj? && e == Endpoint(host, paths[1..][k]);
        assert paths[k + 1] == paths[1..][k];
      }
    }
  }

  /** An Ingress endpoint is exactly an endpoint of one of its rules. */
  lemma {:induction false} RulesEndpointsMembers(rs: seq<Value>, e: string)
    requires RulesEndpoints(rs).Some?
    ensures e in RulesEndpoints(rs).value <==>
      exists i :: 0 <= i < |rs| && RuleOf(rs[i]).Some? && e in RuleOf(rs[i]).value
  {
    if |rs| > 0 {
      RulesEndpointsMembers(rs[1..], e);
      assert forall i :: 1 <= i < |rs| ==> rs[i] == rs[1..][i - 1];
      if e in RulesEndpoints(rs[1..]).value {
        var i :| 0 <= i < |rs[1..]| && RuleOf(rs[1..][i]).Some? && e in RuleOf(rs[1..][i]).value;
        assert rs[i + 1] == rs[1..][i];
      }
    }
  }

  /** The endpoints from path `j` on: none when it is not a mapping, else its endpoint before the rest. */
  lemma RuleEndpointsFrom(host: Value, ps: seq<Value>, j: nat)
    requires j < |ps|
    ensures !ps[j].Obj? ==> RuleEndpoints(host, ps[j..]).None?
    ensures ps[j].Obj? ==> (RuleEndpoints(host, ps[j..]) ==
      match RuleEndpoints(host, ps[j + 1..]) case None => None case Some(rest) => Some([Endpoint(host, ps[j])] + rest))
  {
    assert ps[j..][0] == ps[j] && ps[j..][1..] == ps[j + 1..];
  }

  /** The loop over one rule's paths. */
  method CollectEndpoints(host: Value, ps: seq<Value>) returns (r: Option<seq<string>>)
    ensures r == RuleEndpoints(host, ps)
  {
    var here: seq<string> := [];
    var j := 0;
    while j < |ps|
      invariant 0 <= j <= |ps|
      invariant RuleEndpoints(host, ps).Some? <==> RuleEndpoints(host, ps[j..]).Some?
      invariant RuleEndpoints(host, ps).Some? ==> RuleEndpoints(host, ps).value == here + RuleEndpoints(host, ps[j..]).value
    {
      RuleEndpointsFrom(host, ps, j);
      if !ps[j].Obj? {
        return None;
      }
      if RuleEndpoints(host, ps[j + 1..]).Some? {
        AppendAssoc(here, [Endpoint(host, ps[j])], RuleEndpoints(host, ps[j + 1..]).value);
      }
      here := here + [Endpoint(host, ps[j])];
      j := j + 1;
    }
    assert ps[j..] == [];
    assert here + [] == here;
    return Some(here);
  }

  /** One rule of an Ingress. */
  method ParseRule(rule: Value) returns (r: Option<seq<string>>)
    ensures r == RuleOf(rule)
  {
    var hp := RulePaths(rule);
    if hp.None? {
      return None;
    }
    r := CollectEndpoints(hp.value.0, hp.value.1);
  }

  /** The loop over an Ingress's rules. */
  method CollectRules(rs: seq<Value>) returns (r: Option<seq<string>>)
    ensures r == RulesEndpoints(rs)
  {
    var endpoints: seq<string> := [];
    var i := 0;
    while i < |rs|
      invariant 0 <= i <= |rs|
      invariant RulesEndpoints(rs).Some? <==> RulesEndpoints(rs[i..]).Some?
      invariant RulesEndpoints(rs).Some? ==> RulesEndpoints(rs).value == endpoints + RulesEndpoints(rs[i..]).value
    {
      assert rs[i..][1..] == rs[i + 1..];
      var here := ParseRule(rs[i]);
      if here.None? {
        return None;
      }
      endpoints := endpoints + here.value;
      i := i + 1;
    }
    assert rs[i..] == [];
    assert endpoints + [] == endpoints;
    return Some(endpoints);
  }

  /** `_parse_ingress`. */
  method ParseIngress(m: Value) returns (r: Option<Component>)
    ensures r == IngressOf(m)
  {
    var metadata := Get(m, "metadata", Obj([]));
    var spec := Get(m, "spec", Obj([]));
    if metadata.None? || spec.None? {
      return None;
    }
    var rules := Get(spec.value, "rules", List([]));
    if rules.None? || Iter(rules.value).None? {
      return None;
    }
    var endpoints := CollectRules(Iter(rules.value).value);
    if endpoints.None? {
      return None;
    }
    var name := Get(metadata.value, "name", Str("unknown"));
    if name.None? {
      return None;
    }
    return Some(Component(Display(name.value), "ingress", "kubernetes", [], [Int(80), Int(443)], [], endpoints.value,
                          [("kind", Str("Ingress"))]));
  }

  /** The four manifest kinds the parser turns into components. */
  predicate ParsedKind(m: Value) {
    m.Obj? && Get(m, "kind", Str("")).value in [Str("Deployment"), Str("Service"), Str("StatefulSet"), Str("Ingress")]
  }

  /** The components of one document: none for an empty document or another kind. */
  function ManifestComponents(m: Value): (r: Option<seq<Component>>)
    ensures !Truthy(m) ==> r == Some([])
    ensures Truthy(m) && !m.Obj? ==> r.None?
    ensures Truthy(m) && m.Obj? && Get(m, "kind", Str("")).value == Str("Deployment") ==>
              r == (match DeploymentOf(m) case Some(c) => Some([c]) case None => None)
    ensures Truthy(m) && m.Obj? && Get(m, "kind", Str("")).value == Str("Service") ==>
              r == (match ServiceOf(m) case Some(c) => Some([c]) case None => None)
    ensures Truthy(m) && m.Obj? && Get(m, "kind", Str("")).value == Str("StatefulSet") ==>
              r == (match StatefulSetOf(m) case Some(c) => Some([c]) case None => None)
    ensures Truthy(m) && m.Obj? && Get(m, "kind", Str("")).value == Str("Ingress") ==>
              r == (match IngressOf(m) case Some(c) => Some([c]) case None => None)
    ensures Truthy(m) && m.Obj? && !ParsedKind(m) ==> r == Some([])
  {
    if !Truthy(m) then Some([])
    else
      var kind :- Get(m, "kind", Str(""));
      if kind == Str("Deployment") then
        var c :- DeploymentOf(m); Some([c])
      else if kind == Str("Service") then
        var c :- ServiceOf(m); Some([c])
      else if kind == Str("StatefulSet") then
        var c :- StatefulSetOf(m); Some([c])
      else if kind == Str("Ingress") then
        var c :- IngressOf(m); Some([c])
      else Some([])
  }

  function ManifestsComponents(ms: seq<Value>): Option<seq<Component>> {
    if |ms| == 0 then Some([])
    else
      match ManifestComponents(ms[0])
      case None => None
      case Some(here) =>
        match ManifestsComponents(ms[1..])
        case None => None
        case Some(rest) => Some(here + rest)
  }

  /** One document of `KubernetesParser.parse`, dispatched on its kind. */
  method ParseManifest(m: Value) returns (r: Option<seq<Component>>)
    ensures r == ManifestComponents(m)
  {
    if !Truthy(m) {
      return Some([]);
    }
    var kind := Get(m, "kind", Str(""));
    if kind.None? {
      return None;
    }
    if kind.value == Str("Deployment") {
      var c := ParseDeployment(m);
      r := if c.Some? then Some([c.value]) else None;
    } else if kind.value == Str("Ingress") {
      var c := ParseIngress(m);
      r := if c.Some? then Some([c.value]) else None;
    } else {
      r := ManifestComponents(m);
    }
  }

  /** `KubernetesParser.parse` on the documents of one file. */
  method ParseManifests(ms: seq<Value>) returns (r: Option<seq<Component>>)
    ensures r == ManifestsComponents(ms)
  {
    var out: seq<Component> := [];
    var i := 0;
    while i < |ms|
      invariant 0 <= i <= |ms|
      invariant ManifestsComponents(ms).Some? <==> ManifestsComponents(ms[i..]).Some?
      invariant ManifestsComponents(ms).Some? ==> ManifestsComponents(ms).value == out + ManifestsComponents(ms[i..]).value
    {
      assert ms[i..][1..] == ms[i + 1..];
      var cs := ParseManifest(ms[i]);
      if cs.None? {
        return None;
      }
      out := out + cs.value;
      i := i + 1;
    }
    assert ms[i..] == [];
    assert out + [] == out;
    return Some(out);
  }

  /** The number of non-empty documents of a parsed kind. */
  function CountParsed(ms: seq<Value>): nat {
    if |ms| == 0 then 0 else (if Truthy(ms[0]) && ParsedKind(ms[0]) then 1 else 0) + CountParsed(ms[1..])
  }

  /** One component per non-empty Deployment, Service, StatefulSet or Ingress document. */
  lemma {:induction false} ManifestsCount(ms: seq<Value>)
    requires ManifestsComponents(ms).Some?
    ensures |ManifestsComponents(ms).value| == CountParsed(ms)
  {
    if |ms| > 0 {
      ManifestOne(ms[0]);
      ManifestsCount(ms[1..]);
    }
  }

  /** A document yields one component if it is non-empty and of a parsed kind, and none otherwise. */
  lemma ManifestOne(m: Value)
    requires ManifestComponents(m).Some?
    ensures |ManifestComponents(m).value| == if Truthy(m) && ParsedKind(m) then 1 else 0
  {
  }

  // ---------------------------------------------------------------- Terraform

  /** The component kinds `_parse_resource` produces. */
  const ResourceKinds: set<string> := {"compute", "database", "cache", "load_balancer"}

  /**
   * `_parse_resource`.  The outer None is a raised exception (a `.get` on a
   * non-mapping configuration); the inner None is the function's own None
   * for a resource type it does not know.
   */
  function ResourceOf(rtype: string, name: string, config: Value): (r: Option<Option<Component>>)
    ensures r == Some(None) <==> rtype !in {"aws_instance", "aws_rds_instance", "aws_elasticache_cluster", "aws_lb"}
    ensures r.None? <==> rtype in {"aws_instance", "aws_rds_instance", "aws_elasticache_cluster", "aws_lb"} && !config.Obj?
    ensures r.Some? && r.value.Some? ==> (r.value.value.name == name && r.value.value.kind in ResourceKinds
      && r.value.value.dependencies == [] && r.value.value.environmentVars == [] && r.value.value.endpoints == [])
    ensures rtype == "aws_instance" && config.Obj? ==>
      r.value.value.kind == "compute" && r.value.value.technology == "aws_ec2" && r.value.value.exposedPorts == []
      && r.value.value.metadata == [("instance_type", Get(config, "instance_type", Null).value),
                                    ("ami", Get(config, "ami", Null).value)]
    ensures rtype == "aws_rds_instance" && config.Obj? ==>
      r.value.value.kind == "database" && r.value.value.technology == "aws_rds"
      && r.value.value.exposedPorts == [Get(config, "port", Int(5432)).value]
      && r.value.value.metadata == [("engine", Get(config, "engine", Null).value),
                                    ("instance_class", Get(config, "instance_class", Null).value)]
    ensures rtype == "aws_elasticache_cluster" && config.Obj? ==>
      r.value.value.kind == "cache" && r.value.value.technology == "aws_elasticache" && r.value.value.exposedPorts == []
      && r.value.value.metadata == [("engine", Get(config, "engine", Null).value),
                                    ("node_type", Get(config, "node_type", Null).value)]
    ensures rtype == "aws_lb" && config.Obj? ==>
      r.value.value.kind == "load_balancer" && r.value.value.technology == "aws_alb"
      && r.value.value.exposedPorts == [Int(80), Int(443)]
      && r.value.value.metadata == [("load_balancer_type", Get(config, "load_balancer_type", Null).value)]
  {
    if rtype == "aws_instance" then
      var it :- Get(config, "instance_type", Null);
      var ami :- Get(config, "ami", Null);
      Some(Some(Component(name, "compute", "aws_ec2", [], [], [], [], [("instance_type", it), ("ami", ami)])))
    else if rtype == "aws_rds_instance" then
      var port :- Get(config, "port", Int(5432));
      var engine :- Get(config, "engine", Null);
      var ic :- Get(config, "instance_class", Null);
      Some(Some(Component(name, "database", "aws_rds", [], [port], [], [], [("engine", engine), ("instance_class", ic)])))
    else if rtype == "aws_elasticache_cluster" then
      var engine :- Get(config, "engine", Null);
      var nt :- Get(config, "node_type", Null);
      Some(Some(Component(name, "cache", "aws_elasticache", [], [], [], [], [("engine", engine), ("node_type", nt)])))
    else if rtype == "aws_lb" then
      var lbt :- Get(config, "load_balancer_type", Null);
      Some(Some(Component(name, "load_balancer", "aws_alb", [], [Int(80), Int(443)], [], [], [("load_balancer_type", lbt)])))
    else Some(None)
  }

  /** The resources of one type, in order, keeping those `_parse_resource` recognises. */
  function ResourcesOfType(rtype: string, named: Fields): Option<seq<Component>> {
    if |named| == 0 then Some([])
    else
      match ResourceOf(rtype, named[0].0, named[0].1)
      case None => None
      case Some(c) =>
        match ResourcesOfType(rtype, named[1..])
        case None => None
        case Some(rest) => Some((if c.Some? then [c.value] else []) + rest)
  }

  function ResourceTypes(types: Fields): Option<seq<Component>> {
    if |types| == 0 then Some([])
    else
      var named := types[0].1;
      if !named.Obj? then None
      else
        match ResourcesOfType(types[0].0, named.fields)
        case None => None
        case Some(here) =>
          match ResourceTypes(types[1..])
          case None => None
          case Some(rest) => Some(here + rest)
  }

  /** `TerraformParser.parse` on a loaded configuration. */
  function TerraformOf(tf: Value): (r: Option<seq<Component>>)
    ensures tf.Obj? && "resource" !in Keys(tf.fields) ==> r == Some([])
    ensures r.Some? ==> forall c :: c in r.value ==> c.kind in ResourceKinds
    ensures r.Some? ==> Get(tf, "resource", Obj([])).Some? && Get(tf, "resource", Obj([])).value.Obj?
    ensures r.Some? ==>
              var types := Get(tf, "resource", Obj([])).value.fields;
              && (forall c :: c in r.value <==> exists i, j :: RecognisedIn(types, i, j, c))
              && |r.value| == RecognisedCount(types)
  {
    var res :- Get(tf, "resource", Obj([]));
    if !res.Obj? then None
    else
      var cs := ResourceTypes(res.fields);
      if cs.Some? then TerraformKinds(res.fields); ResourceTypesMembers(res.fields); cs else cs
  }

  /** The loop over the resources of one type. */
  method CollectResources(rtype: string, named: Fields) returns (r: Option<seq<Component>>)
    ensures r == ResourcesOfType(rtype, named)
  {
    var here: seq<Component> := [];
    var j := 0;
    while j < |named|
      invariant 0 <= j <= |named|
      invariant ResourcesOfType(rtype, named).Some? <==> ResourcesOfType(rtype, named[j..]).Some?
      invariant ResourcesOfType(rtype, named).Some? ==>
        ResourcesOfType(rtype, named).value == here + ResourcesOfType(rtype, named[j..]).value
    {
      assert named[j..][1..] == named[j + 1..];
      var c := ResourceOf(rtype, named[j].0, named[j].1);
      if c.None? {
        return None;
      }
      if c.value.Some? {
        here := here + [c.value.value];
      }
      j := j + 1;
    }
    assert named[j..] == [];
    assert here + [] == here;
    return Some(here);
  }

  /** `TerraformParser.parse`, with its loops over resource types and names. */
  method ParseTerraform(tf: Value) returns (r: Option<seq<Component>>)
    ensures r == TerraformOf(tf)
  {
    var res := Get(tf, "resource", Obj([]));
    if res.None? || !res.value.Obj? {
      return None;
    }
    var types := res.value.fields;
    var out: seq<Component> := [];
    var i := 0;
    while i < |types|
      invariant 0 <= i <= |types|
      invariant ResourceTypes(types).Some? <==> ResourceTypes(types[i..]).Some?
      invariant ResourceTypes(types).Some? ==> ResourceTypes(types).value == out + ResourceTypes(types[i..]).value
    {
      assert types[i..][1..] == types[i + 1..];
      var rtype := types[i].0;
      if !types[i].1.Obj? {
        return None;
      }
      var here := CollectResources(rtype, types[i].1.fields);
      if here.None? {
        return None;
      }
      out := out + here.value;
      i := i + 1;
    }
    assert types[i..] == [];
    assert out + [] == out;
    return Some(out);
  }

  /** Every Terraform component is a compute, database, cache or load-balancer component. */
  lemma {:induction false} TerraformKinds(types: Fields)
    requires ResourceTypes(types).Some?
    ensures forall c :: c in ResourceTypes(types).value ==> c.kind in ResourceKinds
  {
    if |types| > 0 {
      ResourcesOfTypeKinds(types[0].0, types[0].1.fields);
      TerraformKinds(types[1..]);
    }
  }

  lemma {:induction false} ResourcesOfTypeKinds(rtype: string, named: Fields)
    requires ResourcesOfType(rtype, named).Some?
    ensures forall c :: c in ResourcesOfType(rtype, named).value ==> c.kind in ResourceKinds
  {
    if |named| > 0 {
      ResourcesOfTypeKinds(rtype, named[1..]);
    }
  }

  /** Resource `j` of `named` is one `_parse_resource` turns into the component `c`. */
  predicate RecognisedAs(rtype: string, named: Fields, j: int, c: Component) {
    0 <= j < |named| && ResourceOf(rtype, named[j].0, named[j].1) == Some(Some(c))
  }

  /** The positions of the resources of one type that `_parse_resource` turns into a component. */
  function RecognisedPositions(rtype: string, named: Fields): set<int> {
    set j | 0 <= j < |named| && ResourceOf(rtype, named[j].0, named[j].1).Some?
                             && ResourceOf(rtype, named[j].0, named[j].1).value.Some?
  }

  function Shifted(s: set<int>): set<int> {
    set j | j in s :: j + 1
  }

  lemma {:induction false} ShiftedSize(s: set<int>)
    ensures |Shifted(s)| == |s|
    decreases |s|
  {
    if s != {} {
      assert (forall y :: y !in s) ==> s == {};
      var x :| x in s;
      ShiftedSize(s - {x});
      forall y
        ensures y in Shifted(s) <==> y in Shifted(s - {x}) + {x + 1}
      {
        if y in Shifted(s) && y != x + 1 {
          assert y - 1 in s - {x};
        }
      }
      assert Shifted(s) == Shifted(s - {x}) + {x + 1};
    }
  }

  /** The recognised positions of `named` are position 0, if recognised, and those of its tail moved up by one. */
  lemma PositionsStep(rtype: string, named: Fields)
    requires |named| > 0
    ensures |RecognisedPositions(rtype, named)| ==
            (if ResourceOf(rtype, named[0].0, named[0].1).Some? && ResourceOf(rtype, named[0].0, named[0].1).value.Some?
             then 1 else 0) + |RecognisedPositions(rtype, named[1..])|
  {
    var tail := RecognisedPositions(rtype, named[1..]);
    var head: set<int> := if ResourceOf(rtype, named[0].0, named[0].1).Some?
                              && ResourceOf(rtype, named[0].0, named[0].1).value.Some? then {0} else {};
    forall j | 1 <= j < |named|
      ensures named[j] == named[1..][j - 1]
    {
    }
    forall y
      ensures y in RecognisedPositions(rtype, named) <==> y in head + Shifted(tail)
    {
      if y in RecognisedPositions(rtype, named) && y != 0 {
        assert y - 1 in tail;
      }
    }
    assert RecognisedPositions(rtype, named) == head + Shifted(tail);
    assert 0 !in Shifted(tail);
    ShiftedSize(tail);
  }

  /**
   * The resources of one type parse exactly when `_parse_resource` raises on none of them; the
   * components are then exactly those it returns, one per recognised resource.
   */
  lemma {:induction false} ResourcesOfTypeMembers(rtype: string, named: Fields)
    ensures ResourcesOfType(rtype, named).Some? <==>
            forall j :: 0 <= j < |named| ==> ResourceOf(rtype, named[j].0, named[j].1).Some?
    ensures ResourcesOfType(rtype, named).Some? ==>
              forall c :: c in ResourcesOfType(rtype, named).value <==> exists j :: RecognisedAs(rtype, named, j, c)
    ensures ResourcesOfType(rtype, named).Some? ==>
              |ResourcesOfType(rtype, named).value| == |RecognisedPositions(rtype, named)|
    decreases |named|
  {
    if |named| > 0 {
      var tail := named[1..];
      ResourcesOfTypeMembers(rtype, tail);
      forall j | 1 <= j < |named|
        ensures named[j] == tail[j - 1]
      {
      }
      if ResourcesOfType(rtype, named).Some? {
        var head := ResourceOf(rtype, named[0].0, named[0].1).value;
        var all := ResourcesOfType(rtype, named).value;
        assert all == (if head.Some? then [head.value] else []) + ResourcesOfType(rtype, tail).value;
        forall c
          ensures c in all <==> exists j :: RecognisedAs(rtype, named, j, c)
        {
          if c in all {
            if head == Some(c) {
              assert RecognisedAs(rtype, named, 0, c);
            } else {
              var j :| RecognisedAs(rtype, tail, j, c);
              assert RecognisedAs(rtype, named, j + 1, c);
            }
          }
          if exists j :: RecognisedAs(rtype, named, j, c) {
            var j :| RecognisedAs(rtype, named, j, c);
            if j > 0 {
              assert RecognisedAs(rtype, tail, j - 1, c);
            }
          }
        }
        PositionsStep(rtype, named);
      }
    }
  }

  /** How many resources of a `resource` block `_parse_resource` turns into a component. */
  function RecognisedCount(types: Fields): nat {
    if |types| == 0 then 0
    else (if types[0].1.Obj? then |RecognisedPositions(types[0].0, types[0].1.fields)| else 0) + RecognisedCount(types[1..])
  }

  /** Resource `j` of type `i` in a `resource` block is turned into the component `c`. */
  predicate RecognisedIn(types: Fields, i: int, j: int, c: Component) {
    0 <= i < |types| && types[i].1.Obj? && RecognisedAs(types[i].0, types[i].1.fields, j, c)
  }

  /**
   * A `resource` block parses exactly when every type maps to a dictionary whose resources parse;
   * its components are then exactly the recognised resources of every type, one per resource.
   */
  lemma {:induction false} ResourceTypesMembers(types: Fields)
    ensures ResourceTypes(types).Some? <==>
            forall i :: 0 <= i < |types| ==> types[i].1.Obj? && ResourcesOfType(types[i].0, types[i].1.fields).Some?
    ensures ResourceTypes(types).Some? ==>
              forall c :: c in ResourceTypes(types).value <==> exists i, j :: RecognisedIn(types, i, j, c)
    ensures ResourceTypes(types).Some? ==> |ResourceTypes(types).value| == RecognisedCount(types)
    decreases |types|
  {
    if |types| > 0 {
      var tail := types[1..];
      ResourceTypesMembers(tail);
      forall i | 1 <= i < |types|
        ensures types[i] == tail[i - 1]
      {
      }
      if ResourceTypes(types).Some? {
        ResourcesOfTypeMembers(types[0].0, types[0].1.fields);
        var here := ResourcesOfType(types[0].0, types[0].1.fields).value;
        var all := ResourceTypes(types).value;
        assert all == here + ResourceTypes(tail).value;
        forall c
          ensures c in all <==> exists i, j :: RecognisedIn(types, i, j, c)
        {
          if c in all {
            if c in here {
              var j :| RecognisedAs(types[0].0, types[0].1.fields, j, c);
              assert RecognisedIn(types, 0, j, c);
            } else {
              var i, j :| RecognisedIn(tail, i, j, c);
              assert RecognisedIn(types, i + 1, j, c);
            }
          }
          if exists i, j :: RecognisedIn(types, i, j, c) {
            var i, j :| RecognisedIn(types, i, j, c);
            if i > 0 {
              assert RecognisedIn(tail, i - 1, j, c);
            }
          }
        }
      }
    }
  }
}
