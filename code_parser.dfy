/**
 * `src/scanner/parsers/code_parser.py`: an older copy of the Dockerfile line
 * parser, the Kubernetes resource reader and container extraction, the
 * Terraform flattening, and the decorator naming of the Python code parser.
 * A raised exception is `None`.
 */
module CodeParser {
  import opened Wrappers
  import opened Strings
  import opened Values
  import opened PyDict
  import DockerParser

  type DockerfileInfo = DockerParser.DockerfileInfo

  // ---------------------------------------------------------------- Dockerfile, older form

  /**
   * The variable an `ENV` line defines in the older parser: only the
   * `ENV K=V rest` form, split at the first `=`; `ENV K V` defines nothing.
   */
  function OldEnvPair(line: string): (r: Option<(string, string)>)
    ensures r.Some? <==> |TokensMax(line, 2)| >= 3 && '=' in TokensMax(line, 2)[1]
    ensures r.Some? ==> TokensMax(line, 2)[1] == r.value.0 + "=" + r.value.1 && '=' !in r.value.0
    ensures r.Some? ==> r == DockerParser.EnvPair(line)
  {
    var parts := TokensMax(line, 2);
    if |parts| >= 3 && '=' in parts[1] then DockerParser.EnvPair(line) else None
  }

  /** One iteration of the older line loop; a bare `FROM` or `WORKDIR` raises. */
  function OldLine(info: DockerfileInfo, raw: string): (r: Option<DockerfileInfo>)
    ensures info.environment.Valid() && r.Some? ==> r.value.environment.Valid()
  {
    var k := DockerParser.Classify(Strip(raw));
    if k.From? && k.image.None? then None
    else if k.Workdir? && k.dir.None? then None
    else if k.Env? then
      match OldEnvPair(Strip(raw))
      case Some(kv) => Some(info.(environment := info.environment.Put(kv.0, kv.1)))
      case None => Some(info)
    else Some(DockerParser.Apply(info, k))
  }

  /** The older parser raises on a line exactly when it is a `FROM` or `WORKDIR` without an argument. */
  lemma OldLineNone(info: DockerfileInfo, raw: string)
    ensures OldLine(info, raw).None? <==> OldLineFails(raw)
  {
    DockerParser.KeywordsExclusive(Strip(raw));
  }

  /** The older line loop from `info` over `lines`. */
  function OldLines(info: DockerfileInfo, lines: seq<string>): (r: Option<DockerfileInfo>)
    ensures info.environment.Valid() && r.Some? ==> r.value.environment.Valid()
    decreases |lines|
  {
    if |lines| == 0 then Some(info)
    else
      match OldLine(info, lines[0])
      case None => None
      case Some(d) => OldLines(d, lines[1..])
  }

  /** The older `parse_dockerfile` on the file's text. */
  method ParseDockerfileOld(content: string) returns (r: Option<DockerfileInfo>)
    ensures r == OldLines(DockerParser.InfoStart(), SplitOn(content, '\n'))
  {
    var lines := SplitOn(content, '\n');
    var info := DockerParser.InfoStart();
    var i := 0;
    while i < |lines|
      invariant 0 <= i <= |lines|
      invariant OldLines(DockerParser.InfoStart(), lines) == OldLines(info, lines[i..])
    {
      assert lines[i..][1..] == lines[i + 1..];
      var d := OldLine(info, lines[i]);
      if d.None? {
        return None;
      }
      info := d.value;
      i := i + 1;
    }
    return Some(info);
  }

  /** A line on which the older parser raises: once stripped, a `FROM` or `WORKDIR` with no argument. */
  predicate OldLineFails(raw: string) {
    var line := Strip(raw);
    ("FROM" <= line || "WORKDIR" <= line) && DockerParser.Argument(line).None?
  }

  /** Some line of `lines` is one on which the older parser raises. */
  predicate AnyFails(lines: seq<string>)
    decreases |lines|
  {
    |lines| > 0 && (OldLineFails(lines[0]) || AnyFails(lines[1..]))
  }

  /** `AnyFails` is the existence of a failing line. */
  lemma {:induction false} AnyFailsExists(lines: seq<string>)
    ensures AnyFails(lines) <==> exists i :: 0 <= i < |lines| && OldLineFails(lines[i])
    decreases |lines|
  {
    if |lines| > 0 {
      AnyFailsExists(lines[1..]);
      if exists i :: 0 <= i < |lines| && OldLineFails(lines[i]) {
        var i :| 0 <= i < |lines| && OldLineFails(lines[i]);
        if i > 0 {
          assert lines[1..][i - 1] == lines[i];
        }
      }
      if exists j :: 0 <= j < |lines[1..]| && OldLineFails(lines[1..][j]) {
        var j :| 0 <= j < |lines[1..]| && OldLineFails(lines[1..][j]);
        assert lines[1..][j] == lines[j + 1];
      }
    }
  }

  /** The older parser raises exactly when some line is a `FROM` or `WORKDIR` without an argument. */
  lemma {:induction false} OldFails(info: DockerfileInfo, lines: seq<string>)
    ensures OldLines(info, lines).None? <==> exists i :: 0 <= i < |lines| && OldLineFails(lines[i])
  {
    OldFailsAny(info, lines);
    AnyFailsExists(lines);
  }

  /** The induction behind `OldFails`. */
  lemma {:induction false} OldFailsAny(info: DockerfileInfo, lines: seq<string>)
    ensures OldLines(info, lines).None? <==> AnyFails(lines)
    decreases |lines|
  {
    if |lines| > 0 {
      OldLineNone(info, lines[0]);
      if OldLine(info, lines[0]).Some? {
        OldFailsAny(OldLine(info, lines[0]).value, lines[1..]);
      }
    }
  }

  /** The fields on which the two Dockerfile parsers agree. */
  predicate SameFacts(a: DockerfileInfo, b: DockerfileInfo) {
    a.baseImage == b.baseImage && a.exposedPorts == b.exposedPorts && a.commands == b.commands && a.workdir == b.workdir
  }

  /**
   * Where the older parser does not raise, it finds the same base image,
   * ports, commands and working directory as the newer one; only the
   * environment can differ.
   */
  lemma {:induction false} OldAgreesWithNew(a: DockerfileInfo, b: DockerfileInfo, lines: seq<string>)
    requires SameFacts(a, b)
    requires OldLines(a, lines).Some?
    ensures SameFacts(OldLines(a, lines).value, DockerParser.InfoLines(b, lines))
    decreases |lines|
  {
    if |lines| > 0 {
      OldLineAgrees(a, b, lines[0]);
      OldAgreesWithNew(OldLine(a, lines[0]).value, DockerParser.InfoLine(b, lines[0]), lines[1..]);
    }
  }

  /** One line of the older loop keeps the facts the two parsers agree on. */
  lemma OldLineAgrees(a: DockerfileInfo, b: DockerfileInfo, raw: string)
    requires SameFacts(a, b) && OldLine(a, raw).Some?
    ensures SameFacts(OldLine(a, raw).value, DockerParser.InfoLine(b, raw))
  {
    var k := DockerParser.Classify(Strip(raw));
    assert DockerParser.InfoLine(b, raw) == DockerParser.Apply(b, k);
    if !k.Env? {
      assert OldLine(a, raw).value == DockerParser.Apply(a, k);
    }
  }

  // ---------------------------------------------------------------- Kubernetes

  /** A Kubernetes document as the older parser records it. */
  datatype K8sResource = K8sResource(kind: Value, name: Value, namespace: Value, labels: Value, spec: Value)

  /** One non-empty document; None when it or its metadata is not a mapping. */
  function ResourceOf(doc: Value): (r: Option<K8sResource>)
    ensures r.None? <==> !doc.Obj? || !Lookup(doc.fields, "metadata").GetOr(Obj([])).Obj?
    ensures r.Some? ==> r.value.kind == Lookup(doc.fields, "kind").GetOr(Null)
    ensures r.Some? ==> var md := Lookup(doc.fields, "metadata").GetOr(Obj([]));
      "namespace" !in Keys(md.fields) ==> r.value.namespace == Str("default")
  {
    var kind :- Get(doc, "kind", Null);
    var md :- Get(doc, "metadata", Obj([]));
    var name :- Get(md, "name", Null);
    var ns :- Get(md, "namespace", Str("default"));
    var labels :- Get(md, "labels", Obj([]));
    var spec :- Get(doc, "spec", Obj([]));
    Some(K8sResource(kind, name, ns, labels, spec))
  }

  /** `KubernetesParser.parse` on the documents of a file: empty documents are skipped. */
  function ResourcesOf(docs: seq<Value>): Option<seq<K8sResource>> {
    if |docs| == 0 then Some([])
    else if !Truthy(docs[0]) then ResourcesOf(docs[1..])
    else
      match ResourceOf(docs[0])
      case None => None
      case Some(res) =>
        match ResourcesOf(docs[1..])
        case None => None
        case Some(rest) => Some([res] + rest)
  }

  /** `KubernetesParser.parse`, with its loop over documents. */
  method ParseResources(docs: seq<Value>) returns (r: Option<seq<K8sResource>>)
    ensures r == ResourcesOf(docs)
  {
    var out: seq<K8sResource> := [];
    var i := 0;
    while i < |docs|
      invariant 0 <= i <= |docs|
      invariant ResourcesOf(docs).Some? <==> ResourcesOf(docs[i..]).Some?
      invariant ResourcesOf(docs).Some? ==> ResourcesOf(docs).value == out + ResourcesOf(docs[i..]).value
    {
      assert docs[i..][1..] == docs[i + 1..];
      if Truthy(docs[i]) {
        var res := ResourceOf(docs[i]);
        if res.None? {
          return None;
        }
        out := out + [res.value];
      }
      i := i + 1;
    }
    assert docs[i..] == [];
    assert out + [] == out;
    return Some(out);
  }

  /** The number of non-empty documents. */
  function CountTruthy(docs: seq<Value>): nat {
    if |docs| == 0 then 0 else (if Truthy(docs[0]) then 1 else 0) + CountTruthy(docs[1..])
  }

  /** One resource per non-empty document, in order. */
  lemma {:induction false} ResourcesCount(docs: seq<Value>)
    requires ResourcesOf(docs).Some?
    ensures |ResourcesOf(docs).value| == CountTruthy(docs)
  {
    if |docs| > 0 {
      ResourcesCount(docs[1..]);
    }
  }

  /** The workload kinds whose containers are extracted. */
  predicate HasContainers(kind: Value) {
    kind in [Str("Deployment"), Str("StatefulSet"), Str("DaemonSet"), Str("Pod")]
  }

  /** The pod specification: a Pod's own `spec`, otherwise `spec.template.spec`. */
  function PodSpec(res: K8sResource): Option<Value> {
    if res.kind == Str("Pod") then Some(res.spec)
    else
      var template :- Get(res.spec, "template", Obj([]));
      Get(template, "spec", Obj([]))
  }

  /** The entry recorded for one container. */
  function ContainerEntry(c: Value): (r: Option<Value>)
    ensures r.Some? <==> c.Obj?
  {
    var name :- Get(c, "name", Null);
    var image :- Get(c, "image", Null);
    var ports :- Get(c, "ports", List([]));
    var env :- Get(c, "env", List([]));
    var resources :- Get(c, "resources", Obj([]));
    Some(Obj([("name", name), ("image", image), ("ports", ports), ("env", env), ("resources", resources)]))
  }

  /**
   * A container's entry holds its name and image (None when missing), its
   * ports and env ([] when missing) and its resources ({} when missing), in
   * that order.
   */
  lemma ContainerEntryFields(c: Value)
    requires c.Obj?
    ensures ContainerEntry(c) == Some(Obj([("name", Lookup(c.fields, "name").GetOr(Null)),
                                           ("image", Lookup(c.fields, "image").GetOr(Null)),
                                           ("ports", Lookup(c.fields, "ports").GetOr(List([]))),
                                           ("env", Lookup(c.fields, "env").GetOr(List([]))),
                                           ("resources", Lookup(c.fields, "resources").GetOr(Obj([])))]))
  {
  }

  /** The entries of a container list, in order; None when one of them is not a mapping. */
  function ContainerEntries(cs: seq<Value>): (r: Option<seq<Value>>)
    ensures r.Some? ==> |r.value| == |cs|
  {
    if |cs| == 0 then Some([])
    else
      match ContainerEntry(cs[0])
      case None => None
      case Some(e) =>
        match ContainerEntries(cs[1..])
        case None => None
        case Some(rest) => Some([e] + rest)
  }

  /**
   * The container entries exist exactly when every container is a mapping,
   * and then the k-th entry is the k-th container's.
   */
  lemma {:induction false} ContainerEntriesAt(cs: seq<Value>)
    ensures ContainerEntries(cs).Some? <==> forall k :: 0 <= k < |cs| ==> cs[k].Obj?
    ensures ContainerEntries(cs).Some? ==>
              forall k :: 0 <= k < |cs| ==> ContainerEntry(cs[k]) == Some(ContainerEntries(cs).value[k])
  {
    if |cs| > 0 {
      var rest := cs[1..];
      ContainerEntriesAt(rest);
      EntriesStep(cs);
      if ContainerEntries(cs).Some? {
        var es := ContainerEntries(cs).value;
        assert es == [ContainerEntry(cs[0]).value] + ContainerEntries(rest).value;
        forall k | 0 <= k < |cs|
          ensures ContainerEntry(cs[k]) == Some(es[k])
        {
          if k > 0 {
            assert cs[k] == rest[k - 1];
          }
        }
      }
    }
  }

  /** `extract_containers`. */
  function ContainersOf(res: K8sResource): (r: Option<seq<Value>>)
    ensures !HasContainers(res.kind) ==> r == Some([])
  {
    if !HasContainers(res.kind) then Some([])
    else
      var spec :- PodSpec(res);
      var cs :- Get(spec, "containers", List([]));
      var xs :- Iter(cs);
      ContainerEntries(xs)
  }

  /** `extract_containers`, with its loop over the containers. */
  method ExtractContainers(res: K8sResource) returns (r: Option<seq<Value>>)
    ensures r == ContainersOf(res)
  {
    if !HasContainers(res.kind) {
      return Some([]);
    }
    var spec := PodSpec(res);
    if spec.None? {
      return None;
    }
    var cs := Get(spec.value, "containers", List([]));
    if cs.None? || Iter(cs.value).None? {
      return None;
    }
    r := CollectContainers(Iter(cs.value).value);
  }

  /** The loop over the containers of a pod specification. */
  method CollectContainers(xs: seq<Value>) returns (r: Option<seq<Value>>)
    ensures r == ContainerEntries(xs)
  {
    var out: seq<Value> := [];
    var i := 0;
    while i < |xs|
      invariant 0 <= i <= |xs|
      invariant ContainerEntries(xs).Some? <==> ContainerEntries(xs[i..]).Some?
      invariant ContainerEntries(xs).Some? ==> ContainerEntries(xs).value == out + ContainerEntries(xs[i..]).value
    {
      assert xs[i..][1..] == xs[i + 1..];
      var e := ContainerEntry(xs[i]);
      EntriesStep(xs[i..]);
      if e.None? {
        return None;
      }
      out := out + [e.value];
      i := i + 1;
    }
    assert xs[i..] == [];
    assert out + [] == out;
    return Some(out);
  }

  /** One step of the container fold. */
  lemma EntriesStep(cs: seq<Value>)
    requires |cs| > 0
    ensures ContainerEntry(cs[0]).None? ==> ContainerEntries(cs).None?
    ensures ContainerEntry(cs[0]).Some? ==>
      ContainerEntries(cs) == (if ContainerEntries(cs[1..]).None? then None else Some([ContainerEntry(cs[0]).value] + ContainerEntries(cs[1..]).value))
  {
  }

  /** A Pod lists the containers of its own `spec`; the other workload kinds those of `spec.template.spec`. */
  lemma PodSpecSource(res: K8sResource)
    requires HasContainers(res.kind)
    ensures res.kind == Str("Pod") ==> PodSpec(res) == Some(res.spec)
    ensures res.kind != Str("Pod") && res.spec.Obj? ==>
      PodSpec(res) == Get(Lookup(res.spec.fields, "template").GetOr(Obj([])), "spec", Obj([]))
  {
  }

  // ---------------------------------------------------------------- Terraform

  /** The flattened Terraform configuration; `variables` and `outputs` stay empty. */
  datatype Infrastructure = Infrastructure(resources: seq<Value>, modules: seq<Value>)

  /** `data.get(key, [{}])[0]`: the first block, which must be a mapping to be iterated. */
  function FirstBlock(tf: Value, key: string): Option<Fields> {
    var blocks :- Get(tf, key, List([Obj([])]));
    if blocks.List? && |blocks.items| > 0 && blocks.items[0].Obj? then Some(blocks.items[0].fields) else None
  }

  /** The entry `{type, name, config}` of one resource. */
  function ResourceEntry(rtype: string, name: string, config: Value): Value {
    Obj([("type", Str(rtype)), ("name", Str(name)), ("config", config)])
  }

  /** The entries of the resources of one type: one per resource name, in order. */
  function NamedEntries(rtype: string, named: Fields): (r: seq<Value>)
    ensures |r| == |named|
    ensures forall k :: 0 <= k < |named| ==> r[k] == ResourceEntry(rtype, named[k].0, named[k].1)
  {
    if |named| == 0 then []
    else [ResourceEntry(rtype, named[0].0, named[0].1)] + NamedEntries(rtype, named[1..])
  }

  /** The resource entries of a block, type by type; None when a type's resources are not a mapping. */
  function ResourceEntries(block: Fields): (r: Option<seq<Value>>)
    ensures r.Some? <==> forall i :: 0 <= i < |block| ==> block[i].1.Obj?
  {
    if |block| == 0 then Some([])
    else if !block[0].1.Obj? then None
    else
      match ResourceEntries(block[1..])
      case None => None
      case Some(rest) => Some(NamedEntries(block[0].0, block[0].1.fields) + rest)
  }

  /**
   * The resource entries are exactly one `{type, name, config}` per resource
   * name under each type of the block.
   */
  lemma {:induction false} ResourceEntriesMembers(block: Fields, e: Value)
    requires ResourceEntries(block).Some?
    ensures e in ResourceEntries(block).value <==>
              exists i, k :: 0 <= i < |block| && 0 <= k < |block[i].1.fields| &&
                             e == ResourceEntry(block[i].0, block[i].1.fields[k].0, block[i].1.fields[k].1)
  {
    if |block| > 0 {
      var here := NamedEntries(block[0].0, block[0].1.fields);
      var rest := block[1..];
      ResourceEntriesMembers(rest, e);
      assert ResourceEntries(block).value == here + ResourceEntries(rest).value;
      if e in here {
        var k :| 0 <= k < |here| && here[k] == e;
        assert e == ResourceEntry(block[0].0, block[0].1.fields[k].0, block[0].1.fields[k].1);
      } else if e in ResourceEntries(rest).value {
        var i, k :| 0 <= i < |rest| && 0 <= k < |rest[i].1.fields| &&
                    e == ResourceEntry(rest[i].0, rest[i].1.fields[k].0, rest[i].1.fields[k].1);
        assert rest[i] == block[i + 1];
      }
      if exists i, k :: 0 <= i < |block| && 0 <= k < |block[i].1.fields| &&
                        e == ResourceEntry(block[i].0, block[i].1.fields[k].0, block[i].1.fields[k].1) {
        var i, k :| 0 <= i < |block| && 0 <= k < |block[i].1.fields| &&
                    e == ResourceEntry(block[i].0, block[i].1.fields[k].0, block[i].1.fields[k].1);
        if i == 0 {
          assert here[k] == e;
        } else {
          assert block[i] == rest[i - 1];
        }
      }
    }
  }

  /** The entry `{name, source, config}` of one module, `source` None when missing. */
  function ModuleEntry(name: string, config: Fields): Value {
    Obj([("name", Str(name)), ("source", Lookup(config, "source").GetOr(Null)), ("config", Obj(config))])
  }

  /**
   * The module entries, one per module in order, each carrying the module's
   * name, its `source` and its configuration; None when a configuration is
   * not a mapping.
   */
  function ModuleEntries(block: Fields): (r: Option<seq<Value>>)
    ensures r.Some? <==> forall k :: 0 <= k < |block| ==> block[k].1.Obj?
    ensures r.Some? ==> |r.value| == |block|
    ensures r.Some? ==> forall k :: 0 <= k < |block| ==> r.value[k] == ModuleEntry(block[k].0, block[k].1.fields)
  {
    if |block| == 0 then Some([])
    else
      match Get(block[0].1, "source", Null)
      case None => None
      case Some(source) =>
        match ModuleEntries(block[1..])
        case None => None
        case Some(rest) => Some([Obj([("name", Str(block[0].0)), ("source", source), ("config", block[0].1)])] + rest)
  }

  /** `TerraformParser.parse` on the loaded configuration. */
  function InfrastructureOf(tf: Value): Option<Infrastructure> {
    var rblock :- FirstBlock(tf, "resource");
    var resources :- ResourceEntries(rblock);
    var mblock :- FirstBlock(tf, "module");
    var modules :- ModuleEntries(mblock);
    Some(Infrastructure(resources, modules))
  }

  /** The loop over the resources of one type. */
  method CollectNamed(rtype: string, named: Fields) returns (r: seq<Value>)
    ensures r == NamedEntries(rtype, named)
  {
    r := [];
    var j := 0;
    while j < |named|
      invariant 0 <= j <= |named|
      invariant |r| == j
      invariant forall k :: 0 <= k < j ==> r[k] == ResourceEntry(rtype, named[k].0, named[k].1)
    {
      r := r + [ResourceEntry(rtype, named[j].0, named[j].1)];
      j := j + 1;
    }
  }

  /** `TerraformParser.parse`, with its loops over resource types, resource names and modules. */
  method ParseInfrastructure(tf: Value) returns (r: Option<Infrastructure>)
    ensures r == InfrastructureOf(tf)
  {
    var rblock := FirstBlock(tf, "resource");
    if rblock.None? {
      return None;
    }
    var resources := CollectResources(rblock.value);
    if resources.None? {
      return None;
    }
    var mblock := FirstBlock(tf, "module");
    if mblock.None? {
      return None;
    }
    var modules := CollectModules(mblock.value);
    if modules.None? {
      return None;
    }
    return Some(Infrastructure(resources.value, modules.value));
  }

  /** The loop over the resource types of the first `resource` block. */
  method CollectResources(block: Fields) returns (r: Option<seq<Value>>)
    ensures r == ResourceEntries(block)
  {
    var resources: seq<Value> := [];
    var i := 0;
    while i < |block|
      invariant 0 <= i <= |block|
      invariant ResourceEntries(block).Some? <==> ResourceEntries(block[i..]).Some?
      invariant ResourceEntries(block).Some? ==> ResourceEntries(block).value == resources + ResourceEntries(block[i..]).value
    {
      assert block[i..][1..] == block[i + 1..];
      if !block[i].1.Obj? {
        return None;
      }
      var here := CollectNamed(block[i].0, block[i].1.fields);
      resources := resources + here;
      i := i + 1;
    }
    assert block[i..] == [];
    assert resources + [] == resources;
    return Some(resources);
  }

  /** The loop over the modules of the first `module` block. */
  method CollectModules(mods: Fields) returns (r: Option<seq<Value>>)
    ensures r == ModuleEntries(mods)
  {
    var modules: seq<Value> := [];
    var j := 0;
    while j < |mods|
      invariant 0 <= j <= |mods|
      invariant ModuleEntries(mods).Some? <==> ModuleEntries(mods[j..]).Some?
      invariant ModuleEntries(mods).Some? ==> ModuleEntries(mods).value == modules + ModuleEntries(mods[j..]).value
    {
      assert mods[j..][1..] == mods[j + 1..];
      var source := Get(mods[j].1, "source", Null);
      if source.None? {
        return None;
      }
      modules := modules + [Obj([("name", Str(mods[j].0)), ("source", source.value), ("config", mods[j].1)])];
      j := j + 1;
    }
    assert mods[j..] == [];
    assert modules + [] == modules;
    return Some(modules);
  }

  /** The number of resources under each type of a block, summed. */
  function ResourceCount(block: Fields): nat {
    if |block| == 0 then 0 else |FieldsOf(block[0].1)| + ResourceCount(block[1..])
  }

  /** One resource entry per (type, name) of the first block. */
  lemma {:induction false} ResourceEntriesCount(block: Fields)
    requires ResourceEntries(block).Some?
    ensures |ResourceEntries(block).value| == ResourceCount(block)
  {
    if |block| > 0 {
      ResourceEntriesCount(block[1..]);
    }
  }

  /** Only the first block of `resource` and of `module` is read: later blocks change nothing. */
  lemma FirstBlockOnly(fs: Fields, key: string, first: Value, later: seq<Value>)
    requires Lookup(fs, key) == Some(List([first] + later))
    ensures FirstBlock(Obj(fs), key) == FirstBlock(Obj(SetField(fs, key, List([first]))), key)
  {
    LookupSetField(fs, key, List([first]), key);
  }

  // ---------------------------------------------------------------- Python decorators

  /** The decorator expressions the naming distinguishes; anything else is kept by its text. */
  datatype Expr = Name(id: string) | Call(func: Expr) | Attribute(value: Expr, attr: string) | Other(repr: string)

  /** `_get_decorator_name`. */
  function DecoratorName(d: Expr): string {
    match d
    case Name(id) => id
    case Call(f) => DecoratorName(f)
    case Attribute(_, attr) => attr
    case Other(repr) => repr
  }

  /** The expression called, after removing every layer of call. */
  function Callee(d: Expr): (r: Expr)
    ensures !r.Call?
  {
    if d.Call? then Callee(d.func) else d
  }

  /** A called decorator is named like the decorator it calls, however deeply nested. */
  lemma {:induction false} DecoratorNameCallee(d: Expr)
    ensures DecoratorName(d) == DecoratorName(Callee(d))
    ensures Callee(d).Name? ==> DecoratorName(d) == Callee(d).id
    ensures Callee(d).Attribute? ==> DecoratorName(d) == Callee(d).attr
  {
    if d.Call? {
      DecoratorNameCallee(d.func);
    }
  }
}
