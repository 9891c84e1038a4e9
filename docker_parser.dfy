/**
 * `src/scanner/parsers/docker_parser.py`: the Dockerfile line parser and the
 * docker-compose service normalisation.  A file that cannot be read (or a
 * compose file that is not YAML) is the parameter `None`.
 */
module DockerParser {
  import opened Wrappers
  import opened Strings
  import opened Values
  import opened PyDict

  /** The `info` dictionary of `parse_dockerfile`. */
  datatype DockerfileInfo = DockerfileInfo(
    baseImage: Option<string>,
    exposedPorts: seq<string>,
    environment: Dict<string, string>,
    commands: seq<string>,
    workdir: Option<string>)

  /** The dictionary before the first line. */
  function InfoStart(): (info: DockerfileInfo)
    ensures info.environment.Valid()
  {
    DockerfileInfo(None, [], Empty(), [], None)
  }

  /** A stripped line the parser skips: empty, or a comment. */
  predicate Skipped(line: string) {
    line == [] || "#" <= line
  }

  /** `RUN`, `CMD` and `ENTRYPOINT` lines are recorded as commands. */
  predicate IsCommand(line: string) {
    "RUN" <= line || "CMD" <= line || "ENTRYPOINT" <= line
  }

  /**
   * The variable an `ENV` line defines, if any: with fewer than three
   * tokens nothing; `ENV K=V rest` splits the first token at its first `=`;
   * `ENV K rest` maps `K` to the rest of the line.
   */
  function EnvPair(line: string): (r: Option<(string, string)>)
    ensures r.Some? <==> |TokensMax(line, 2)| >= 3
    ensures r.Some? && '=' in TokensMax(line, 2)[1] ==>
      TokensMax(line, 2)[1] == r.value.0 + "=" + r.value.1 && '=' !in r.value.0
    ensures r.Some? && '=' !in TokensMax(line, 2)[1] ==> r.value == (TokensMax(line, 2)[1], TokensMax(line, 2)[2])
  {
    var parts := TokensMax(line, 2);
    if |parts| < 3 then None
    else if '=' in parts[1] then Some(SplitAtFirst(parts[1], '='))
    else Some((parts[1], parts[2]))
  }

  /** What a stripped line is to the parser, with what it carries. */
  datatype Instruction =
    | Blank
    | From(image: Option<string>)
    | Expose(ports: seq<string>)
    | Env(pair: Option<(string, string)>)
    | Workdir(dir: Option<string>)
    | Command(text: string)
    | Other

  /** The second token of a line, if it has one. */
  function Argument(line: string): Option<string> {
    var parts := Tokens(line);
    if |parts| > 1 then Some(parts[1]) else None
  }

  /** The branch of the line loop a stripped line takes. */
  function Classify(line: string): (k: Instruction)
    ensures k.Blank? <==> Skipped(line)
    ensures k.From? <==> "FROM" <= line
    ensures k.Expose? <==> "EXPOSE" <= line
    ensures k.Env? <==> "ENV" <= line
    ensures k.Workdir? <==> "WORKDIR" <= line
    ensures k.Command? <==> IsCommand(line)
    ensures k.From? ==> k.image == Argument(line)
    ensures k.Expose? ==> k.ports == DigitRuns(line)
    ensures k.Env? ==> k.pair == EnvPair(line)
    ensures k.Workdir? ==> k.dir == Argument(line)
    ensures k.Command? ==> k.text == line
  {
    KeywordsExclusive(line);
    if Skipped(line) then Blank
    else if "FROM" <= line then From(Argument(line))
    else if "EXPOSE" <= line then Expose(DigitRuns(line))
    else if "ENV" <= line then Env(EnvPair(line))
    else if "WORKDIR" <= line then Workdir(Argument(line))
    else if IsCommand(line) then Command(line)
    else Other
  }

  /** The effect of one instruction on the dictionary. */
  function Apply(info: DockerfileInfo, k: Instruction): (r: DockerfileInfo)
    ensures info.environment.Valid() ==> r.environment.Valid()
  {
    match k
    case From(Some(image)) => info.(baseImage := Some(image))
    case Expose(ports) => info.(exposedPorts := info.exposedPorts + ports)
    case Env(Some(kv)) => info.(environment := info.environment.Put(kv.0, kv.1))
    case Workdir(Some(dir)) => info.(workdir := Some(dir))
    case Command(text) => info.(commands := info.commands + [text])
    case _ => info
  }

  /** One iteration of the line loop. */
  function InfoLine(info: DockerfileInfo, raw: string): (r: DockerfileInfo)
    ensures info.environment.Valid() ==> r.environment.Valid()
  {
    Apply(info, Classify(Strip(raw)))
  }

  /** The line loop from `info` over `lines`. */
  function InfoLines(info: DockerfileInfo, lines: seq<string>): (r: DockerfileInfo)
    ensures info.environment.Valid() ==> r.environment.Valid()
    decreases |lines|
  {
    if |lines| == 0 then info else InfoLines(InfoLine(info, lines[0]), lines[1..])
  }

  /** `parse_dockerfile`; None is the empty dictionary returned when the file cannot be read. */
  function DockerfileOf(content: Option<string>): Option<DockerfileInfo> {
    match content
    case None => None
    case Some(text) => Some(InfoLines(InfoStart(), SplitOn(text, '\n')))
  }

  /** `parse_dockerfile`, with its loop over the lines of the file. */
  method ParseDockerfile(content: Option<string>) returns (r: Option<DockerfileInfo>)
    ensures r == DockerfileOf(content)
  {
    if content.None? {
      return None;
    }
    var lines := SplitOn(content.value, '\n');
    var info := InfoStart();
    var i := 0;
    while i < |lines|
      invariant 0 <= i <= |lines|
      invariant info.environment.Valid()
      invariant InfoLines(InfoStart(), lines) == InfoLines(info, lines[i..])
    {
      assert lines[i..][1..] == lines[i + 1..];
      info := InfoLine(info, lines[i]);
      i := i + 1;
    }
    return Some(info);
  }

  /** The second token of the last stripped line starting with `kw` that has one. */
  function LastArgument(lines: seq<string>, kw: string): Option<string> {
    if |lines| == 0 then None
    else
      match LastArgument(lines[1..], kw)
      case Some(a) => Some(a)
      case None =>
        var line := Strip(lines[0]);
        if kw <= line then Argument(line) else None
  }

  /** The digit runs of the `EXPOSE` lines, in order. */
  function ExposedRuns(lines: seq<string>): seq<string> {
    if |lines| == 0 then []
    else
      var line := Strip(lines[0]);
      (if "EXPOSE" <= line then DigitRuns(line) else []) + ExposedRuns(lines[1..])
  }

  /** The stripped `RUN`, `CMD` and `ENTRYPOINT` lines, in order. */
  function Commands(lines: seq<string>): seq<string> {
    if |lines| == 0 then []
    else
      var line := Strip(lines[0]);
      (if IsCommand(line) then [line] else []) + Commands(lines[1..])
  }

  /** No line starts with two of the keywords the parser tests. */
  lemma KeywordsExclusive(line: string)
    ensures "EXPOSE" <= line ==> !("FROM" <= line)
    ensures "ENV" <= line ==> !("FROM" <= line) && !("EXPOSE" <= line)
    ensures "WORKDIR" <= line ==> !("FROM" <= line) && !("EXPOSE" <= line) && !("ENV" <= line)
    ensures IsCommand(line) ==> !("FROM" <= line) && !("EXPOSE" <= line) && !("ENV" <= line) && !("WORKDIR" <= line)
    ensures "FROM" <= line || "EXPOSE" <= line || "ENV" <= line || "WORKDIR" <= line || IsCommand(line) ==> !Skipped(line)
  {
    if "#" <= line { assert line[0] == '#'; }
    if "FROM" <= line { assert line[0] == 'F'; }
    if "EXPOSE" <= line { assert line[0] == 'E' && line[1] == 'X'; }
    if "ENV" <= line { assert line[0] == 'E' && line[1] == 'N' && line[2] == 'V'; }
    if "WORKDIR" <= line { assert line[0] == 'W'; }
    if "RUN" <= line { assert line[0] == 'R'; }
    if "CMD" <= line { assert line[0] == 'C'; }
    if "ENTRYPOINT" <= line { assert line[0] == 'E' && line[1] == 'N' && line[2] == 'T'; }
  }

  /** What one line changes in each field. */
  lemma InfoLineFields(info: DockerfileInfo, raw: string)
    ensures var line := Strip(raw);
      InfoLine(info, raw).environment ==
        (if "ENV" <= line && EnvPair(line).Some? then info.environment.Put(EnvPair(line).value.0, EnvPair(line).value.1)
         else info.environment)
    ensures var line := Strip(raw);
      InfoLine(info, raw).baseImage == (if "FROM" <= line && Argument(line).Some? then Argument(line) else info.baseImage)
    ensures var line := Strip(raw);
      InfoLine(info, raw).workdir == (if "WORKDIR" <= line && Argument(line).Some? then Argument(line) else info.workdir)
    ensures var line := Strip(raw);
      InfoLine(info, raw).exposedPorts == info.exposedPorts + (if "EXPOSE" <= line then DigitRuns(line) else [])
    ensures var line := Strip(raw);
      InfoLine(info, raw).commands == info.commands + (if IsCommand(line) then [line] else [])
  {
    var k := Classify(Strip(raw));
    if !k.Expose? {
      assert info.exposedPorts + [] == info.exposedPorts;
    }
    if !k.Command? {
      assert info.commands + [] == info.commands;
    }
  }

  /** A later `FROM` replaces an earlier base image. */
  lemma {:induction false} DockerfileBaseImage(info: DockerfileInfo, lines: seq<string>)
    ensures InfoLines(info, lines).baseImage ==
      (if LastArgument(lines, "FROM").Some? then LastArgument(lines, "FROM") else info.baseImage)
    decreases |lines|
  {
    if |lines| > 0 {
      InfoLineFields(info, lines[0]);
      DockerfileBaseImage(InfoLine(info, lines[0]), lines[1..]);
    }
  }

  /** The value the last `ENV` line defining `k` gives it, if any. */
  function LastEnvPair(lines: seq<string>, k: string): Option<string> {
    if |lines| == 0 then None
    else
      match LastEnvPair(lines[1..], k)
      case Some(v) => Some(v)
      case None =>
        var line := Strip(lines[0]);
        if "ENV" <= line && EnvPair(line).Some? && EnvPair(line).value.0 == k then Some(EnvPair(line).value.1) else None
  }

  /** A variable is defined exactly when some `ENV` line defines it, and holds the value of the last such line. */
  lemma {:induction false} DockerfileEnvironment(info: DockerfileInfo, lines: seq<string>, k: string)
    ensures k in InfoLines(info, lines).environment.vals <==> k in info.environment.vals || LastEnvPair(lines, k).Some?
    ensures k in InfoLines(info, lines).environment.vals ==>
      InfoLines(info, lines).environment.vals[k] ==
        match LastEnvPair(lines, k) case Some(v) => v case None => info.environment.vals[k]
    decreases |lines|
  {
    if |lines| > 0 {
      InfoLineFields(info, lines[0]);
      DockerfileEnvironment(InfoLine(info, lines[0]), lines[1..], k);
    }
  }

  /** `ENV K=V` on its own has only two tokens, so it defines nothing. */
  lemma {:induction false} EnvSingleAssignmentIgnored(assignment: string)
    requires |assignment| > 0 && NoSpace(assignment)
    ensures EnvPair("ENV " + assignment) == None
  {
    var line := "ENV " + assignment;
    assert NoSpace("ENV") by {
      assert forall i :: 0 <= i < 3 ==> "ENV"[i] in "ENV";
    }
    assert "ENV" + " " + assignment == line;
    TwoTokens("ENV", assignment);
    assert |TokensMax(line, 2)| == 2;
  }

  /** A later `WORKDIR` replaces an earlier one. */
  lemma {:induction false} DockerfileWorkdir(info: DockerfileInfo, lines: seq<string>)
    ensures InfoLines(info, lines).workdir ==
      (if LastArgument(lines, "WORKDIR").Some? then LastArgument(lines, "WORKDIR") else info.workdir)
    decreases |lines|
  {
    if |lines| > 0 {
      InfoLineFields(info, lines[0]);
      DockerfileWorkdir(InfoLine(info, lines[0]), lines[1..]);
    }
  }

  /** The exposed ports are the digit runs of the `EXPOSE` lines, appended in line order. */
  lemma {:induction false} DockerfilePorts(info: DockerfileInfo, lines: seq<string>)
    ensures InfoLines(info, lines).exposedPorts == info.exposedPorts + ExposedRuns(lines)
    decreases |lines|
  {
    if |lines| > 0 {
      var line := Strip(lines[0]);
      var here := if "EXPOSE" <= line then DigitRuns(line) else [];
      InfoLineFields(info, lines[0]);
      var d := InfoLine(info, lines[0]);
      DockerfilePorts(d, lines[1..]);
      AppendAssoc(info.exposedPorts, here, ExposedRuns(lines[1..]));
    }
  }

  /** The commands are the stripped `RUN`, `CMD` and `ENTRYPOINT` lines, in line order. */
  lemma {:induction false} DockerfileCommands(info: DockerfileInfo, lines: seq<string>)
    ensures InfoLines(info, lines).commands == info.commands + Commands(lines)
    decreases |lines|
  {
    if |lines| > 0 {
      var line := Strip(lines[0]);
      InfoLineFields(info, lines[0]);
      var d := InfoLine(info, lines[0]);
      DockerfileCommands(d, lines[1..]);
      AppendAssoc(info.commands, if IsCommand(line) then [line] else [], Commands(lines[1..]));
    }
  }

  // ---------------------------------------------------------------- compose

  /** One service of a compose file, normalised. */
  datatype DockerService = DockerService(
    name: string,
    image: Value,
    buildContext: Value,
    ports: seq<string>,
    environment: Dict<string, string>,
    dependsOn: seq<string>,
    volumes: seq<Value>,
    networks: seq<Value>)

  /** The string a `ports` entry contributes: scalars as text, a mapping its `published` value. */
  function PortString(p: Value): Option<string> {
    match p
    case Str(s) => Some(s)
    case Int(_) => Some(Display(p))
    case Bool(_) => Some(Display(p))
    case Obj(fs) => if "published" in Keys(fs) then Some(Display(Lookup(fs, "published").value)) else None
    case _ => None
  }

  /** The `ports` loop: every entry that contributes a string, in order. */
  function PortStrings(ps: seq<Value>): (r: seq<string>)
    ensures |r| <= |ps|
    ensures forall k :: 0 <= k < |ps| && PortString(ps[k]).Some? ==> PortString(ps[k]).value in r
    ensures forall s :: s in r ==> exists k :: 0 <= k < |ps| && PortString(ps[k]) == Some(s)
  {
    if |ps| == 0 then []
    else
      var rest := PortStrings(ps[1..]);
      assert forall k :: 1 <= k < |ps| ==> ps[k] == ps[1..][k - 1];
      match PortString(ps[0])
      case Some(s) => [s] + rest
      case None => rest
  }

  /** `{k: str(v) for k, v in env.items()}`: each key maps to the text of its value. */
  function EnvFromMapping(fs: Fields, acc: Dict<string, string>): (r: Dict<string, string>)
    ensures acc.Valid() ==> r.Valid()
    ensures forall k :: k in r.vals <==> k in acc.vals || k in Keys(fs)
    ensures forall k :: k in r.vals ==>
      r.vals[k] == (match LastField(fs, k) case Some(v) => Display(v) case None => acc.vals[k])
    decreases |fs|
  {
    if |fs| == 0 then acc
    else
      assert Keys(fs) == [fs[0].0] + Keys(fs[1..]);
      EnvFromMapping(fs[1..], acc.Put(fs[0].0, Display(fs[0].1)))
  }

  /** The `environment` list loop: each `K=V` item defines `K`; other items are ignored. */
  function EnvFromList(items: seq<Value>, acc: Dict<string, string>): (r: Dict<string, string>)
    ensures acc.Valid() ==> r.Valid()
    decreases |items|
  {
    if |items| == 0 then acc
    else
      var text := Display(items[0]);
      var acc1 := if '=' in text then var kv := SplitAtFirst(text, '='); acc.Put(kv.0, kv.1) else acc;
      EnvFromList(items[1..], acc1)
  }

  /** The key an `environment` list item defines, if it has one. */
  function ListItemKey(item: Value): Option<string> {
    var text := Display(item);
    if '=' in text then Some(SplitAtFirst(text, '=').0) else None
  }

  /** The text after the first `=` of the last item defining `k`, if any. */
  function LastListItem(items: seq<Value>, k: string): (r: Option<string>)
    ensures r.Some? <==> exists j :: 0 <= j < |items| && ListItemKey(items[j]) == Some(k)
  {
    assert forall j :: 1 <= j < |items| ==> items[j] == items[1..][j - 1];
    if |items| == 0 then None
    else
      match LastListItem(items[1..], k)
      case Some(v) => Some(v)
      case None =>
        var text := Display(items[0]);
        if '=' in text && SplitAtFirst(text, '=').0 == k then Some(SplitAtFirst(text, '=').1) else None
  }

  /**
   * The list form defines exactly the keys of its `K=V` items, each with the
   * text after the first `=` of the last item defining it.
   */
  lemma {:induction false} EnvFromListKeys(items: seq<Value>, acc: Dict<string, string>)
    ensures forall k :: k in EnvFromList(items, acc).vals <==>
      k in acc.vals || exists j :: 0 <= j < |items| && ListItemKey(items[j]) == Some(k)
    ensures forall k :: k in EnvFromList(items, acc).vals ==>
      EnvFromList(items, acc).vals[k] == (match LastListItem(items, k) case Some(v) => v case None => acc.vals[k])
  {
    forall k {
      EnvFromListAt(items, acc, k);
    }
  }

  /** `EnvFromListKeys` for one key. */
  lemma {:induction false} EnvFromListAt(items: seq<Value>, acc: Dict<string, string>, k: string)
    ensures k in EnvFromList(items, acc).vals <==> k in acc.vals || LastListItem(items, k).Some?
    ensures k in EnvFromList(items, acc).vals ==>
      EnvFromList(items, acc).vals[k] == (match LastListItem(items, k) case Some(v) => v case None => acc.vals[k])
    decreases |items|
  {
    if |items| > 0 {
      var text := Display(items[0]);
      var acc1 := if '=' in text then var kv := SplitAtFirst(text, '='); acc.Put(kv.0, kv.1) else acc;
      EnvFromListAt(items[1..], acc1, k);
    }
  }

  /** The `environment` entry: a mapping, a list of `K=V` strings, or anything else (no variables). */
  function EnvironmentOf(env: Value): (r: Dict<string, string>)
    ensures r.Valid()
  {
    match env
    case Obj(fs) => EnvFromMapping(fs, Empty())
    case List(items) => EnvFromList(items, Empty())
    case _ => Empty()
  }

  /** `[str(x) for x in xs]`. */
  function Displays(xs: seq<Value>): (r: seq<string>)
    ensures |r| == |xs| && forall k :: 0 <= k < |r| ==> r[k] == Display(xs[k])
  {
    if |xs| == 0 then [] else [Display(xs[0])] + Displays(xs[1..])
  }

  /** `depends_on`: a list rendered as strings, a mapping's keys, or nothing. */
  function DependsOnOf(deps: Value): (r: seq<string>)
    ensures deps.Obj? ==> r == Keys(deps.fields)
    ensures deps.List? ==> |r| == |deps.items| && forall k :: 0 <= k < |r| ==> r[k] == Display(deps.items[k])
    ensures !deps.Obj? && !deps.List? ==> r == []
  {
    match deps
    case List(xs) => Displays(xs)
    case Obj(fs) => Keys(fs)
    case _ => []
  }

  /** `build`: a string is the context; a mapping gives `context`, else `dockerfile`; otherwise None. */
  function BuildContextOf(build: Value): (r: Value)
    ensures build.Str? ==> r == build
    ensures build.Obj? && "context" in Keys(build.fields) ==> r == Lookup(build.fields, "context").value
    ensures build.Obj? && "context" !in Keys(build.fields) ==> r == Lookup(build.fields, "dockerfile").GetOr(Null)
    ensures !build.Str? && !build.Obj? ==> r == Null
  {
    match build
    case Str(_) => build
    case Obj(fs) => Lookup(fs, "context").GetOr(Lookup(fs, "dockerfile").GetOr(Null))
    case _ => Null
  }

  /** A list-valued entry, or `[]` when the entry is missing or not a list. */
  function ListEntry(cfg: Fields, key: string): (r: seq<Value>)
    ensures Lookup(cfg, key).Some? && Lookup(cfg, key).value.List? ==> r == Lookup(cfg, key).value.items
    ensures !(Lookup(cfg, key).Some? && Lookup(cfg, key).value.List?) ==> r == []
  {
    match Lookup(cfg, key)
    case Some(List(xs)) => xs
    case _ => []
  }

  /** One service; None when its `ports` entry cannot be iterated. */
  function ServiceOf(name: string, cfg: Fields): (r: Option<DockerService>)
    ensures r.Some? <==> Iter(Lookup(cfg, "ports").GetOr(List([]))).Some?
    ensures r.Some? ==>
              && r.value.name == name
              && r.value.image == Lookup(cfg, "image").GetOr(Null)
              && r.value.buildContext == BuildContextOf(Lookup(cfg, "build").GetOr(Null))
              && r.value.ports == PortStrings(Iter(Lookup(cfg, "ports").GetOr(List([]))).value)
              && r.value.environment == EnvironmentOf(Lookup(cfg, "environment").GetOr(Obj([])))
              && r.value.dependsOn == DependsOnOf(Lookup(cfg, "depends_on").GetOr(List([])))
              && r.value.volumes == ListEntry(cfg, "volumes")
              && r.value.networks == ListEntry(cfg, "networks")
  {
    var ports :- Iter(Lookup(cfg, "ports").GetOr(List([])));
    Some(DockerService(
      name,
      Lookup(cfg, "image").GetOr(Null),
      BuildContextOf(Lookup(cfg, "build").GetOr(Null)),
      PortStrings(ports),
      EnvironmentOf(Lookup(cfg, "environment").GetOr(Obj([]))),
      DependsOnOf(Lookup(cfg, "depends_on").GetOr(List([]))),
      ListEntry(cfg, "volumes"),
      ListEntry(cfg, "networks")))
  }

  /** The services loop from `acc`: non-mapping configurations are skipped. */
  function ServicesOf(fs: Fields, acc: Dict<string, DockerService>): (r: Option<Dict<string, DockerService>>)
    ensures acc.Valid() && r.Some? ==> r.value.Valid()
    decreases |fs|
  {
    if |fs| == 0 then Some(acc)
    else if !fs[0].1.Obj? then ServicesOf(fs[1..], acc)
    else
      match ServiceOf(fs[0].0, fs[0].1.fields)
      case None => None
      case Some(s) => ServicesOf(fs[1..], acc.Put(fs[0].0, s))
  }

  /**
   * `parse_compose` on the loaded document.  An unreadable or empty file or
   * a non-mapping document gives `{}`; a `services` entry that is not a
   * mapping, or a service whose ports cannot be iterated, raises (None).
   */
  function ComposeOf(data: Option<Value>): (r: Option<Dict<string, DockerService>>)
    ensures data.None? || !Truthy(data.value) || !data.value.Obj? ==> r == Some(Empty())
    ensures data.Some? && Truthy(data.value) && data.value.Obj? ==>
              var services := Lookup(data.value.fields, "services").GetOr(Obj([]));
              && (!services.Obj? ==> r.None?)
              && (services.Obj? ==> r == ServicesOf(services.fields, Empty()))
    ensures r.Some? ==> r.value.Valid()
  {
    if data.None? || !Truthy(data.value) || !data.value.Obj? then Some(Empty())
    else
      var services := Lookup(data.value.fields, "services").GetOr(Obj([]));
      if !services.Obj? then None else ServicesOf(services.fields, Empty())
  }

  /**
   * What `parse_compose` returns for a mapping document: the services
   * stored are exactly the entries of `services` whose configuration is a
   * mapping, each under its own name.
   */
  lemma ComposeServices(data: Value)
    requires Truthy(data) && data.Obj?
    requires ComposeOf(Some(data)).Some?
    ensures var services := Lookup(data.fields, "services").GetOr(Obj([]));
            && services.Obj?
            && (forall n :: n in ComposeOf(Some(data)).value.vals <==>
                  exists k :: 0 <= k < |services.fields| && services.fields[k].0 == n && services.fields[k].1.Obj?)
            && (forall n :: n in ComposeOf(Some(data)).value.vals ==> ComposeOf(Some(data)).value.vals[n].name == n)
  {
    var services := Lookup(data.fields, "services").GetOr(Obj([]));
    ServicesKeys(services.fields, Empty());
    ServicesNamed(services.fields, Empty());
  }

  /** The `ports` loop. */
  method CollectPorts(ps: seq<Value>) returns (r: seq<string>)
    ensures r == PortStrings(ps)
  {
    r := [];
    var i := 0;
    while i < |ps|
      invariant 0 <= i <= |ps|
      invariant PortStrings(ps) == r + PortStrings(ps[i..])
    {
      PortStringsStep(ps, i);
      var p := PortString(ps[i]);
      if p.Some? {
        AppendAssoc(r, [p.value], PortStrings(ps[i + 1..]));
        r := r + [p.value];
      }
      i := i + 1;
    }
    assert ps[i..] == [];
    assert r + [] == r;
  }

  /** The ports from index `i` on: that entry's string, if any, then those after it. */
  lemma PortStringsStep(ps: seq<Value>, i: nat)
    requires i < |ps|
    ensures PortStrings(ps[i..]) ==
              (if PortString(ps[i]).Some? then [PortString(ps[i]).value] else []) + PortStrings(ps[i + 1..])
  {
    assert ps[i..][1..] == ps[i + 1..];
    assert ps[i..][0] == ps[i];
  }

  /** The `environment` list loop. */
  method CollectEnvList(items: seq<Value>) returns (r: Dict<string, string>)
    ensures r == EnvFromList(items, Empty())
  {
    r := Empty();
    var i := 0;
    while i < |items|
      invariant 0 <= i <= |items|
      invariant r.Valid()
      invariant EnvFromList(items, Empty()) == EnvFromList(items[i..], r)
    {
      assert items[i..][1..] == items[i + 1..];
      var text := Display(items[i]);
      if '=' in text {
        var kv := SplitAtFirst(text, '=');
        r := r.Put(kv.0, kv.1);
      }
      i := i + 1;
    }
  }

  /** The body of the services loop for one mapping configuration. */
  method ParseService(name: string, cfg: Fields) returns (r: Option<DockerService>)
    ensures r == ServiceOf(name, cfg)
  {
    var ports := Iter(Lookup(cfg, "ports").GetOr(List([])));
    if ports.None? {
      return None;
    }
    var portStrings := CollectPorts(ports.value);
    var env := Lookup(cfg, "environment").GetOr(Obj([]));
    var environment: Dict<string, string>;
    if env.List? {
      environment := CollectEnvList(env.items);
    } else {
      environment := EnvironmentOf(env);
    }
    return Some(DockerService(
      name,
      Lookup(cfg, "image").GetOr(Null),
      BuildContextOf(Lookup(cfg, "build").GetOr(Null)),
      portStrings,
      environment,
      DependsOnOf(Lookup(cfg, "depends_on").GetOr(List([]))),
      ListEntry(cfg, "volumes"),
      ListEntry(cfg, "networks")));
  }

  /** `parse_compose`, with its loop over the services. */
  method ParseCompose(data: Option<Value>) returns (r: Option<Dict<string, DockerService>>)
    ensures r == ComposeOf(data)
  {
    if data.None? || !Truthy(data.value) || !data.value.Obj? {
      return Some(Empty());
    }
    var services := Lookup(data.value.fields, "services").GetOr(Obj([]));
    if !services.Obj? {
      return None;
    }
    var fs := services.fields;
    var acc: Dict<string, DockerService> := Empty();
    var i := 0;
    while i < |fs|
      invariant 0 <= i <= |fs|
      invariant acc.Valid()
      invariant ServicesOf(fs, Empty()) == ServicesOf(fs[i..], acc)
    {
      assert fs[i..][1..] == fs[i + 1..];
      if fs[i].1.Obj? {
        var s := ParseService(fs[i].0, fs[i].1.fields);
        if s.None? {
          return None;
        }
        acc := acc.Put(fs[i].0, s.value);
      }
      i := i + 1;
    }
    return Some(acc);
  }

  /** The services are exactly the names whose configuration is a mapping. */
  lemma {:induction false} ServicesKeys(fs: Fields, acc: Dict<string, DockerService>)
    requires ServicesOf(fs, acc).Some?
    ensures forall n :: n in ServicesOf(fs, acc).value.vals <==>
      n in acc.vals || exists k :: 0 <= k < |fs| && fs[k].0 == n && fs[k].1.Obj?
    decreases |fs|
  {
    if |fs| > 0 {
      var rest := fs[1..];
      var next := if fs[0].1.Obj? then acc.Put(fs[0].0, ServiceOf(fs[0].0, fs[0].1.fields).value) else acc;
      assert ServicesOf(fs, acc) == ServicesOf(rest, next);
      ServicesKeys(rest, next);
      forall n
        ensures n in ServicesOf(fs, acc).value.vals <==>
                n in acc.vals || exists k :: 0 <= k < |fs| && fs[k].0 == n && fs[k].1.Obj?
      {
        if exists k :: 0 <= k < |rest| && rest[k].0 == n && rest[k].1.Obj? {
          var k :| 0 <= k < |rest| && rest[k].0 == n && rest[k].1.Obj?;
          assert fs[k + 1] == rest[k];
        }
        if exists k :: 0 <= k < |fs| && fs[k].0 == n && fs[k].1.Obj? {
          var k :| 0 <= k < |fs| && fs[k].0 == n && fs[k].1.Obj?;
          if k > 0 {
            assert rest[k - 1] == fs[k];
          }
        }
      }
    }
  }

  /** Each service is stored under its own name. */
  lemma {:induction false} ServicesNamed(fs: Fields, acc: Dict<string, DockerService>)
    requires ServicesOf(fs, acc).Some?
    requires forall n :: n in acc.vals ==> acc.vals[n].name == n
    ensures forall n :: n in ServicesOf(fs, acc).value.vals ==> ServicesOf(fs, acc).value.vals[n].name == n
    decreases |fs|
  {
    if |fs| > 0 {
      if !fs[0].1.Obj? {
        ServicesNamed(fs[1..], acc);
      } else {
        var s := ServiceOf(fs[0].0, fs[0].1.fields).value;
        ServicesNamed(fs[1..], acc.Put(fs[0].0, s));
      }
    }
  }
}
