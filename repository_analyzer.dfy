/**
 * `modules/repository_analyzer.py`: which files the analyser skips, how it
 * categorises them, the metadata it attaches to a file, the heuristic line
 * chunker, and the repository summary built from all chunks.  Whether a
 * path is a file, a file's relative path and its loaded YAML arrive as
 * parameters.
 */
module RepositoryAnalyzer {
  import opened Wrappers
  import opened Strings
  import opened Values
  import opened Paths
  import Config

  // ---------------------------------------------------------------- ignoring and categorising

  /** Some ignore pattern, from index `from` on, is a substring of `s`. */
  function AnyPattern(s: string, patterns: seq<string>, from: nat): (r: bool)
    requires from <= |patterns|
    ensures r <==> exists k :: from <= k < |patterns| && Contains(s, patterns[k])
    decreases |patterns| - from
  {
    if from == |patterns| then false
    else Contains(s, patterns[from]) || AnyPattern(s, patterns, from + 1)
  }

  /** The names exempt from the extension check. */
  const DockerNames: seq<string> := ["Dockerfile", "docker-compose.yml", "docker-compose.yaml"]

  /** `_should_ignore`; `isFile` is `path.is_file()`. */
  function ShouldIgnore(path: Path, isFile: bool): (r: bool)
    ensures r <==>
      (exists k :: 0 <= k < |Config.IgnorePatterns| && Contains(path.Str(), Config.IgnorePatterns[k])) ||
      (isFile && path.Name() !in DockerNames && Lower(path.Suffix()) !in Config.SupportedExtensions)
  {
    if AnyPattern(path.Str(), Config.IgnorePatterns, 0) then true
    else if isFile then
      if path.Name() in DockerNames then false
      else Lower(path.Suffix()) !in Config.SupportedExtensions
    else false
  }

  /** The first category, from index `from` on, whose extensions hold `suffix`. */
  function FirstCategory(suffix: string, table: seq<(string, seq<string>)>, from: nat): (r: Option<nat>)
    requires from <= |table|
    ensures r.None? <==> forall k :: from <= k < |table| ==> suffix !in table[k].1
    ensures r.Some? ==> from <= r.value < |table| && suffix in table[r.value].1
    ensures r.Some? ==> forall k :: from <= k < r.value ==> suffix !in table[k].1
    decreases |table| - from
  {
    if from == |table| then None
    else if suffix in table[from].1 then Some(from)
    else FirstCategory(suffix, table, from + 1)
  }

  /** The lower-cased names that are infrastructure whatever their suffix. */
  const InfraNames: seq<string> := ["dockerfile", "docker-compose.yml", "docker-compose.yaml"]

  /** `_categorize_file`. */
  function CategorizeFile(path: Path): (r: string)
    ensures Lower(path.Name()) in InfraNames ==> r == "infra"
    ensures Lower(path.Name()) !in InfraNames ==>
      match FirstCategory(Lower(path.Suffix()), Config.FileCategories, 0)
      case Some(k) => r == Config.FileCategories[k].0
      case None => r == "docs"
    ensures exists k :: 0 <= k < |Config.FileCategories| && r == Config.FileCategories[k].0
  {
    if Lower(path.Name()) in InfraNames then
      assert Config.FileCategories[1].0 == "infra";
      "infra"
    else
      match FirstCategory(Lower(path.Suffix()), Config.FileCategories, 0)
      case Some(k) => Config.FileCategories[k].0
      case None =>
        assert Config.FileCategories[3].0 == "docs";
        "docs"
  }

  /** Every source extension accepted is application code. */
  lemma AppCodeSuffixes(path: Path)
    requires Lower(path.Name()) !in InfraNames
    requires Lower(path.Suffix()) in Config.FileCategories[0].1
    ensures CategorizeFile(path) == "app_code"
  {
  }

  // ---------------------------------------------------------------- file metadata

  /** The metadata `_extract_metadata` attaches to a file; absent keys are `None`. */
  datatype FileMetadata = FileMetadata(
    filePath: string,
    fileName: string,
    fileSize: nat,
    category: string,
    kind: Option<string>,
    contentPreview: Option<string>,
    services: Option<seq<string>>,
    baseImage: Option<string>)

  /** `s[:n]`. */
  function Take(s: string, n: nat): (r: string)
    ensures |r| == if |s| <= n then |s| else n
    ensures r <= s
  {
    if |s| <= n then s else s[..n]
  }

  /** `s[n:]`. */
  function Drop(s: string, n: nat): (r: string)
    ensures Take(s, n) + r == s
  {
    if |s| <= n then "" else s[n..]
  }

  /** A line the `FROM` scan stops at: once stripped and upper-cased it starts with `FROM`. */
  predicate IsFromLine(line: string) {
    "FROM" <= Upper(Strip(line))
  }

  /** The base image a `FROM` line names: its stripped text after the first five characters, stripped. */
  function FromImage(line: string): string {
    Strip(Drop(Strip(line), 5))
  }

  /** The base image recorded for a Dockerfile: that of its first `FROM` line, if any. */
  function BaseImageOf(lines: seq<string>): Option<string> {
    match FirstWhere(lines, IsFromLine, 0)
    case Some(k) => Some(FromImage(lines[k]))
    case None => None
  }

  /** The base image is that of the first `FROM` line, and there is none without a `FROM` line. */
  lemma BaseImageFirst(lines: seq<string>, k: nat)
    requires k < |lines| && IsFromLine(lines[k])
    requires forall j :: 0 <= j < k ==> !IsFromLine(lines[j])
    ensures BaseImageOf(lines) == Some(FromImage(lines[k]))
  {
    var r := FirstWhere(lines, IsFromLine, 0);
    assert r.Some?;
    assert r.value == k;
  }

  /** The `FROM` loop of `_extract_metadata`, which stops at the first match. */
  method ScanBaseImage(content: string) returns (r: Option<string>)
    ensures r == BaseImageOf(SplitOn(content, '\n'))
  {
    var lines := SplitOn(content, '\n');
    var i := 0;
    while i < |lines|
      invariant 0 <= i <= |lines|
      invariant FirstWhere(lines, IsFromLine, 0) == FirstWhere(lines, IsFromLine, i)
    {
      FirstWhereStep(lines, IsFromLine, i);
      if IsFromLine(lines[i]) {
        BaseImageAt(lines, i);
        return Some(FromImage(lines[i]));
      }
      i := i + 1;
    }
    BaseImageNone(lines);
    return None;
  }

  lemma BaseImageAt(lines: seq<string>, k: nat)
    requires k < |lines| && FirstWhere(lines, IsFromLine, 0) == Some(k)
    ensures BaseImageOf(lines) == Some(FromImage(lines[k]))
  {
  }

  lemma BaseImageNone(lines: seq<string>)
    requires FirstWhere(lines, IsFromLine, 0) == FirstWhere(lines, IsFromLine, |lines|)
    ensures BaseImageOf(lines) == None
  {
  }

  /** The dependency manifests by name. */
  const DependencyNames: seq<string> := ["package.json", "pom.xml", "build.gradle", "go.mod", "Cargo.toml", "requirements.txt"]

  /** The compose file names. */
  const ComposeNames: seq<string> := ["docker-compose.yml", "docker-compose.yaml"]

  /**
   * The service names of a loaded compose file; a document with no
   * `services` mapping (or one the lookup raises on, which is caught) gives none.
   */
  function ComposeServices(doc: Option<Value>): (r: Option<seq<string>>)
    ensures r.Some? ==> doc.Some? && doc.value.Obj? && Lookup(doc.value.fields, "services").Some?
  {
    match doc
    case Some(Obj(fs)) =>
      if |fs| > 0 then
        match Lookup(fs, "services")
        case Some(Obj(svc)) => Some(Keys(svc))
        case _ => None
      else None
    case _ => None
  }

  /** `_extract_metadata`; `compose` is `yaml.safe_load(content)`, `None` when it raises. */
  function ExtractMetadata(relPath: string, path: Path, content: string, compose: Option<Value>): (r: FileMetadata)
    ensures r.fileSize == |content| && r.category == CategorizeFile(path) && r.fileName == path.Name()
    ensures r.kind == Some("dependencies") <==> path.Name() in DependencyNames
    ensures r.kind == Some("dependencies") ==> r.contentPreview == Some(Take(content, 500))
    ensures r.services.Some? ==> r.kind == Some("docker_compose")
    ensures r.baseImage.Some? ==> r.kind == Some("dockerfile")
    ensures r.kind == Some("dockerfile") <==> path.Name() == "Dockerfile"
  {
    var base := FileMetadata(relPath, path.Name(), |content|, CategorizeFile(path), None, None, None, None);
    var name := path.Name();
    if name in DependencyNames then
      base.(kind := Some("dependencies"), contentPreview := Some(Take(content, 500)))
    else if name in ComposeNames then
      base.(kind := Some("docker_compose"), services := ComposeServices(compose))
    else if path.Suffix() in [".yaml", ".yml"] && Contains(Lower(name), "deployment") then
      base.(kind := Some("kubernetes"))
    else if path.Suffix() == ".tf" then
      base.(kind := Some("terraform"))
    else if name == "Dockerfile" then
      base.(kind := Some("dockerfile"), baseImage := BaseImageOf(SplitOn(content, '\n')))
    else base
  }

  // ---------------------------------------------------------------- heuristic chunking

  /** A chunk of consecutive lines, with the line numbers its metadata records. */
  datatype Chunk = Chunk(startLine: int, endLine: int, body: seq<string>) {
    /** The chunk's text. */
    function Content(): string {
      Join("\n", body)
    }

    /** The chunk's id. */
    function Id(filePath: string): string {
      filePath + "_lines_" + IntToString(startLine) + "_" + IntToString(endLine)
    }
  }

  /** The last `.`-separated piece of the relative path, lower-cased. */
  function Extension(filePath: string): string {
    var pieces := SplitOn(filePath, '.');
    Lower(pieces[|pieces| - 1])
  }

  /** The JavaScript and TypeScript unit openers; `line` is the raw line, `s` the stripped one. */
  predicate JsUnit(s: string, line: string) {
    "function " <= s || "class " <= s ||
    ("const " <= s && '=' in line && (Contains(line, "=>") || Contains(line, "function"))) ||
    "async function" <= s || "export default" <= s
  }

  /** The Java unit openers. */
  predicate JavaUnit(s: string) {
    "public " <= s || "private " <= s || "protected " <= s || "class " <= s ||
    Contains(s, " void ") || Contains(s, " boolean ")
  }

  /** The languages whose lines can open a unit. */
  const UnitExtensions: seq<string> := ["py", "js", "ts", "jsx", "tsx", "java", "go", "rs"]

  /** Whether a line opens a new logical unit in a file with extension `ext`. */
  function IsNewUnit(ext: string, line: string): (r: bool)
    ensures r ==> ext in UnitExtensions
  {
    var s := Strip(line);
    if ext == "py" then "def " <= s || "class " <= s || "async def " <= s
    else if ext in ["js", "ts", "jsx", "tsx"] then JsUnit(s, line)
    else if ext == "java" then JavaUnit(s)
    else if ext == "go" then "func " <= s || "type " <= s
    else if ext == "rs" then "fn " <= s || "struct " <= s || "impl " <= s
    else false
  }

  /** The chunker's loop state: the chunks so far, the lines of the open chunk and its first line number. */
  datatype ChunkState = ChunkState(chunks: seq<Chunk>, current: seq<string>, start: int)

  /** Whether the open chunk, with the new line appended, is cut. */
  predicate Cuts(current: seq<string>, isNew: bool) {
    ((isNew && |current| > 10) || |Join("\n", current)| > Config.ChunkSize) && |current| > 1
  }

  /** The loop body for line `i`. */
  function Step(st: ChunkState, i: int, line: string, isNew: bool): (r: ChunkState)
    ensures var cur := st.current + [line];
      !Cuts(cur, isNew) ==> r == st.(current := cur)
    ensures var cur := st.current + [line];
      Cuts(cur, isNew) && isNew ==> r.chunks == st.chunks + [Chunk(st.start, i - 1, st.current)] && r.current == [line] && r.start == i
    ensures var cur := st.current + [line];
      Cuts(cur, isNew) && !isNew ==> r.chunks == st.chunks + [Chunk(st.start, i, cur)] && r.current == [] && r.start == i + 1
    ensures |st.current| == 0 ==> r.chunks == st.chunks
    ensures isNew && |r.chunks| > |st.chunks| && |Join("\n", st.current + [line])| <= Config.ChunkSize ==>
      |r.chunks[|st.chunks|].body| >= 10
  {
    var cur := st.current + [line];
    if Cuts(cur, isNew) then
      if isNew then
        assert cur[..|cur| - 1] == st.current;
        ChunkState(st.chunks + [Chunk(st.start, i - 1, cur[..|cur| - 1])], [line], i)
      else ChunkState(st.chunks + [Chunk(st.start, i, cur)], [], i + 1)
    else st.(current := cur)
  }

  /** The loop from line `i` on, where `unit` tells whether a line opens a unit. */
  function Run(unit: string -> bool, lines: seq<string>, st: ChunkState, i: nat): (r: ChunkState)
    requires i <= |lines|
    decreases |lines| - i
  {
    if i == |lines| then st else Run(unit, lines, Step(st, i, lines[i], unit(lines[i])), i + 1)
  }

  /** The unit test of a file with extension `ext`, as a function of the line. */
  function UnitTest(ext: string): string -> bool {
    line => IsNewUnit(ext, line)
  }

  /** After the loop, a non-empty open chunk becomes the last one, ending at `n`. */
  function Finish(st: ChunkState, n: int): seq<Chunk> {
    if |st.current| > 0 then st.chunks + [Chunk(st.start, n, st.current)] else st.chunks
  }

  /** `_chunk_by_heuristics` on the lines of a file with extension `ext`. */
  function HeuristicChunks(ext: string, lines: seq<string>): seq<Chunk> {
    Finish(Run(UnitTest(ext), lines, ChunkState([], [], 0), 0), |lines|)
  }

  /** The lines of the chunks, in order. */
  function Flatten(cs: seq<Chunk>): seq<string> {
    if |cs| == 0 then [] else Flatten(cs[..|cs| - 1]) + cs[|cs| - 1].body
  }

  /** Every chunk is non-empty, starts where the chunks before it end and ends at its last line. */
  predicate Placed(cs: seq<Chunk>)
    decreases |cs|
  {
    |cs| == 0 ||
    var n := |cs| - 1;
    Placed(cs[..n]) && |cs[n].body| > 0 && cs[n].startLine == |Flatten(cs[..n])| && cs[n].endLine == cs[n].startLine + |cs[n].body| - 1
  }

  /** The loop invariant: the closed chunks and the open one together are the lines seen. */
  predicate Good(st: ChunkState, lines: seq<string>, i: nat) {
    i <= |lines| && Flatten(st.chunks) + st.current == lines[..i] && st.start == |Flatten(st.chunks)| && Placed(st.chunks)
  }

  /** Appending a chunk appends its lines. */
  lemma FlattenSnoc(cs: seq<Chunk>, c: Chunk)
    ensures Flatten(cs + [c]) == Flatten(cs) + c.body
  {
    assert (cs + [c])[..|cs|] == cs;
  }

  /** Appending a well placed chunk keeps the chunks placed. */
  lemma PlacedSnoc(cs: seq<Chunk>, c: Chunk)
    requires Placed(cs)
    requires |c.body| > 0 && c.startLine == |Flatten(cs)| && c.endLine == c.startLine + |c.body| - 1
    ensures Placed(cs + [c])
  {
    assert (cs + [c])[..|cs|] == cs;
  }

  /** Appending line `i` to the open chunk keeps the invariant. */
  lemma GoodExtend(st: ChunkState, lines: seq<string>, i: nat)
    requires i < |lines| && Good(st, lines, i)
    ensures Good(st.(current := st.current + [lines[i]]), lines, i + 1)
  {
    assert lines[..i + 1] == lines[..i] + [lines[i]];
  }

  /** Closing the open chunk before a unit's line, which opens the next chunk, keeps the invariant. */
  lemma GoodCutUnit(st: ChunkState, lines: seq<string>, i: nat)
    requires i < |lines| && Good(st, lines, i) && |st.current| > 0
    ensures Good(ChunkState(st.chunks + [Chunk(st.start, i - 1, st.current)], [lines[i]], i), lines, i + 1)
  {
    assert lines[..i + 1] == lines[..i] + [lines[i]];
    var c := Chunk(st.start, i - 1, st.current);
    FlattenSnoc(st.chunks, c);
    PlacedSnoc(st.chunks, c);
  }

  /** Closing the open chunk with line `i` in it keeps the invariant. */
  lemma GoodCutSize(st: ChunkState, lines: seq<string>, i: nat)
    requires i < |lines| && Good(st, lines, i)
    ensures Good(ChunkState(st.chunks + [Chunk(st.start, i, st.current + [lines[i]])], [], i + 1), lines, i + 1)
  {
    assert lines[..i + 1] == lines[..i] + [lines[i]];
    var c := Chunk(st.start, i, st.current + [lines[i]]);
    FlattenSnoc(st.chunks, c);
    PlacedSnoc(st.chunks, c);
  }

  /** The loop body keeps the invariant, whatever the unit test said of the line. */
  lemma StepGood(lines: seq<string>, st: ChunkState, i: nat, isNew: bool)
    requires i < |lines| && Good(st, lines, i)
    ensures Good(Step(st, i, lines[i], isNew), lines, i + 1)
  {
    var cur := st.current + [lines[i]];
    if !Cuts(cur, isNew) {
      GoodExtend(st, lines, i);
    } else if isNew {
      GoodCutUnit(st, lines, i);
    } else {
      GoodCutSize(st, lines, i);
    }
  }

  /** The whole loop keeps the invariant. */
  lemma {:induction false} RunGood(unit: string -> bool, lines: seq<string>, st: ChunkState, i: nat)
    requires i <= |lines| && Good(st, lines, i)
    ensures Good(Run(unit, lines, st, i), lines, |lines|)
    decreases |lines| - i
  {
    if i < |lines| {
      StepGood(lines, st, i, unit(lines[i]));
      RunGood(unit, lines, Step(st, i, lines[i], unit(lines[i])), i + 1);
    }
  }

  /** The last of placed chunks ends on the last of their lines. */
  lemma PlacedLast(cs: seq<Chunk>)
    requires Placed(cs) && |cs| > 0
    ensures cs[|cs| - 1].endLine == |Flatten(cs)| - 1
  {
  }

  /** Placed chunks are non-empty, the first starts at line 0, and each starts on the line after the previous one ends. */
  lemma {:induction false} PlacedConsecutive(cs: seq<Chunk>)
    requires Placed(cs)
    ensures forall k :: 0 <= k < |cs| ==> |cs[k].body| > 0
    ensures |cs| > 0 ==> cs[0].startLine == 0
    ensures forall k :: 0 <= k < |cs| - 1 ==> cs[k].endLine + 1 == cs[k + 1].startLine
    decreases |cs|
  {
    if |cs| > 0 {
      var n := |cs| - 1;
      var init := cs[..n];
      PlacedConsecutive(init);
      assert forall k :: 0 <= k < n ==> init[k] == cs[k];
      if n > 0 {
        PlacedLast(init);
      } else {
        assert init == [];
      }
    }
  }

  /** What the partition lemma states about the chunks of a file with `n` lines. */
  predicate Partition(r: seq<Chunk>, lines: seq<string>) {
    Flatten(r) == lines && |r| > 0 && r[0].startLine == 0 &&
    (forall k :: 0 <= k < |r| ==> |r[k].body| > 0) &&
    (forall k :: 0 <= k < |r| - 1 ==> r[k].endLine + 1 == r[k + 1].startLine) &&
    (r[|r| - 1].endLine == |lines| || r[|r| - 1].endLine == |lines| - 1)
  }

  /** Closing the open chunk after the loop yields a partition of the lines. */
  lemma FinishPartition(st: ChunkState, lines: seq<string>)
    requires |lines| > 0 && Good(st, lines, |lines|)
    ensures Partition(Finish(st, |lines|), lines)
  {
    assert lines[..|lines|] == lines;
    PlacedConsecutive(st.chunks);
    if |st.chunks| > 0 {
      PlacedLast(st.chunks);
    }
    if |st.current| > 0 {
      var c := Chunk(st.start, |lines|, st.current);
      FlattenSnoc(st.chunks, c);
      var r := st.chunks + [c];
      assert forall k :: 0 <= k < |st.chunks| ==> r[k] == st.chunks[k];
    }
  }

  /**
   * The chunks partition the lines: together they are exactly the lines, in
   * order; none is empty; the first starts at line 0; each later one starts
   * on the line after the previous one ends; and the last ends at the number
   * of lines when the loop left lines open, or at the last line's index when
   * the final line closed a chunk.
   */
  lemma HeuristicPartition(ext: string, lines: seq<string>)
    requires |lines| > 0
    ensures Partition(HeuristicChunks(ext, lines), lines)
  {
    var init := ChunkState([], [], 0);
    assert Good(init, lines, 0);
    RunGood(UnitTest(ext), lines, init, 0);
    FinishPartition(Run(UnitTest(ext), lines, init, 0), lines);
  }

  /** `_chunk_by_heuristics`, with its loop over the lines of the file. */
  method ChunkByHeuristics(filePath: string, content: string) returns (r: seq<Chunk>)
    ensures r == HeuristicChunks(Extension(filePath), SplitOn(content, '\n'))
  {
    var lines := SplitOn(content, '\n');
    var ext := Extension(filePath);
    var chunks: seq<Chunk> := [];
    var current: seq<string> := [];
    var start := 0;
    var i := 0;
    while i < |lines|
      invariant 0 <= i <= |lines|
      invariant Run(UnitTest(ext), lines, ChunkState([], [], 0), 0) == Run(UnitTest(ext), lines, ChunkState(chunks, current, start), i)
    {
      var line := lines[i];
      current := current + [line];
      var isNew := IsNewUnit(ext, line);
      assert isNew == UnitTest(ext)(line);
      if (isNew && |current| > 10) || |Join("\n", current)| > Config.ChunkSize {
        if |current| > 1 {
          if isNew {
            chunks := chunks + [Chunk(start, i - 1, current[..|current| - 1])];
            current := [line];
            start := i;
          } else {
            chunks := chunks + [Chunk(start, i, current)];
            current := [];
            start := i + 1;
          }
        }
      }
      i := i + 1;
    }
    if |current| > 0 {
      chunks := chunks + [Chunk(start, |lines|, current)];
    }
    r := chunks;
  }

  // ---------------------------------------------------------------- repository summary

  /** A chunk as the summary reads it: its text and the metadata of its file. */
  datatype CodeChunk = CodeChunk(content: string, meta: FileMetadata)

  /** What `_extract_repository_metadata` returns; its id lists are sets, whose order Python leaves unspecified. */
  datatype RepoMetadata = RepoMetadata(
    detectedTechnologies: set<string>,
    services: set<string>,
    entryPoints: seq<string>,
    externalDependencies: set<string>)

  /** The frameworks a dependency manifest is searched for, with the names recorded. */
  const Frameworks: seq<(string, string)> := [
    ("express", "Express.js"), ("react", "React"), ("django", "Django"), ("flask", "Flask"), ("spring", "Spring")
  ]

  /** The frameworks whose key occurs in `text`, from index `from` on. */
  function FrameworksIn(text: string, from: nat): (r: set<string>)
    requires from <= |Frameworks|
    ensures forall t :: t in r <==> exists k :: from <= k < |Frameworks| && Contains(text, Frameworks[k].0) && t == Frameworks[k].1
    decreases |Frameworks| - from
  {
    if from == |Frameworks| then {}
    else (if Contains(text, Frameworks[from].0) then {Frameworks[from].1} else {}) + FrameworksIn(text, from + 1)
  }

  /** The technologies one chunk contributes. */
  function ChunkTechnologies(c: CodeChunk): set<string> {
    if c.meta.kind == Some("dockerfile") && c.meta.baseImage.Some? then {"Docker: " + c.meta.baseImage.value}
    else if c.meta.kind == Some("docker_compose") && c.meta.services.Some? then {}
    else if c.meta.kind == Some("dependencies") then FrameworksIn(Lower(c.content), 0)
    else {}
  }

  /** The services one chunk contributes. */
  function ChunkServices(c: CodeChunk): (r: set<string>)
    ensures r != {} ==> c.meta.kind == Some("docker_compose")
  {
    if c.meta.kind == Some("dockerfile") && c.meta.baseImage.Some? then {}
    else if c.meta.kind == Some("docker_compose") && c.meta.services.Some? then
      set k | 0 <= k < |c.meta.services.value| :: c.meta.services.value[k]
    else {}
  }

  /** A dependency manifest contributes exactly the frameworks whose key occurs in its lower-cased text. */
  lemma DependencyFrameworks(c: CodeChunk, t: string)
    requires c.meta.kind == Some("dependencies")
    ensures t in ChunkTechnologies(c) <==>
      exists k :: 0 <= k < |Frameworks| && Contains(Lower(c.content), Frameworks[k].0) && t == Frameworks[k].1
  {
  }

  /** The chunk is an entry point: application code whose file name mentions `main` or `index`. */
  predicate IsEntryPoint(c: CodeChunk) {
    c.meta.category == "app_code" && (Contains(Lower(c.meta.fileName), "main") || Contains(Lower(c.meta.fileName), "index"))
  }

  /** What one chunk adds to the summary `m`. */
  function SummaryStep(m: RepoMetadata, c: CodeChunk): (r: RepoMetadata)
    ensures r.detectedTechnologies == m.detectedTechnologies + ChunkTechnologies(c)
    ensures r.services == m.services + ChunkServices(c)
    ensures r.entryPoints == m.entryPoints + (if IsEntryPoint(c) then [c.meta.filePath] else [])
    ensures r.externalDependencies == m.externalDependencies
  {
    RepoMetadata(
      m.detectedTechnologies + ChunkTechnologies(c),
      m.services + ChunkServices(c),
      m.entryPoints + (if IsEntryPoint(c) then [c.meta.filePath] else []),
      m.externalDependencies)
  }

  /** The technologies of `chunks`. */
  function Technologies(chunks: seq<CodeChunk>): set<string>
    decreases |chunks|
  {
    if |chunks| == 0 then {} else Technologies(chunks[..|chunks| - 1]) + ChunkTechnologies(chunks[|chunks| - 1])
  }

  /** The services of `chunks`. */
  function Services(chunks: seq<CodeChunk>): set<string>
    decreases |chunks|
  {
    if |chunks| == 0 then {} else Services(chunks[..|chunks| - 1]) + ChunkServices(chunks[|chunks| - 1])
  }

  /** The entry points of `chunks`, in chunk order. */
  function EntryPoints(chunks: seq<CodeChunk>): seq<string>
    decreases |chunks|
  {
    if |chunks| == 0 then []
    else
      var c := chunks[|chunks| - 1];
      EntryPoints(chunks[..|chunks| - 1]) + (if IsEntryPoint(c) then [c.meta.filePath] else [])
  }

  /** The summary of `chunks`. */
  function Summary(chunks: seq<CodeChunk>): RepoMetadata {
    RepoMetadata(Technologies(chunks), Services(chunks), EntryPoints(chunks), {})
  }

  /** The loop adding the services of a compose chunk. */
  method AddServices(services: set<string>, names: seq<string>) returns (r: set<string>)
    ensures r == services + set k | 0 <= k < |names| :: names[k]
  {
    r := services;
    var j := 0;
    while j < |names|
      invariant 0 <= j <= |names|
      invariant r == services + set k | 0 <= k < j :: names[k]
    {
      r := r + {names[j]};
      j := j + 1;
    }
  }

  /** The framework tests on a dependency manifest. */
  method AddFrameworks(technologies: set<string>, text: string) returns (r: set<string>)
    ensures r == technologies + FrameworksIn(text, 0)
  {
    r := technologies;
    var k := 0;
    while k < |Frameworks|
      invariant 0 <= k <= |Frameworks|
      invariant r + FrameworksIn(text, k) == technologies + FrameworksIn(text, 0)
    {
      if Contains(text, Frameworks[k].0) {
        r := r + {Frameworks[k].1};
      }
      k := k + 1;
    }
  }

  /** The loop body of `_extract_repository_metadata`. */
  method AddChunk(m: RepoMetadata, c: CodeChunk) returns (r: RepoMetadata)
    ensures r == SummaryStep(m, c)
  {
    var technologies := m.detectedTechnologies;
    var services := m.services;
    var entryPoints := m.entryPoints;
    if c.meta.kind == Some("dockerfile") && c.meta.baseImage.Some? {
      technologies := technologies + {"Docker: " + c.meta.baseImage.value};
    } else if c.meta.kind == Some("docker_compose") && c.meta.services.Some? {
      services := AddServices(services, c.meta.services.value);
    } else if c.meta.kind == Some("dependencies") {
      technologies := AddFrameworks(technologies, Lower(c.content));
    }
    if IsEntryPoint(c) {
      entryPoints := entryPoints + [c.meta.filePath];
    } else {
      assert entryPoints + [] == entryPoints;
    }
    r := RepoMetadata(technologies, services, entryPoints, m.externalDependencies);
  }

  /** `_extract_repository_metadata`, with its loop over the chunks. */
  method ExtractRepositoryMetadata(chunks: seq<CodeChunk>) returns (r: RepoMetadata)
    ensures r == Summary(chunks)
  {
    r := RepoMetadata({}, {}, [], {});
    var i := 0;
    while i < |chunks|
      invariant 0 <= i <= |chunks|
      invariant r == Summary(chunks[..i])
    {
      assert chunks[..i + 1][..i] == chunks[..i];
      r := AddChunk(r, chunks[i]);
      assert r == Summary(chunks[..i + 1]);
      i := i + 1;
    }
    assert chunks[..|chunks|] == chunks;
  }

  /** The number of entry-point chunks. */
  function EntryCount(chunks: seq<CodeChunk>): nat
    decreases |chunks|
  {
    if |chunks| == 0 then 0
    else EntryCount(chunks[..|chunks| - 1]) + (if IsEntryPoint(chunks[|chunks| - 1]) then 1 else 0)
  }

  /** One entry point per entry-point chunk, duplicates kept. */
  lemma {:induction false} SummaryEntryCount(chunks: seq<CodeChunk>)
    ensures |EntryPoints(chunks)| == EntryCount(chunks)
    decreases |chunks|
  {
    if |chunks| > 0 {
      SummaryEntryCount(chunks[..|chunks| - 1]);
    }
  }

  /** The chunk is an entry point of file `p`. */
  predicate EntryOf(c: CodeChunk, p: string) {
    IsEntryPoint(c) && p == c.meta.filePath
  }

  /** The entry points are exactly the file paths of the entry-point chunks. */
  lemma {:induction false} SummaryEntryPoints(chunks: seq<CodeChunk>, p: string)
    ensures p in EntryPoints(chunks) <==> exists k :: 0 <= k < |chunks| && EntryOf(chunks[k], p)
    decreases |chunks|
  {
    if |chunks| > 0 {
      var n := |chunks| - 1;
      SummaryEntryPoints(chunks[..n], p);
      if exists k :: 0 <= k < |chunks| && EntryOf(chunks[k], p) {
        var k :| 0 <= k < |chunks| && EntryOf(chunks[k], p);
        if k < n {
          assert chunks[..n][k] == chunks[k];
        }
      }
      if exists k :: 0 <= k < n && EntryOf(chunks[..n][k], p) {
        var k :| 0 <= k < n && EntryOf(chunks[..n][k], p);
        assert chunks[..n][k] == chunks[k];
      }
    }
  }

  /** No framework name looks like a Docker technology. */
  lemma FrameworksNotDocker(text: string, image: string)
    ensures "Docker: " + image !in FrameworksIn(text, 0)
  {
    var t := "Docker: " + image;
    assert t[0] == 'D';
    assert Frameworks[0].1[0] == 'E' && Frameworks[1].1[0] == 'R' && Frameworks[2].1[0] == 'D' && Frameworks[3].1[0] == 'F' && Frameworks[4].1[0] == 'S';
    assert |Frameworks[2].1| == 6;
    forall k | 0 <= k < |Frameworks|
      ensures t != Frameworks[k].1
    {
      if k == 2 {
        assert t[1] == 'o' && Frameworks[2].1[1] == 'j';
      }
    }
  }

  /** The chunk is a Dockerfile chunk with base image `image`. */
  predicate DockerfileOf(c: CodeChunk, image: string) {
    c.meta.kind == Some("dockerfile") && c.meta.baseImage == Some(image)
  }

  /** A chunk contributes `Docker: image` exactly when it is a Dockerfile chunk with that base image. */
  lemma ChunkDocker(c: CodeChunk, image: string)
    ensures "Docker: " + image in ChunkTechnologies(c) <==> DockerfileOf(c, image)
  {
    var t := "Docker: " + image;
    FrameworksNotDocker(Lower(c.content), image);
    if c.meta.kind == Some("dockerfile") && c.meta.baseImage.Some? {
      var u := "Docker: " + c.meta.baseImage.value;
      if t == u {
        assert t[8..] == image && u[8..] == c.meta.baseImage.value;
      }
    }
  }

  /** Every `Docker: …` technology comes from the base image of a Dockerfile chunk, and each such image is listed. */
  lemma {:induction false} SummaryDockerImages(chunks: seq<CodeChunk>, image: string)
    ensures "Docker: " + image in Technologies(chunks) <==> exists k :: 0 <= k < |chunks| && DockerfileOf(chunks[k], image)
    decreases |chunks|
  {
    if |chunks| > 0 {
      var n := |chunks| - 1;
      SummaryDockerImages(chunks[..n], image);
      ChunkDocker(chunks[n], image);
      if exists k :: 0 <= k < |chunks| && DockerfileOf(chunks[k], image) {
        var k :| 0 <= k < |chunks| && DockerfileOf(chunks[k], image);
        if k < n {
          assert chunks[..n][k] == chunks[k];
        }
      }
      if exists k :: 0 <= k < n && DockerfileOf(chunks[..n][k], image) {
        var k :| 0 <= k < n && DockerfileOf(chunks[..n][k], image);
        assert chunks[..n][k] == chunks[k];
      }
    }
  }
}
