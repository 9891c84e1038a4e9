/**
 * `src/scanner/repository_scanner.py`: the dependency-file readers, the
 * Kubernetes-manifest test and the grouping of source files by language.
 * File contents arrive as their lines (each with its line ending, as Python
 * iterates a file) or as the loaded document; `rglob` arrives as the list
 * of files it would walk.
 */
module RepositoryScanner {
  import opened Wrappers
  import opened Strings
  import opened Values
  import opened PyDict
  import opened Paths

  // ---------------------------------------------------------------- dependency files

  /** `[f(x) for x in xs if keep(x)]`. */
  function Comprehension<T, U>(xs: seq<T>, keep: T -> bool, f: T -> U): (r: seq<U>)
    ensures |r| <= |xs|
  {
    if |xs| == 0 then []
    else (if keep(xs[0]) then [f(xs[0])] else []) + Comprehension(xs[1..], keep, f)
  }

  /** An element of a comprehension is the image of a kept element, and every kept element's image is one. */
  lemma {:induction false} ComprehensionMembers<T, U>(xs: seq<T>, keep: T -> bool, f: T -> U, y: U)
    ensures y in Comprehension(xs, keep, f) <==> exists i :: 0 <= i < |xs| && keep(xs[i]) && y == f(xs[i])
  {
    if |xs| > 0 {
      ComprehensionMembers(xs[1..], keep, f, y);
      if exists i :: 0 <= i < |xs| && keep(xs[i]) && y == f(xs[i]) {
        var i :| 0 <= i < |xs| && keep(xs[i]) && y == f(xs[i]);
        if i > 0 {
          assert xs[1..][i - 1] == xs[i];
        }
      }
      if exists j :: 0 <= j < |xs[1..]| && keep(xs[1..][j]) && y == f(xs[1..][j]) {
        var j :| 0 <= j < |xs[1..]| && keep(xs[1..][j]) && y == f(xs[1..][j]);
        assert xs[1..][j] == xs[j + 1];
      }
    }
  }

  /** The lines of `requirements.txt` kept: non-empty once stripped, and not starting with '#' before stripping. */
  predicate KeptRequirement(line: string) {
    |Strip(line)| > 0 && !("#" <= line)
  }

  /** `_parse_requirements`. */
  function Requirements(lines: seq<string>): (r: seq<string>)
    ensures |r| <= |lines|
  {
    Comprehension(lines, KeptRequirement, Strip)
  }

  /** A requirement is listed exactly when it is the stripped text of a kept line, and it is never empty. */
  lemma RequirementsMembers(lines: seq<string>, s: string)
    ensures s in Requirements(lines) <==> exists i :: 0 <= i < |lines| && KeptRequirement(lines[i]) && s == Strip(lines[i])
    ensures s in Requirements(lines) ==> |s| > 0
  {
    ComprehensionMembers(lines, KeptRequirement, Strip, s);
  }

  /** An indented comment is not recognised: the '#' test looks at the line before stripping. */
  lemma IndentedCommentKept(line: string)
    requires |line| > 0 && line[0] == ' '
    requires |Strip(line)| > 0
    ensures Requirements([line]) == [Strip(line)]
  {
    assert !("#" <= line);
    assert [line][1..] == [];
  }

  /** The lines of `go.mod` kept: those whose stripped text starts with `require`. */
  predicate KeptGoLine(line: string) {
    "require" <= Strip(line)
  }

  /** `_parse_go_mod`. */
  function GoRequires(lines: seq<string>): (r: seq<string>)
    ensures |r| <= |lines|
  {
    Comprehension(lines, KeptGoLine, Strip)
  }

  /** A `go.mod` entry is listed exactly when it is the stripped text of a line starting with `require`. */
  lemma GoRequiresMembers(lines: seq<string>, s: string)
    ensures s in GoRequires(lines) <==> exists i :: 0 <= i < |lines| && KeptGoLine(lines[i]) && s == Strip(lines[i])
    ensures s in GoRequires(lines) ==> "require" <= s
  {
    ComprehensionMembers(lines, KeptGoLine, Strip, s);
  }

  /** `_parse_package_json` on the loaded document; None when it is not a mapping. */
  function PackageJson(data: Value): (r: Option<Value>)
    ensures r.Some? <==> data.Obj?
    ensures r.Some? ==> r.value.Obj? && Keys(r.value.fields) == ["dependencies", "devDependencies"]
    ensures r.Some? ==> Lookup(r.value.fields, "dependencies") == Some(Lookup(data.fields, "dependencies").GetOr(Obj([])))
    ensures r.Some? ==> Lookup(r.value.fields, "devDependencies") == Some(Lookup(data.fields, "devDependencies").GetOr(Obj([])))
  {
    var deps :- Get(data, "dependencies", Obj([]));
    var dev :- Get(data, "devDependencies", Obj([]));
    Some(Obj([("dependencies", deps), ("devDependencies", dev)]))
  }

  /** `_is_kubernetes_manifest`; `None` is a file that could not be read or loaded. */
  function IsKubernetesManifest(content: Option<Value>): (r: bool)
    ensures r <==> content.Some? && content.value.Obj? && "kind" in Keys(content.value.fields)
  {
    match content
    case None => false
    case Some(doc) => doc.Obj? && HasIn(doc, "kind") == Some(true)
  }

  // ---------------------------------------------------------------- source code

  /** The language table of `_scan_source_code`, in its order. */
  const LanguageExtensions: seq<(string, seq<string>)> := [
    ("python", [".py"]),
    ("java", [".java"]),
    ("javascript", [".js", ".ts"]),
    ("go", [".go"]),
    ("csharp", [".cs"])
  ]

  /** `s` ends with `suffix`. */
  predicate EndsWith(s: string, suffix: string) {
    |suffix| <= |s| && s[|s| - |suffix|..] == suffix
  }

  /** `rglob('*' + ext)` over the files of the repository, in walk order. */
  function Glob(files: seq<Path>, ext: string): (r: seq<Path>)
    ensures |r| <= |files|
  {
    if |files| == 0 then []
    else (if EndsWith(files[0].Name(), ext) then [files[0]] else []) + Glob(files[1..], ext)
  }

  /** The files of one language: the matches of each of its extensions, extension by extension. */
  function GlobAll(files: seq<Path>, exts: seq<string>): seq<Path> {
    if |exts| == 0 then [] else Glob(files, exts[0]) + GlobAll(files, exts[1..])
  }

  /** `rglob` finds exactly the files whose name ends with the extension. */
  lemma {:induction false} GlobMembers(files: seq<Path>, ext: string, p: Path)
    ensures p in Glob(files, ext) <==> p in files && EndsWith(p.Name(), ext)
  {
    if |files| > 0 {
      GlobMembers(files[1..], ext, p);
      assert files == [files[0]] + files[1..];
    }
  }

  /** A language's files are exactly those whose name ends with one of its extensions. */
  lemma {:induction false} GlobAllMembers(files: seq<Path>, exts: seq<string>, p: Path)
    ensures p in GlobAll(files, exts) <==> p in files && exists e :: e in exts && EndsWith(p.Name(), e)
  {
    if |exts| > 0 {
      GlobMembers(files, exts[0], p);
      GlobAllMembers(files, exts[1..], p);
      assert exts == [exts[0]] + exts[1..];
    }
  }

  /** The languages of `table` from `acc` on: a language is added only when it has a file. */
  function SourceCodeFrom(files: seq<Path>, table: seq<(string, seq<string>)>, acc: Dict<string, seq<Path>>): (r: Dict<string, seq<Path>>)
    ensures acc.Valid() ==> r.Valid()
    decreases |table|
  {
    if |table| == 0 then acc
    else
      var found := GlobAll(files, table[0].1);
      SourceCodeFrom(files, table[1..], if |found| > 0 then acc.Put(table[0].0, found) else acc)
  }

  /** The languages of `table` that have files, from `acc` on. */
  predicate HasFiles(files: seq<Path>, entry: (string, seq<string>)) {
    |GlobAll(files, entry.1)| > 0
  }

  /** The inner loop of `_scan_source_code`: the files of one language. */
  method CollectLanguage(files: seq<Path>, exts: seq<string>) returns (found: seq<Path>)
    ensures found == GlobAll(files, exts)
  {
    found := [];
    var j := 0;
    while j < |exts|
      invariant 0 <= j <= |exts|
      invariant GlobAll(files, exts) == found + GlobAll(files, exts[j..])
    {
      assert exts[j..][1..] == exts[j + 1..];
      found := found + Glob(files, exts[j]);
      j := j + 1;
    }
    assert exts[j..] == [];
    assert found + [] == found;
  }

  /** `_scan_source_code`, with its loop over the language table. */
  method ScanSourceCode(files: seq<Path>) returns (r: Dict<string, seq<Path>>)
    ensures r == SourceCodeFrom(files, LanguageExtensions, Empty())
  {
    var table := LanguageExtensions;
    r := Empty();
    var i := 0;
    while i < |table|
      invariant 0 <= i <= |table|
      invariant SourceCodeFrom(files, table, Empty()) == SourceCodeFrom(files, table[i..], r)
    {
      assert table[i..][1..] == table[i + 1..];
      var found := CollectLanguage(files, table[i].1);
      if |found| > 0 {
        r := r.Put(table[i].0, found);
      }
      i := i + 1;
    }
  }

  /** A language is a key when it already was one or some entry for it has files. */
  lemma {:induction false} SourceCodeKeys(files: seq<Path>, table: seq<(string, seq<string>)>, acc: Dict<string, seq<Path>>, lang: string)
    ensures lang in SourceCodeFrom(files, table, acc).vals <==>
      lang in acc.vals || exists k :: 0 <= k < |table| && table[k].0 == lang && HasFiles(files, table[k])
    decreases |table|
  {
    if |table| > 0 {
      var found := GlobAll(files, table[0].1);
      var next := if |found| > 0 then acc.Put(table[0].0, found) else acc;
      SourceCodeKeys(files, table[1..], next, lang);
      if exists k :: 0 <= k < |table| && table[k].0 == lang && HasFiles(files, table[k]) {
        var k :| 0 <= k < |table| && table[k].0 == lang && HasFiles(files, table[k]);
        if k > 0 {
          assert table[1..][k - 1] == table[k];
        }
      }
      if exists k :: 0 <= k < |table[1..]| && table[1..][k].0 == lang && HasFiles(files, table[1..][k]) {
        var k :| 0 <= k < |table[1..]| && table[1..][k].0 == lang && HasFiles(files, table[1..][k]);
        assert table[1..][k] == table[k + 1];
      }
    }
  }

  /** A language the table does not name keeps whatever it had. */
  lemma {:induction false} SourceCodeFrame(files: seq<Path>, table: seq<(string, seq<string>)>, acc: Dict<string, seq<Path>>, lang: string)
    requires lang !in Keys2(table)
    ensures lang in SourceCodeFrom(files, table, acc).vals <==> lang in acc.vals
    ensures lang in acc.vals ==> SourceCodeFrom(files, table, acc).vals[lang] == acc.vals[lang]
    decreases |table|
  {
    if |table| > 0 {
      var found := GlobAll(files, table[0].1);
      var next := if |found| > 0 then acc.Put(table[0].0, found) else acc;
      assert Keys2(table) == [table[0].0] + Keys2(table[1..]);
      SourceCodeFrame(files, table[1..], next, lang);
    }
  }

  /** With distinct language names, a language with files maps to exactly those files. */
  lemma {:induction false} SourceCodeValue(files: seq<Path>, table: seq<(string, seq<string>)>, acc: Dict<string, seq<Path>>, k: nat)
    requires Distinct(Keys2(table))
    requires k < |table| && HasFiles(files, table[k])
    ensures table[k].0 in SourceCodeFrom(files, table, acc).vals
    ensures SourceCodeFrom(files, table, acc).vals[table[k].0] == GlobAll(files, table[k].1)
    decreases |table|
  {
    var found := GlobAll(files, table[0].1);
    var next := if |found| > 0 then acc.Put(table[0].0, found) else acc;
    assert Keys2(table) == [table[0].0] + Keys2(table[1..]);
    if k == 0 {
      assert table[0].0 !in Keys2(table[1..]);
      SourceCodeFrame(files, table[1..], next, table[0].0);
    } else {
      assert table[1..][k - 1] == table[k];
      DistinctTail(Keys2(table));
      assert Keys2(table)[1..] == Keys2(table[1..]);
      SourceCodeValue(files, table[1..], next, k - 1);
    }
  }

  /** Dropping the head keeps a sequence duplicate-free. */
  lemma DistinctTail<T>(s: seq<T>)
    requires |s| > 0 && Distinct(s)
    ensures Distinct(s[1..])
  {
  }

  /** The first components of a table's entries. */
  function Keys2<A, B>(table: seq<(A, B)>): (r: seq<A>)
    ensures |r| == |table|
    ensures forall k :: 0 <= k < |table| ==> r[k] == table[k].0
  {
    if |table| == 0 then [] else [table[0].0] + Keys2(table[1..])
  }

  /** The table names each language once. */
  lemma LanguagesDistinct()
    ensures Distinct(Keys2(LanguageExtensions))
  {
    var ks := Keys2(LanguageExtensions);
    assert ks[0][0] == 'p' && ks[1][0] == 'j' && ks[2][0] == 'j' && ks[3][0] == 'g' && ks[4][0] == 'c';
    assert |ks[1]| == 4 && |ks[2]| == 10;
    forall i, j | 0 <= i < j < |ks|
      ensures ks[i] != ks[j]
    {
      if i == 1 && j == 2 {
        assert |ks[i]| != |ks[j]|;
      } else {
        assert ks[i][0] != ks[j][0];
      }
    }
  }

  /**
   * Over a table naming each language once, a language is listed exactly
   * when some file matches one of its extensions, and then under it every
   * such file; `LanguagesDistinct` shows the table of `_scan_source_code`
   * is one.
   */
  lemma ScanLanguages(files: seq<Path>, table: seq<(string, seq<string>)>, k: nat)
    requires Distinct(Keys2(table))
    requires k < |table|
    ensures var r := SourceCodeFrom(files, table, Empty());
      (table[k].0 in r.vals <==> HasFiles(files, table[k])) &&
      (HasFiles(files, table[k]) ==> r.vals[table[k].0] == GlobAll(files, table[k].1))
  {
    var r := SourceCodeFrom(files, table, Empty());
    SourceCodeKeys(files, table, Empty(), table[k].0);
    assert table[k].0 !in Empty<string, seq<Path>>().vals;
    if table[k].0 in r.vals {
      var j :| 0 <= j < |table| && table[j].0 == table[k].0 && HasFiles(files, table[j]);
      assert Keys2(table)[j] == Keys2(table)[k];
      assert j == k;
    }
    if HasFiles(files, table[k]) {
      SourceCodeValue(files, table, Empty(), k);
    }
  }
}
