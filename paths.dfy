/**
 * The part of `pathlib.PurePosixPath` the pipeline uses: `name`,
 * `parent`, `suffix`, `stem` and `str()`.
 */
module Paths {
  import opened Wrappers
  import opened Strings

  /**
   * A normalised path: its anchor ("" for a relative path, "/" for an
   * absolute one) and its components, none of them empty or containing '/'.
   */
  datatype Path = Path(anchor: string, parts: seq<string>) {

    /** `str(p)`; a relative path with no components is ".". */
    function Str(): string {
      if anchor == "" && parts == [] then "." else anchor + Join("/", parts)
    }

    /** `p.name`: the last component, "" when there is none. */
    function Name(): string {
      if |parts| == 0 then "" else parts[|parts| - 1]
    }

    /** `p / name` for a single component `name`. */
    function Child(name: string): (r: Path)
      ensures r.Name() == name && r.Parent() == this
    {
      assert (parts + [name])[..|parts|] == parts;
      Path(anchor, parts + [name])
    }

    /** `p.parent`: the path without its last component. */
    function Parent(): Path {
      if |parts| == 0 then this else Path(anchor, parts[..|parts| - 1])
    }

    /** Index of the dot that starts the suffix, by pathlib's rule `0 < i < len(name) - 1`. */
    function SuffixDot(): (r: Option<nat>)
      ensures r.Some? ==> 0 < r.value < |Name()| - 1 && Name()[r.value] == '.'
      ensures r.Some? ==> '.' !in Name()[r.value + 1..]
    {
      match LastIndexOf(Name(), '.')
      case Some(i) => if 0 < i < |Name()| - 1 then Some(i) else None
      case None => None
    }

    /** `p.suffix`: from the last dot on, or "" for a leading, trailing or missing dot. */
    function Suffix(): (r: string)
      ensures r == "" || (r[0] == '.' && '.' !in r[1..] && |r| >= 2)
    {
      match SuffixDot()
      case Some(i) => Name()[i..]
      case None => ""
    }

    /** `p.stem`: the name without its suffix. */
    function Stem(): string {
      match SuffixDot()
      case Some(i) => Name()[..i]
      case None => Name()
    }
  }

  /** The stem and the suffix together make up the name. */
  lemma StemSuffix(p: Path)
    ensures p.Stem() + p.Suffix() == p.Name()
  {
    match p.SuffixDot()
    case Some(i) => assert p.Name() == p.Name()[..i] + p.Name()[i..];
    case None =>
  }

  /** `str(p / name)` is `str(p)`, a slash and the name, or the anchor and the name for a path with no components. */
  lemma ChildStr(p: Path, name: string)
    ensures p.Child(name).Str() == if p.parts == [] then p.anchor + name else p.Str() + "/" + name
  {
    JoinSnoc("/", p.parts, name);
    if p.parts == [] {
      assert p.Child(name).Str() == p.anchor + Join("/", [name]);
    }
  }

  /** `str(p / name)` ends with the name, so it is never empty when the name is not. */
  lemma ChildStrEndsWith(p: Path, name: string)
    ensures var s := p.Child(name).Str();
            |name| <= |s| && s[|s| - |name|..] == name
  {
    ChildStr(p, name);
    var s := p.Child(name).Str();
    var head := if p.parts == [] then p.anchor else p.Str() + "/";
    assert s == head + name;
    assert (head + name)[|head|..] == name;
  }
}
