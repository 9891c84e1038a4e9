/**
 * The PlantUML call forms both diagram writers print: quoted arguments,
 * macro calls `Fn(id, "a", "b")` and `Rel(...)` lines.
 */
module PlantUml {
  import opened Strings

  function Quoted(s: string): string {
    "\"" + s + "\""
  }

  /** `, "a", "b"`: each argument quoted, after a comma. */
  function QuotedArgs(args: seq<string>): string
    decreases |args|
  {
    if |args| == 0 then "" else ", " + Quoted(args[0]) + QuotedArgs(args[1..])
  }

  /** The PlantUML call form `Fn(id, "a", "b")`. */
  function Call(fn: string, id: string, args: seq<string>): string {
    fn + "(" + id + QuotedArgs(args) + ")"
  }

  predicate StartsWith(s: string, prefix: string) {
    |prefix| <= |s| && s[..|prefix|] == prefix
  }

  /** A call line starts with its macro's name and an opening parenthesis. */
  lemma CallStartsWith(fn: string, id: string, args: seq<string>)
    ensures StartsWith(Call(fn, id, args), fn + "(")
  {
    var rest := id + QuotedArgs(args) + ")";
    assert Call(fn, id, args) == (fn + "(") + rest;
    assert ((fn + "(") + rest)[..|fn + "("|] == fn + "(";
  }

  /** `Rel(source, target, "description"<suffix>)`: the endpoints unquoted. */
  function RelLine(source: string, target: string, description: string, suffix: string): string {
    "Rel(" + source + ", " + target + ", " + Quoted(description) + suffix + ")"
  }

  /** A loop that appends one line per element. */
  method AppendEach<T>(xs: seq<T>, line: T -> string) returns (r: seq<string>)
    ensures r == MapSeq(xs, line)
  {
    r := [];
    var i := 0;
    while i < |xs|
      invariant 0 <= i <= |xs|
      invariant r == MapSeq(xs[..i], line)
    {
      MapSeqSnoc(xs, line, i);
      r := r + [line(xs[i])];
      i := i + 1;
    }
    assert xs[..i] == xs;
  }

  /** A loop that appends one line per element that passes its test. */
  method AppendEachWhere<T>(xs: seq<T>, keep: T -> bool, line: T -> string) returns (r: seq<string>)
    ensures r == FilterMap(xs, keep, line)
  {
    r := [];
    var i := 0;
    while i < |xs|
      invariant 0 <= i <= |xs|
      invariant r == FilterMap(xs[..i], keep, line)
    {
      FilterMapSnoc(xs, keep, line, i);
      if keep(xs[i]) {
        r := r + [line(xs[i])];
      }
      i := i + 1;
    }
    assert xs[..i] == xs;
  }
}
