/**
 * The subset of Python's `str` behaviour the pipeline relies on:
 * whitespace stripping and splitting, `split(sep)`, `join`, substring
 * tests, ASCII case mapping, `isdigit`, `int()` and decimal rendering.
 * Characters outside ASCII are treated as ordinary letters: Python's
 * Unicode whitespace, digits and case tables are not modelled.
 */
module Strings {
  import opened Wrappers

  /** Python's `str.isspace` restricted to ASCII: space, \t \n \v \f \r and \x1c-\x1f. */
  predicate IsSpace(c: char) {
    c == ' ' || ('\t' <= c <= '\r') || ('\U{001C}' <= c <= '\U{001F}')
  }

  predicate IsDigit(c: char) {
    '0' <= c <= '9'
  }

  predicate NoSpace(s: string) {
    forall i :: 0 <= i < |s| ==> !IsSpace(s[i])
  }

  predicate Distinct<T(==)>(s: seq<T>) {
    forall i, j :: 0 <= i < j < |s| ==> s[i] != s[j]
  }

  /** Concatenation is associative. */
  lemma AppendAssoc<T>(a: seq<T>, b: seq<T>, c: seq<T>)
    ensures a + b + c == a + (b + c)
  {
  }

  /** A text framed by a prefix and a suffix: each of the three parts can be read back. */
  lemma {:induction false} Framed<T>(pre: seq<T>, mid: seq<T>, suf: seq<T>)
    ensures pre <= pre + mid + suf
    ensures (pre + mid + suf)[|pre + mid + suf| - |suf|..] == suf
    ensures (pre + mid + suf)[|pre + mid + suf| - |mid + suf|..] == mid + suf
    ensures (pre + mid + suf)[|pre|..|pre + mid + suf| - |suf|] == mid
  {
    var t := pre + mid + suf;
    assert t == pre + (mid + suf);
    assert t[|pre|..] == mid + suf;
    assert (mid + suf)[..|mid|] == mid;
  }

  /** Appending a new element keeps a sequence duplicate-free. */
  lemma DistinctSnoc<T>(s: seq<T>, x: T)
    requires Distinct(s) && x !in s
    ensures Distinct(s + [x])
  {
    var t := s + [x];
    forall i, j | 0 <= i < j < |t|
      ensures t[i] != t[j]
    {
      if j == |s| {
        assert t[i] == s[i];
      }
    }
  }

  // ---------------------------------------------------------------- stripping

  /** `s.lstrip()`: the suffix left after dropping leading whitespace. */
  function TrimLeft(s: string): (r: string)
    ensures |r| <= |s| && r == s[|s| - |r|..]
    ensures r == [] || !IsSpace(r[0])
    ensures forall i :: 0 <= i < |s| - |r| ==> IsSpace(s[i])
  {
    if |s| > 0 && IsSpace(s[0]) then TrimLeft(s[1..]) else s
  }

  /** `s.rstrip()`: the prefix left after dropping trailing whitespace. */
  function TrimRight(s: string): (r: string)
    ensures |r| <= |s| && r == s[..|r|]
    ensures r == [] || !IsSpace(r[|r| - 1])
    ensures forall i :: |r| <= i < |s| ==> IsSpace(s[i])
  {
    if |s| > 0 && IsSpace(s[|s| - 1]) then TrimRight(s[..|s| - 1]) else s
  }

  /** `s.strip()`. */
  function Strip(s: string): (r: string)
    ensures |r| <= |s|
    ensures r == [] || (!IsSpace(r[0]) && !IsSpace(r[|r| - 1]))
  {
    TrimRight(TrimLeft(s))
  }

  // ---------------------------------------------------------------- searching

  /** `sub` occurs in `s` starting at index `i`. */
  predicate OccursAt(s: string, sub: string, i: int) {
    0 <= i <= |s| - |sub| && s[i..i + |sub|] == sub
  }

  /** `sub in s`. */
  predicate Contains(s: string, sub: string) {
    exists i | 0 <= i <= |s| - |sub| :: OccursAt(s, sub, i)
  }

  /** Index of the first occurrence of `c`. */
  function IndexOf(s: string, c: char): (r: Option<nat>)
    ensures r.None? <==> c !in s
    ensures r.Some? ==> r.value < |s| && s[r.value] == c && c !in s[..r.value]
  {
    if |s| == 0 then None
    else if s[0] == c then Some(0)
    else
      match IndexOf(s[1..], c)
      case None => None
      case Some(k) =>
        assert s[..k + 1] == [s[0]] + s[1..][..k];
        Some(k + 1)
  }

  /** Index of the last occurrence of `c` (`str.rfind`). */
  function LastIndexOf(s: string, c: char): (r: Option<nat>)
    ensures r.None? <==> c !in s
    ensures r.Some? ==> r.value < |s| && s[r.value] == c && c !in s[r.value + 1..]
  {
    if |s| == 0 then None
    else if s[|s| - 1] == c then Some(|s| - 1)
    else
      match LastIndexOf(s[..|s| - 1], c)
      case None =>
        assert s == s[..|s| - 1] + [s[|s| - 1]];
        None
      case Some(k) =>
        assert s[k + 1..] == s[..|s| - 1][k + 1..] + [s[|s| - 1]];
        Some(k)
  }

  /** The index of the first element, from index `from` on, satisfying `p`: a loop that stops at the first match. */
  function FirstWhere<T>(xs: seq<T>, p: T -> bool, from: nat): (r: Option<nat>)
    requires from <= |xs|
    ensures r.None? <==> forall k :: from <= k < |xs| ==> !p(xs[k])
    ensures r.Some? ==> from <= r.value < |xs| && p(xs[r.value])
    ensures r.Some? ==> forall k :: from <= k < r.value ==> !p(xs[k])
    decreases |xs| - from
  {
    if from == |xs| then None
    else if p(xs[from]) then Some(from)
    else FirstWhere(xs, p, from + 1)
  }

  /** One step of the search from `from`. */
  lemma FirstWhereStep<T>(xs: seq<T>, p: T -> bool, from: nat)
    requires from < |xs|
    ensures FirstWhere(xs, p, from) == if p(xs[from]) then Some(from) else FirstWhere(xs, p, from + 1)
  {
  }

  /** `[x for x in xs if p(x)]`. */
  function Filter<T(!new)>(xs: seq<T>, p: T -> bool): (r: seq<T>)
    ensures |r| <= |xs|
    ensures forall x :: x in r <==> x in xs && p(x)
    decreases |xs|
  {
    if |xs| == 0 then []
    else
      var rest := Filter(xs[1..], p);
      assert forall x :: x in xs <==> x == xs[0] || x in xs[1..];
      (if p(xs[0]) then [xs[0]] else []) + rest
  }

  /** Filtering commutes with concatenation, so the kept elements keep their order. */
  lemma {:induction false} FilterAppend<T(!new)>(a: seq<T>, b: seq<T>, p: T -> bool)
    ensures Filter(a + b, p) == Filter(a, p) + Filter(b, p)
    decreases |a|
  {
    if |a| == 0 {
      assert a + b == b;
    } else {
      assert (a + b)[0] == a[0] && (a + b)[1..] == a[1..] + b;
      FilterAppend(a[1..], b, p);
      AppendAssoc(if p(a[0]) then [a[0]] else [], Filter(a[1..], p), Filter(b, p));
    }
  }

  /**
   * `[f(x) for x in xs]` where each call may raise (None): the results in
   * order, or None as soon as one call raises.
   */
  function TryMap<T, U>(xs: seq<T>, f: T -> Option<U>): (r: Option<seq<U>>)
    ensures r.Some? <==> forall i :: 0 <= i < |xs| ==> f(xs[i]).Some?
    ensures r.Some? ==> |r.value| == |xs| && forall i :: 0 <= i < |xs| ==> f(xs[i]) == Some(r.value[i])
    decreases |xs|
  {
    if |xs| == 0 then Some([])
    else
      var init := xs[..|xs| - 1];
      match TryMap(init, f)
      case None => None
      case Some(front) =>
        match f(xs[|xs| - 1])
        case None => None
        case Some(last) => Some(front + [last])
  }

  /** One more successful call extends the mapped prefix by its result. */
  lemma TryMapSnoc<T, U>(xs: seq<T>, f: T -> Option<U>, i: nat, front: seq<U>, last: U)
    requires i < |xs| && TryMap(xs[..i], f) == Some(front) && f(xs[i]) == Some(last)
    ensures TryMap(xs[..i + 1], f) == Some(front + [last])
  {
    assert xs[..i + 1][..i] == xs[..i];
  }

  /** The loop that builds `[f(x) for x in xs]` call by call, stopping at the first call that raises. */
  method TryMapEach<T, U>(xs: seq<T>, f: T -> Option<U>) returns (r: Option<seq<U>>)
    ensures r == TryMap(xs, f)
  {
    var out: seq<U> := [];
    var i := 0;
    while i < |xs|
      invariant 0 <= i <= |xs|
      invariant TryMap(xs[..i], f) == Some(out)
    {
      var y := f(xs[i]);
      if y.None? {
        TryMapFails(xs, f, i);
        return None;
      }
      TryMapSnoc(xs, f, i, out, y.value);
      out := out + [y.value];
      i := i + 1;
    }
    assert xs[..i] == xs;
    return Some(out);
  }

  /** `[f(x) for x in xs]`. */
  function MapSeq<T, U>(xs: seq<T>, f: T -> U): (r: seq<U>)
    ensures |r| == |xs| && forall i :: 0 <= i < |xs| ==> r[i] == f(xs[i])
    decreases |xs|
  {
    if |xs| == 0 then [] else MapSeq(xs[..|xs| - 1], f) + [f(xs[|xs| - 1])]
  }

  /** Mapping one more element appends its image. */
  lemma MapSeqSnoc<T, U>(xs: seq<T>, f: T -> U, i: nat)
    requires i < |xs|
    ensures MapSeq(xs[..i + 1], f) == MapSeq(xs[..i], f) + [f(xs[i])]
  {
    assert xs[..i + 1][..i] == xs[..i];
  }

  /** The values that are present, in order. */
  function Somes<T(!new)>(xs: seq<Option<T>>): (r: seq<T>)
    ensures |r| <= |xs|
    ensures forall y :: y in r <==> Some(y) in xs
    ensures (forall i :: 0 <= i < |xs| ==> xs[i].Some?) ==>
              |r| == |xs| && forall i :: 0 <= i < |xs| ==> r[i] == xs[i].value
    decreases |xs|
  {
    if |xs| == 0 then []
    else
      var init := xs[..|xs| - 1];
      var last := xs[|xs| - 1];
      assert forall x :: x in xs <==> x in init || x == last;
      assert forall i :: 0 <= i < |init| ==> init[i] == xs[i];
      Somes(init) + (if last.Some? then [last.value] else [])
  }

  /** One more element adds its value when it is present. */
  lemma SomesSnoc<T(!new)>(xs: seq<Option<T>>, i: nat)
    requires i < |xs|
    ensures Somes(xs[..i + 1]) == Somes(xs[..i]) + (if xs[i].Some? then [xs[i].value] else [])
  {
    assert xs[..i + 1][..i] == xs[..i];
  }

  /** `[f(x) for x in xs if keep(x)]`. */
  function FilterMap<T, U>(xs: seq<T>, keep: T -> bool, f: T -> U): (r: seq<U>)
    ensures |r| <= |xs|
    decreases |xs|
  {
    if |xs| == 0 then []
    else
      var last := xs[|xs| - 1];
      FilterMap(xs[..|xs| - 1], keep, f) + (if keep(last) then [f(last)] else [])
  }

  lemma FilterMapSnoc<T, U>(xs: seq<T>, keep: T -> bool, f: T -> U, i: nat)
    requires i < |xs|
    ensures FilterMap(xs[..i + 1], keep, f) == FilterMap(xs[..i], keep, f) + (if keep(xs[i]) then [f(xs[i])] else [])
  {
    assert xs[..i + 1][..i] == xs[..i];
  }

  /** Every value kept comes from an element that passed the test. */
  lemma {:induction false} FilterMapSound<T, U>(xs: seq<T>, keep: T -> bool, f: T -> U, y: U)
    requires y in FilterMap(xs, keep, f)
    ensures exists k :: 0 <= k < |xs| && keep(xs[k]) && y == f(xs[k])
    decreases |xs|
  {
    var init := xs[..|xs| - 1];
    var last := xs[|xs| - 1];
    var front := FilterMap(init, keep, f);
    assert FilterMap(xs, keep, f) == front + (if keep(last) then [f(last)] else []);
    if y in front {
      FilterMapSound(init, keep, f, y);
      var k :| 0 <= k < |init| && keep(init[k]) && y == f(init[k]);
      assert xs[k] == init[k];
    } else {
      assert keep(last) && y == f(last);
      assert xs[|xs| - 1] == last;
    }
  }

  /** Every element that passes the test is kept. */
  lemma {:induction false} FilterMapComplete<T, U>(xs: seq<T>, keep: T -> bool, f: T -> U, k: nat)
    requires k < |xs| && keep(xs[k])
    ensures f(xs[k]) in FilterMap(xs, keep, f)
    decreases |xs|
  {
    var init := xs[..|xs| - 1];
    var last := xs[|xs| - 1];
    var front := FilterMap(init, keep, f);
    assert FilterMap(xs, keep, f) == front + (if keep(last) then [f(last)] else []);
    if k < |init| {
      assert init[k] == xs[k];
      FilterMapComplete(init, keep, f, k);
      assert f(xs[k]) in front;
    }
  }

  /** Nothing is kept from elements that all fail the test. */
  lemma {:induction false} FilterMapNone<T, U>(xs: seq<T>, keep: T -> bool, f: T -> U)
    requires forall k :: 0 <= k < |xs| ==> !keep(xs[k])
    ensures FilterMap(xs, keep, f) == []
    decreases |xs|
  {
    if |xs| > 0 {
      var init := xs[..|xs| - 1];
      assert forall k :: 0 <= k < |init| ==> init[k] == xs[k];
      FilterMapNone(init, keep, f);
    }
  }

  /** Keeping the values distributes over concatenation. */
  lemma {:induction false} SomesConcat<T(!new)>(a: seq<Option<T>>, b: seq<Option<T>>)
    ensures Somes(a + b) == Somes(a) + Somes(b)
    decreases |b|
  {
    if |b| == 0 {
      assert a + b == a;
    } else {
      var c := a + b;
      var front := b[..|b| - 1];
      var last := b[|b| - 1];
      var tail := if last.Some? then [last.value] else [];
      assert c[..|c| - 1] == a + front;
      assert c[|c| - 1] == last;
      SomesConcat(a, front);
      assert Somes(c) == Somes(a + front) + tail;
      assert Somes(b) == Somes(front) + tail;
      AppendAssoc(Somes(a), Somes(front), tail);
    }
  }

  /** Mapping distributes over concatenation. */
  lemma MapSeqConcat<T, U>(a: seq<T>, b: seq<T>, f: T -> U)
    ensures MapSeq(a + b, f) == MapSeq(a, f) + MapSeq(b, f)
  {
    var l := MapSeq(a + b, f);
    var r := MapSeq(a, f) + MapSeq(b, f);
    forall i | 0 <= i < |l|
      ensures l[i] == r[i]
    {
      if i < |a| {
        assert (a + b)[i] == a[i];
      } else {
        assert (a + b)[i] == b[i - |a|];
      }
    }
  }

  /** When every call on `ys` returns the value `g` gives the matching element of `xs`, the kept values are `g` mapped over `xs`. */
  lemma SomesMapAll<S, T, U(!new)>(ys: seq<S>, f: S -> Option<U>, xs: seq<T>, g: T -> U)
    requires |ys| == |xs| && forall i :: 0 <= i < |xs| ==> f(ys[i]) == Some(g(xs[i]))
    ensures Somes(MapSeq(ys, f)) == MapSeq(xs, g)
  {
    var mapped := MapSeq(ys, f);
    assert forall i :: 0 <= i < |mapped| ==> mapped[i] == f(ys[i]);
  }

  /** One more call of a filtering loop: its result is appended, and kept when it is a value. */
  lemma SelectSnoc<T, U(!new)>(xs: seq<T>, f: T -> Option<Option<U>>, i: nat, seen: seq<Option<U>>, entry: Option<U>)
    requires i < |xs| && TryMap(xs[..i], f) == Some(seen) && f(xs[i]) == Some(entry)
    ensures TryMap(xs[..i + 1], f) == Some(seen + [entry])
    ensures Somes(seen + [entry]) == Somes(seen) + (if entry.Some? then [entry.value] else [])
  {
    TryMapSnoc(xs, f, i, seen, entry);
    SomesSnoc(seen + [entry], |seen|);
    assert (seen + [entry])[..|seen|] == seen;
    assert (seen + [entry])[..|seen| + 1] == seen + [entry];
  }

  /** One failing call makes the whole map fail. */
  lemma TryMapFails<T, U>(xs: seq<T>, f: T -> Option<U>, i: nat)
    requires i < |xs| && f(xs[i]).None?
    ensures TryMap(xs, f).None?
  {
  }

  /** One more element of a map-then-filter loop. */
  lemma SomesMapSnoc<T, U(!new)>(xs: seq<T>, f: T -> Option<U>, i: nat)
    requires i < |xs|
    ensures Somes(MapSeq(xs[..i + 1], f)) == Somes(MapSeq(xs[..i], f)) + (if f(xs[i]).Some? then [f(xs[i]).value] else [])
  {
    var mapped := MapSeq(xs[..i + 1], f);
    MapSeqSnoc(xs, f, i);
    SomesSnoc(mapped, i);
    assert mapped[..i] == MapSeq(xs[..i], f);
    assert mapped[..i + 1] == mapped;
  }

  /** A value kept from the calls' results came from one of the calls. */
  lemma SelectedFrom<T, U(!new)>(xs: seq<T>, f: T -> Option<Option<U>>, y: U)
    requires TryMap(xs, f).Some? && y in Somes(TryMap(xs, f).value)
    ensures exists i :: 0 <= i < |xs| && f(xs[i]) == Some(Some(y))
  {
    var ys := TryMap(xs, f).value;
    var i :| 0 <= i < |ys| && ys[i] == Some(y);
    assert f(xs[i]) == Some(ys[i]);
  }

  /** Every value a call returns is kept. */
  lemma SelectedAt<T, U(!new)>(xs: seq<T>, f: T -> Option<Option<U>>, i: nat)
    requires TryMap(xs, f).Some? && i < |xs| && f(xs[i]).Some? && f(xs[i]).value.Some?
    ensures f(xs[i]).value.value in Somes(TryMap(xs, f).value)
  {
    var ys := TryMap(xs, f).value;
    assert ys[i] == f(xs[i]).value;
  }

  /** `list(s)`: every element once, in an order the model leaves open (Python's set order). */
  method ListOf<T>(s: set<T>) returns (r: seq<T>)
    ensures forall x :: x in r <==> x in s
    ensures Distinct(r) && |r| == |s|
  {
    r := [];
    var rest := s;
    ghost var seen: set<T> := {};
    while rest != {}
      invariant forall x :: x in r <==> x in seen
      invariant seen !! rest && seen + rest == s
      invariant Distinct(r) && |r| == |seen|
      decreases |rest|
    {
      assert rest != {} ==> exists y :: y in rest;
      var x :| x in rest;
      DistinctSnoc(r, x);
      r := r + [x];
      seen := seen + {x};
      rest := rest - {x};
    }
  }

  /**
   * The first entry, from index `from` on, of a lookup table whose key is a
   * substring of `s`: a Python loop over a dict's items that returns on the
   * first `key in s`.
   */
  function FirstContained<T>(s: string, table: seq<(string, T)>, from: nat): (r: Option<nat>)
    requires from <= |table|
    ensures r.None? <==> forall k :: from <= k < |table| ==> !Contains(s, table[k].0)
    ensures r.Some? ==> from <= r.value < |table| && Contains(s, table[r.value].0)
    ensures r.Some? ==> forall k :: from <= k < r.value ==> !Contains(s, table[k].0)
    decreases |table| - from
  {
    if from == |table| then None
    else if Contains(s, table[from].0) then Some(from)
    else FirstContained(s, table, from + 1)
  }

  // ---------------------------------------------------------------- case mapping

  function LowerChar(c: char): char {
    if 'A' <= c <= 'Z' then (c as int + 32) as char else c
  }

  function UpperChar(c: char): char {
    if 'a' <= c <= 'z' then (c as int - 32) as char else c
  }

  /** `s.lower()` on ASCII letters. */
  function Lower(s: string): (r: string)
    ensures |r| == |s| && forall i :: 0 <= i < |s| ==> r[i] == LowerChar(s[i])
  {
    seq(|s|, i requires 0 <= i < |s| => LowerChar(s[i]))
  }

  /** `s.upper()` on ASCII letters. */
  function Upper(s: string): (r: string)
    ensures |r| == |s| && forall i :: 0 <= i < |s| ==> r[i] == UpperChar(s[i])
  {
    seq(|s|, i requires 0 <= i < |s| => UpperChar(s[i]))
  }

  /** `s.replace(a, b)` for single characters. */
  function ReplaceChar(s: string, a: char, b: char): (r: string)
    ensures |r| == |s|
    ensures forall i :: 0 <= i < |s| ==> r[i] == (if s[i] == a then b else s[i])
  {
    seq(|s|, i requires 0 <= i < |s| => if s[i] == a then b else s[i])
  }

  // ---------------------------------------------------------------- splitting and joining

  /** `s.split(c)` for a one-character separator. */
  function SplitOn(s: string, c: char): (r: seq<string>)
    ensures |r| >= 1
    ensures forall k :: 0 <= k < |r| ==> c !in r[k]
    ensures |r| == 1 <==> c !in s
  {
    if |s| == 0 then [""]
    else
      var rest := SplitOn(s[1..], c);
      if s[0] == c then [""] + rest
      else
        assert s == [s[0]] + s[1..];
        [[s[0]] + rest[0]] + rest[1..]
  }

  /** `sep.join(parts)`. */
  function Join(sep: string, parts: seq<string>): (r: string)
  {
    if |parts| == 0 then ""
    else if |parts| == 1 then parts[0]
    else parts[0] + sep + Join(sep, parts[1..])
  }

  /** Joining one more part appends the separator and the part. */
  lemma {:induction false} JoinSnoc(sep: string, parts: seq<string>, last: string)
    ensures Join(sep, parts + [last]) == if |parts| == 0 then last else Join(sep, parts) + sep + last
    decreases |parts|
  {
    if |parts| > 1 {
      assert (parts + [last])[1..] == parts[1..] + [last];
      JoinSnoc(sep, parts[1..], last);
    } else if |parts| == 1 {
      assert (parts + [last])[1..] == [last];
    }
  }

  /** A join starts with its first part. */
  lemma JoinFirst(sep: string, parts: seq<string>)
    requires |parts| > 0
    ensures |Join(sep, parts)| >= |parts[0]| && Join(sep, parts)[..|parts[0]|] == parts[0]
  {
    if |parts| > 1 {
      var rest := sep + Join(sep, parts[1..]);
      assert Join(sep, parts) == parts[0] + rest;
    }
  }

  /** Splitting a string at `c` and joining the pieces with `c` gives the string back. */
  lemma {:induction false} SplitJoin(s: string, c: char)
    ensures Join([c], SplitOn(s, c)) == s
  {
    if |s| > 0 {
      SplitJoin(s[1..], c);
      var rest := SplitOn(s[1..], c);
      if s[0] != c {
        if |rest| > 1 {
          assert [[s[0]] + rest[0]] + rest[1..] == [[s[0]] + rest[0]] + [rest[1]] + rest[2..];
        }
      }
    }
  }

  /** `s.split(c, 1)` when `c` occurs in `s`: the text before and after the first `c`. */
  function SplitAtFirst(s: string, c: char): (r: (string, string))
    requires c in s
    ensures s == r.0 + [c] + r.1 && c !in r.0
  {
    var i := IndexOf(s, c).value;
    assert s == s[..i] + [c] + s[i + 1..];
    (s[..i], s[i + 1..])
  }

  /** The longest prefix of `s` holding no whitespace. */
  function Word(s: string): (w: string)
    ensures w <= s && NoSpace(w)
    ensures |w| < |s| ==> IsSpace(s[|w|])
  {
    if |s| == 0 || IsSpace(s[0]) then "" else [s[0]] + Word(s[1..])
  }

  /** `s.split()`: the maximal runs of non-whitespace, in order. */
  function Tokens(s: string): (r: seq<string>)
    decreases |s|
  {
    var t := TrimLeft(s);
    if t == [] then []
    else
      var w := Word(t);
      [w] + Tokens(t[|w|..])
  }

  /**
   * `s.split(maxsplit=n)`: at most `n` splits at whitespace runs; the
   * remainder after the last split keeps its inner and trailing whitespace.
   */
  function TokensMax(s: string, n: nat): (r: seq<string>)
    decreases |s|
  {
    var t := TrimLeft(s);
    if t == [] then []
    else if n == 0 then [t]
    else
      var w := Word(t);
      [w] + TokensMax(t[|w|..], n - 1)
  }

  // ---------------------------------------------------------------- digits and numbers

  /** A word stops at the first whitespace character. */
  lemma {:induction false} WordUntilSpace(w: string, rest: string)
    requires NoSpace(w) && (rest == [] || IsSpace(rest[0]))
    ensures Word(w + rest) == w
    decreases |w|
  {
    if |w| == 0 {
      assert w + rest == rest;
    } else {
      assert (w + rest)[1..] == w[1..] + rest;
      WordUntilSpace(w[1..], rest);
    }
  }

  /** Leading whitespace is dropped one character at a time. */
  lemma {:induction false} TrimLeftSpace(s: string)
    requires |s| > 0 && IsSpace(s[0])
    ensures TrimLeft(s) == TrimLeft(s[1..])
  {
  }

  /** `split(maxsplit=n)` of a text that starts with a word, for `n > 0`: that word, then the rest split once fewer. */
  lemma {:induction false} TokensMaxWord(s: string, n: nat)
    requires |s| > 0 && !IsSpace(s[0]) && n > 0
    ensures TokensMax(s, n) == [Word(s)] + TokensMax(s[|Word(s)|..], n - 1)
  {
    assert TrimLeft(s) == s;
  }

  /** A space and one word split, at most once, into that word. */
  lemma {:induction false} SpacedWord(w: string)
    requires |w| > 0 && NoSpace(w)
    ensures TokensMax(" " + w, 1) == [w]
  {
    var tail := " " + w;
    assert tail[1..] == w;
    TrimLeftSpace(tail);
    WordUntilSpace(w, []);
    assert w + [] == w;
    TokensMaxWord(w, 1);
    assert w[|w|..] == [];
  }

  /** Two words joined by a space split, at most twice, into exactly those two words. */
  lemma {:induction false} TwoTokens(w1: string, w2: string)
    requires |w1| > 0 && |w2| > 0 && NoSpace(w1) && NoSpace(w2)
    ensures TokensMax(w1 + " " + w2, 2) == [w1, w2]
  {
    var tail := " " + w2;
    var s := w1 + tail;
    assert w1 + " " + w2 == s;
    WordUntilSpace(w1, tail);
    assert s[0] == w1[0];
    TokensMaxWord(s, 2);
    assert s[|w1|..] == tail;
    SpacedWord(w2);
  }

  /** `s.isdigit()` on ASCII: non-empty and all digits. */
  predicate IsDigits(s: string) {
    |s| > 0 && forall i :: 0 <= i < |s| ==> IsDigit(s[i])
  }

  /** The longest prefix of `s` made of digits. */
  function DigitPrefix(s: string): (d: string)
    ensures d <= s && forall i :: 0 <= i < |d| ==> IsDigit(d[i])
    ensures |d| < |s| ==> !IsDigit(s[|d|])
  {
    if |s| == 0 || !IsDigit(s[0]) then "" else [s[0]] + DigitPrefix(s[1..])
  }

  /** `re.findall(r'\d+', s)` on ASCII digits: every maximal digit run, in order. */
  function DigitRuns(s: string): (r: seq<string>)
    ensures forall k :: 0 <= k < |r| ==> IsDigits(r[k])
    decreases |s|
  {
    if |s| == 0 then []
    else if IsDigit(s[0]) then
      var d := DigitPrefix(s);
      [d] + DigitRuns(s[|d|..])
    else DigitRuns(s[1..])
  }

  /** The numeric value of a string of decimal digits. */
  function DigitsValue(s: string): (n: nat)
    requires forall i :: 0 <= i < |s| ==> IsDigit(s[i])
  {
    if |s| == 0 then 0
    else
      assert IsDigit(s[|s| - 1]);
      10 * DigitsValue(s[..|s| - 1]) + (s[|s| - 1] as int - '0' as int)
  }

  /** Python's `int(s)` on a token: an optional sign then ASCII digits; None when it raises. */
  function ParseInt(s: string): (r: Option<int>)
    ensures r.Some? <==> (IsDigits(s) || (|s| > 1 && (s[0] == '+' || s[0] == '-') && IsDigits(s[1..])))
  {
    if IsDigits(s) then Some(DigitsValue(s))
    else if |s| > 1 && s[0] == '+' && IsDigits(s[1..]) then Some(DigitsValue(s[1..]))
    else if |s| > 1 && s[0] == '-' && IsDigits(s[1..]) then Some(-(DigitsValue(s[1..]) as int))
    else None
  }

  function DigitChar(d: nat): (c: char)
    requires d < 10
    ensures IsDigit(c)
  {
    ('0' as int + d) as char
  }

  /** `str(n)` for a natural number. */
  function NatToString(n: nat): (s: string)
    ensures IsDigits(s)
  {
    if n < 10 then [DigitChar(n)] else NatToString(n / 10) + [DigitChar(n % 10)]
  }

  /** `str(i)` for an integer. */
  function IntToString(i: int): (s: string)
    ensures |s| > 0
  {
    if i < 0 then "-" + NatToString(-i) else NatToString(i)
  }

  /** Rendering a number and reading it back gives the number. */
  lemma {:induction false} NatToStringRoundTrip(n: nat)
    ensures DigitsValue(NatToString(n)) == n
  {
    if n >= 10 {
      NatToStringRoundTrip(n / 10);
      var s := NatToString(n);
      assert s[..|s| - 1] == NatToString(n / 10);
    }
  }
}
