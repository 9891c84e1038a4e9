/**
 * A loaded YAML, JSON or HCL document, as `yaml.safe_load`, `json.loads`
 * and `hcl2.load` produce it, together with the Python operations the
 * pipeline applies to such values.  Operations that raise in Python on a
 * value of the wrong shape (`.get` on a list, iterating an integer, `in`
 * on `None`) return `None` here, so a caller can propagate the failure.
 */
module Values {
  import opened Wrappers
  import opened Strings

  /** Mapping keys are strings; the entries of a mapping keep their order. */
  datatype Value =
    | Null
    | Bool(b: bool)
    | Int(i: int)
    | Str(s: string)
    | List(items: seq<Value>)
    | Obj(fields: seq<(string, Value)>)

  type Fields = seq<(string, Value)>

  function Keys(fields: Fields): (r: seq<string>)
    ensures |r| == |fields|
    ensures forall i :: 0 <= i < |fields| ==> r[i] == fields[i].0
  {
    seq(|fields|, i requires 0 <= i < |fields| => fields[i].0)
  }

  /** `d[k]` on the entries of a mapping: the first entry under `k`. */
  function Lookup(fields: Fields, k: string): (r: Option<Value>)
    ensures r.None? <==> k !in Keys(fields)
    ensures r.Some? ==> (k, r.value) in fields
  {
    if |fields| == 0 then None
    else if fields[0].0 == k then Some(fields[0].1)
    else
      assert Keys(fields) == [fields[0].0] + Keys(fields[1..]);
      Lookup(fields[1..], k)
  }

  /** The entry at `i` is the first under its key, so looking the key up finds it. */
  lemma {:induction false} LookupAt(fields: Fields, i: nat)
    requires i < |fields|
    requires forall j :: 0 <= j < i ==> fields[j].0 != fields[i].0
    ensures Lookup(fields, fields[i].0) == Some(fields[i].1)
  {
    if i > 0 {
      LookupAt(fields[1..], i - 1);
    }
  }

  /** The keys of an entry followed by more entries. */
  lemma KeysCons(e: (string, Value), rest: Fields)
    ensures Keys([e] + rest) == [e.0] + Keys(rest)
  {
    var a := Keys([e] + rest);
    var b := [e.0] + Keys(rest);
    forall i | 0 <= i < |a|
      ensures a[i] == b[i]
    {
      if i > 0 {
        assert ([e] + rest)[i] == rest[i - 1];
      }
    }
  }

  /** `d[k] = v`: an existing key keeps its position, a new key goes last. */
  function SetField(fields: Fields, k: string, v: Value): (r: Fields)
    ensures k in Keys(fields) ==> Keys(r) == Keys(fields)
    ensures k !in Keys(fields) ==> Keys(r) == Keys(fields) + [k]
  {
    if |fields| == 0 then [(k, v)]
    else
      assert fields == [fields[0]] + fields[1..];
      KeysCons(fields[0], fields[1..]);
      if fields[0].0 == k then
        KeysCons((k, v), fields[1..]);
        [(k, v)] + fields[1..]
      else
        var rest := SetField(fields[1..], k, v);
        KeysCons(fields[0], rest);
        [fields[0]] + rest
  }

  /** After `d[k] = v`, `d[k]` is `v` and every other key keeps its value. */
  lemma {:induction false} LookupSetField(fields: Fields, k: string, v: Value, j: string)
    ensures Lookup(SetField(fields, k, v), j) == if j == k then Some(v) else Lookup(fields, j)
  {
    if |fields| > 0 && fields[0].0 != k {
      LookupSetField(fields[1..], k, v, j);
    }
  }

  /** `LookupSetField` for every key at once. */
  lemma LookupSetFieldAll(fields: Fields, k: string, v: Value)
    ensures forall j :: Lookup(SetField(fields, k, v), j) == if j == k then Some(v) else Lookup(fields, j)
  {
    forall j {
      LookupSetField(fields, k, v, j);
    }
  }

  /** `d.update(e)` on the entries of two mappings. */
  function MergeFields(base: Fields, extra: Fields): Fields
    decreases |extra|
  {
    if |extra| == 0 then base else MergeFields(SetField(base, extra[0].0, extra[0].1), extra[1..])
  }

  /** The value of the last entry under `k`, if any. */
  function LastField(fs: Fields, k: string): (r: Option<Value>)
    ensures r.Some? <==> k in Keys(fs)
  {
    if |fs| == 0 then None
    else
      assert Keys(fs) == [fs[0].0] + Keys(fs[1..]);
      match LastField(fs[1..], k)
      case Some(v) => Some(v)
      case None => if fs[0].0 == k then Some(fs[0].1) else None
  }

  /** A merge leaves each key at the last value the extra entries give it, or at its old value. */
  lemma {:induction false} MergeFieldsLookup(base: Fields, extra: Fields, k: string)
    ensures Lookup(MergeFields(base, extra), k) == if k in Keys(extra) then LastField(extra, k) else Lookup(base, k)
    decreases |extra|
  {
    if |extra| > 0 {
      assert Keys(extra) == [extra[0].0] + Keys(extra[1..]);
      MergeFieldsLookup(SetField(base, extra[0].0, extra[0].1), extra[1..], k);
      LookupSetField(base, extra[0].0, extra[0].1, k);
    }
  }

  /**
   * The key and value `d.update(items)` unpacks from one item: a two-element
   * list, a two-character string, or a mapping with two keys (iterated as
   * its keys). None when the item does not unpack into exactly two values
   * (TypeError, ValueError) or its key is not a string.
   */
  function UpdatePair(item: Value): (r: Option<(string, Value)>)
    ensures r.Some? <==> || (item.List? && |item.items| == 2 && item.items[0].Str?)
                         || (item.Str? && |item.s| == 2)
                         || (item.Obj? && |item.fields| == 2 && item.fields[0].0 != item.fields[1].0)
    ensures item.List? && r.Some? ==> r.value == (item.items[0].s, item.items[1])
    ensures item.Str? && r.Some? ==> r.value == ([item.s[0]], Str([item.s[1]]))
    ensures item.Obj? && r.Some? ==> r.value == (item.fields[0].0, Str(item.fields[1].0))
  {
    match item
    case List(xs) => if |xs| == 2 && xs[0].Str? then Some((xs[0].s, xs[1])) else None
    case Str(s) => if |s| == 2 then Some(([s[0]], Str([s[1]]))) else None
    case Obj(fs) => if |fs| == 2 && fs[0].0 != fs[1].0 then Some((fs[0].0, Str(fs[1].0))) else None
    case _ => None
  }

  /**
   * `d.update(other)` on a dict with entries `base`: a mapping is merged in, a
   * sequence is merged in pair by pair, and None is returned when the call
   * raises (a scalar, a non-empty string whose characters do not unpack, a
   * sequence item that does not unpack).
   */
  function DictUpdate(base: Fields, other: Value): (r: Option<Fields>)
    ensures r.Some? <==> || other.Obj? || other == Str("")
                         || (other.List? && forall i :: 0 <= i < |other.items| ==> UpdatePair(other.items[i]).Some?)
    ensures other.Obj? ==> r == Some(MergeFields(base, other.fields))
    ensures other == Str("") || other == List([]) ==> r == Some(base)
  {
    match other
    case Obj(fs) => Some(MergeFields(base, fs))
    case Str(s) => if s == "" then Some(base) else None
    case List(items) =>
      (match TryMap(items, UpdatePair)
       case None => None
       case Some(pairs) => Some(MergeFields(base, pairs)))
    case _ => None
  }

  /**
   * After a successful update every key holds the last value the update
   * gives it (the mapping's entries, or the pairs of the sequence in order),
   * and every other key keeps its value.
   */
  lemma DictUpdateLookup(base: Fields, other: Value, k: string)
    requires DictUpdate(base, other).Some?
    ensures other.Obj? ==>
      Lookup(DictUpdate(base, other).value, k) == if k in Keys(other.fields) then LastField(other.fields, k) else Lookup(base, k)
    ensures other.List? ==>
      var pairs := TryMap(other.items, UpdatePair).value;
      Lookup(DictUpdate(base, other).value, k) == if k in Keys(pairs) then LastField(pairs, k) else Lookup(base, k)
    ensures other.Str? ==> DictUpdate(base, other).value == base
  {
    match other
    case Obj(fs) => MergeFieldsLookup(base, fs, k);
    case List(items) => MergeFieldsLookup(base, TryMap(items, UpdatePair).value, k);
    case Str(_) =>
  }

  /** `v.get(k, d)`; None when `v` is not a mapping (AttributeError). */
  function Get(v: Value, k: string, d: Value): (r: Option<Value>)
    ensures r.Some? <==> v.Obj?
    ensures v.Obj? && k !in Keys(v.fields) ==> r == Some(d)
  {
    if v.Obj? then Some(Lookup(v.fields, k).GetOr(d)) else None
  }

  /** `v[k]` on a mapping; None on a missing key (KeyError) or a non-mapping. */
  function Item(v: Value, k: string): (r: Option<Value>)
    ensures r.Some? <==> v.Obj? && k in Keys(v.fields)
  {
    if v.Obj? then Lookup(v.fields, k) else None
  }

  /** Python truthiness. */
  predicate Truthy(v: Value) {
    match v
    case Null => false
    case Bool(b) => b
    case Int(i) => i != 0
    case Str(s) => |s| > 0
    case List(xs) => |xs| > 0
    case Obj(fs) => |fs| > 0
  }

  /** `for x in v`: list items, mapping keys, string characters; None otherwise (TypeError). */
  function Iter(v: Value): (r: Option<seq<Value>>)
    ensures v.List? ==> r == Some(v.items)
    ensures r.None? <==> !(v.List? || v.Obj? || v.Str?)
  {
    match v
    case List(xs) => Some(xs)
    case Obj(fs) => Some(seq(|fs|, i requires 0 <= i < |fs| => Str(fs[i].0)))
    case Str(s) => Some(seq(|s|, i requires 0 <= i < |s| => Str([s[i]])))
    case _ => None
  }

  /** `k in v` for a string `k`; None when `v` supports no membership test (TypeError). */
  function HasIn(v: Value, k: string): (r: Option<bool>)
    ensures v.Obj? ==> r == Some(k in Keys(v.fields))
    ensures v.List? ==> r == Some(Str(k) in v.items)
    ensures v.Str? ==> r == Some(Contains(v.s, k))
  {
    match v
    case Obj(fs) => Some(k in Keys(fs))
    case List(xs) => Some(Str(k) in xs)
    case Str(s) => Some(Contains(s, k))
    case _ => None
  }

  /**
   * `str(v)` for a scalar.  Python renders a list or a mapping as its
   * repr; the model renders it as the empty string.
   */
  function Display(v: Value): string {
    match v
    case Null => "None"
    case Bool(b) => if b then "True" else "False"
    case Int(i) => IntToString(i)
    case Str(s) => s
    case _ => ""
  }

  /** The value as a mapping's entries, or `[]` for a non-mapping. */
  function FieldsOf(v: Value): Fields {
    if v.Obj? then v.fields else []
  }

  /** A list of strings as a value. */
  function StrList(xs: seq<string>): (r: Value)
    ensures r.List? && |r.items| == |xs|
    ensures forall i :: 0 <= i < |xs| ==> r.items[i] == Str(xs[i])
  {
    List(seq(|xs|, i requires 0 <= i < |xs| => Str(xs[i])))
  }
}
