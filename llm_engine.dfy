/**
 * The post-processing `LLMEngine` (src/analyzer/llm_engine.py) applies to
 * the answers of a local language model.  The model itself is a parameter:
 * `llm` maps the request the engine sends (a `Prompt`, which records the
 * data a prompt is built from rather than its wording) to the client's
 * `Reply`, and `decode` stands for `json.loads`, `None` meaning a
 * `JSONDecodeError`.
 */
module LlmEngine {
  import opened Wrappers
  import opened Strings
  import opened Values

  /** What a call to the client returns: an exception, or a response object whose 'response' is optional. */
  datatype Reply = Failed | Answer(response: Option<string>)

  /** The ArchitecturePatterns summary: three counts and at most ten technologies. */
  datatype ArchSummary = ArchSummary(
    componentCount: nat,
    containerCount: nat,
    relationshipCount: nat,
    technologies: set<Value>)

  /** The data each request is built from. */
  datatype Prompt =
    | StructurePrompt(language: string, code: string)
    | RelationshipPrompt(source: Fields, target: Fields, context: string)
    | DescriptionPrompt(info: Fields)
    | BoundaryPrompt(components: seq<Value>)
    | PatternPrompt(summary: ArchSummary)

  function Min(a: nat, b: nat): nat {
    if a <= b then a else b
  }

  // ---------------------------------------------------------------- the client call

  /** `_generate_with_fallback`: the reply text, or "{}" when the call raised or carried no text. */
  function GenerateWithFallback(reply: Reply): (r: string)
    ensures reply.Failed? ==> r == "{}"
    ensures reply.Answer? && reply.response.None? ==> r == "{}"
    ensures reply.Answer? && reply.response.Some? ==> r == reply.response.value
  {
    match reply
    case Failed => "{}"
    case Answer(text) => text.GetOr("{}")
  }

  // ---------------------------------------------------------------- code structure

  const TruncationMark := "\n... (truncated)"

  /** Code longer than 8000 characters is cut to its first 8000, followed by a marker. */
  function TruncateCode(code: string): (r: string)
    ensures |r| <= 8000 + |TruncationMark|
    ensures |code| <= 8000 ==> r == code
    ensures |code| > 8000 ==> |r| == 8000 + |TruncationMark| && r[..8000] == code[..8000] && r[8000..] == TruncationMark
  {
    if |code| > 8000 then code[..8000] + TruncationMark else code
  }

  /** The answer used when the structure reply is not JSON: five empty lists. */
  const EmptyStructure: Value := Obj([
    ("components", List([])),
    ("dependencies", List([])),
    ("apis", List([])),
    ("database", List([])),
    ("messaging", List([]))])

  /** `analyze_code_structure`: the decoded reply to a request carrying the truncated code. */
  function AnalyzeCodeStructure(code: string, language: string, llm: Prompt -> Reply,
                                decode: string -> Option<Value>): (r: Value)
    ensures decode(GenerateWithFallback(llm(StructurePrompt(language, TruncateCode(code))))).None? ==>
              r == EmptyStructure
    ensures decode(GenerateWithFallback(llm(StructurePrompt(language, TruncateCode(code))))).Some? ==>
              Some(r) == decode(GenerateWithFallback(llm(StructurePrompt(language, TruncateCode(code)))))
  {
    var text := GenerateWithFallback(llm(StructurePrompt(language, TruncateCode(code))));
    decode(text).GetOr(EmptyStructure)
  }

  /**
   * When the client raises, the text "{}" is decoded, so the result is an
   * empty mapping rather than the five empty lists.
   */
  lemma StructureOnFailure(code: string, language: string, llm: Prompt -> Reply,
                           decode: string -> Option<Value>)
    requires llm(StructurePrompt(language, TruncateCode(code))) == Failed
    requires decode("{}") == Some(Obj([]))
    ensures AnalyzeCodeStructure(code, language, llm, decode) == Obj([])
  {
  }

  // ---------------------------------------------------------------- relationships

  /** The answer used when the relationship reply is not JSON. */
  function RelationshipFallback(context: string): (r: Value)
    ensures r.Obj? && Keys(r.fields) == ["relationship_type", "protocol", "description"]
    ensures Lookup(r.fields, "relationship_type") == Some(Str(context))
    ensures Lookup(r.fields, "protocol") == Some(Str("unknown"))
    ensures Lookup(r.fields, "description") == Some(Str(context + " relationship"))
  {
    Obj([("relationship_type", Str(context)),
         ("protocol", Str("unknown")),
         ("description", Str(context + " relationship"))])
  }

  /** `infer_relationships`: the decoded reply, or the fallback naming the context. */
  function InferRelationships(source: Fields, target: Fields, context: string, llm: Prompt -> Reply,
                              decode: string -> Option<Value>): (r: Value)
    ensures decode(GenerateWithFallback(llm(RelationshipPrompt(source, target, context)))).None? ==>
              r == RelationshipFallback(context)
    ensures decode(GenerateWithFallback(llm(RelationshipPrompt(source, target, context)))).Some? ==>
              Some(r) == decode(GenerateWithFallback(llm(RelationshipPrompt(source, target, context))))
  {
    var text := GenerateWithFallback(llm(RelationshipPrompt(source, target, context)));
    decode(text).GetOr(RelationshipFallback(context))
  }

  // ---------------------------------------------------------------- descriptions

  /** No two positions of `s` both hold a '.'. */
  predicate AtMostOneDot(s: string) {
    forall i, j :: 0 <= i < j < |s| && s[i] == '.' ==> s[j] != '.'
  }

  /** `description.split('.')[:2]`. */
  function FirstPieces(description: string): (r: seq<string>)
    ensures 1 <= |r| <= 2
    ensures forall k :: 0 <= k < |r| ==> '.' !in r[k]
  {
    var pieces := SplitOn(description, '.');
    pieces[..Min(2, |pieces|)]
  }

  /** `'.'.join(description.split('.')[:2])`: the text before the second '.'. */
  function Lead(description: string): string {
    Join(".", FirstPieces(description))
  }

  /** `'.'.join(...).strip()`. */
  function Body(description: string): string {
    Strip(Lead(description))
  }

  /** Joining a prefix of the pieces gives a prefix of joining them all. */
  lemma {:induction false} JoinPrefix(sep: string, parts: seq<string>, k: nat)
    requires 1 <= k <= |parts|
    ensures Join(sep, parts[..k]) <= Join(sep, parts)
  {
    if k > 1 {
      JoinPrefix(sep, parts[1..], k - 1);
      assert parts[..k][1..] == parts[1..][..k - 1];
    } else {
      assert parts[..k] == [parts[0]];
    }
  }

  /** A stripped string is a slice of the original. */
  lemma StripSlice(s: string) returns (a: nat)
    ensures a + |Strip(s)| <= |s| && Strip(s) == s[a..a + |Strip(s)|]
  {
    var t := TrimLeft(s);
    a := |s| - |t|;
    assert Strip(s) == t[..|Strip(s)|];
  }

  /** The kept text is the response up to its second '.'. */
  lemma LeadPrefix(description: string)
    ensures Lead(description) <= description
  {
    var pieces := SplitOn(description, '.');
    SplitJoin(description, '.');
    JoinPrefix(".", pieces, Min(2, |pieces|));
  }

  /** The kept text holds at most one '.'. */
  lemma LeadOneDot(description: string)
    ensures AtMostOneDot(Lead(description))
  {
    var lead := Lead(description);
    var p := FirstPieces(description);
    if |p| == 1 {
      assert lead == p[0];
      assert forall i :: 0 <= i < |lead| ==> lead[i] != '.';
    } else {
      assert p[1..] == [p[1]];
      assert Join(".", p[1..]) == p[1];
      assert lead == Join(".", p);
      assert lead == p[0] + "." + p[1];
      assert forall i :: 0 <= i < |lead| && lead[i] == '.' ==> i == |p[0]|;
    }
  }

  /** Stripping keeps that property, so the body holds at most one '.'. */
  lemma BodyOneDot(description: string)
    ensures AtMostOneDot(Body(description))
  {
    var lead := Lead(description);
    LeadOneDot(description);
    var a := StripSlice(lead);
    var body := Body(description);
    forall i, j | 0 <= i < j < |body| && body[i] == '.'
      ensures body[j] != '.'
    {
      assert body[i] == lead[a + i] && body[j] == lead[a + j];
    }
  }

  /** `'.'.join(description.split('.')[:2]).strip() + '.'`, as written. */
  function TwoSentences(description: string): (r: string)
    ensures |r| >= 1 && r[|r| - 1] == '.'
    ensures r[..|r| - 1] == Body(description)
  {
    Body(description) + "."
  }

  /** A one-sentence reply "A." comes back as "A..": its own period is kept and another added. */
  lemma TwoSentencesDoublesPeriod()
    ensures TwoSentences("A.") == "A.."
  {
    SplitOneSentence();
    assert FirstPieces("A.") == ["A", ""];
    assert Join(".", ["A", ""][1..]) == "";
    assert Lead("A.") == "A.";
    StripOneSentence();
  }

  /** "A." splits at its period into "A" and an empty piece. */
  lemma SplitOneSentence()
    ensures SplitOn("A.", '.') == ["A", ""]
  {
    assert "A."[1..] == ".";
    assert "."[1..] == "";
    assert SplitOn(".", '.') == ["", ""];
    assert ['A'] + "" == "A";
  }

  /** "A." has no surrounding whitespace. */
  lemma StripOneSentence()
    ensures Strip("A.") == "A."
  {
    assert TrimLeft("A.") == "A.";
    assert TrimRight("A.") == "A.";
  }

  /** The two-sentence rule with a single closing period: a body ending in '.' is kept as is. */
  function TwoSentencesCorrected(description: string): (r: string)
    ensures |r| >= 1 && r[|r| - 1] == '.'
    ensures |r| < 2 || r[|r| - 2] != '.'
    ensures r == Body(description) || r == Body(description) + "."
  {
    BodyOneDot(description);
    var body := Body(description);
    if |body| > 0 && body[|body| - 1] == '.' then body else body + "."
  }

  /** Wherever the written rule does not double the period, the corrected rule agrees with it. */
  lemma TwoSentencesAgree(description: string)
    requires |TwoSentences(description)| < 2 || TwoSentences(description)[|TwoSentences(description)| - 2] != '.'
    ensures TwoSentencesCorrected(description) == TwoSentences(description)
  {
    var body := Body(description);
    assert TwoSentences(description) == body + ".";
    if |body| > 0 {
      assert (body + ".")[|body| - 1] == body[|body| - 1];
    }
  }

  /**
   * The description used when the reply is blank: it names the component,
   * then its type, and says it is part of the system.  A missing name reads
   * as "Component", a missing type as "component".
   */
  function FallbackDescription(info: Fields): (r: string)
    ensures Display(Lookup(info, "name").GetOr(Str("Component"))) + " - " <= r
    ensures |r| == |Display(Lookup(info, "name").GetOr(Str("Component")))| + 3
                   + |Display(Lookup(info, "type").GetOr(Str("component")))| + 14
    ensures r[|r| - 14..] == " in the system"
    ensures r[|Display(Lookup(info, "name").GetOr(Str("Component"))) + " - "|..|r| - 14]
            == Display(Lookup(info, "type").GetOr(Str("component")))
    ensures "name" !in Keys(info) ==> "Component - " <= r
    ensures "type" !in Keys(info) ==>
      r[|Display(Lookup(info, "name").GetOr(Str("Component"))) + " - "|..|r| - 14] == "component"
  {
    var name := Lookup(info, "name").GetOr(Str("Component"));
    var kind := Lookup(info, "type").GetOr(Str("component"));
    Framed(Display(name) + " - ", Display(kind), " in the system");
    Display(name) + " - " + Display(kind) + " in the system"
  }

  /** `generate_component_description`, as written. */
  function GenerateComponentDescription(info: Fields, llm: Prompt -> Reply): (r: string)
    ensures |Strip(GenerateWithFallback(llm(DescriptionPrompt(info))))| == 0 ==> r == FallbackDescription(info)
    ensures |Strip(GenerateWithFallback(llm(DescriptionPrompt(info))))| > 0 ==>
              r == TwoSentences(Strip(GenerateWithFallback(llm(DescriptionPrompt(info)))))
  {
    var description := Strip(GenerateWithFallback(llm(DescriptionPrompt(info))));
    if |description| == 0 then FallbackDescription(info) else TwoSentences(description)
  }

  /**
   * A failed call yields the text "{}", which is not blank, so the
   * description becomes "{}." instead of the fallback.
   */
  lemma FailedDescriptionIsBraces(info: Fields, llm: Prompt -> Reply)
    requires llm(DescriptionPrompt(info)) == Failed
    ensures GenerateComponentDescription(info, llm) == "{}."
  {
    assert TrimLeft("{}") == "{}";
    assert TrimRight("{}") == "{}";
    assert SplitOn("", '.') == [""];
    assert "{}"[1..] == "}";
    assert SplitOn("}"[1..], '.') == [""];
    assert ['}'] + "" == "}";
    assert SplitOn("}", '.') == ["}"];
    assert SplitOn("{}"[1..], '.') == ["}"];
    assert ['{'] + "}" == "{}";
    assert SplitOn("{}", '.') == ["{}"];
    assert Lead("{}") == "{}";
  }

  /**
   * The description with both corrections: a failed call or a missing text
   * falls back like a blank reply, and the two-sentence rule closes with a
   * single period.
   */
  function GenerateComponentDescriptionCorrected(info: Fields, llm: Prompt -> Reply): (r: string)
    ensures llm(DescriptionPrompt(info)).Failed? ==> r == FallbackDescription(info)
    ensures llm(DescriptionPrompt(info)).Answer? && llm(DescriptionPrompt(info)).response.None? ==>
              r == FallbackDescription(info)
    ensures r == FallbackDescription(info) || ClosedOnce(r)
  {
    match llm(DescriptionPrompt(info))
    case Failed => FallbackDescription(info)
    case Answer(None) => FallbackDescription(info)
    case Answer(Some(text)) => DescribeText(info, Strip(text))
  }

  /** Ends with exactly one period. */
  predicate ClosedOnce(r: string) {
    |r| >= 1 && r[|r| - 1] == '.' && (|r| < 2 || r[|r| - 2] != '.')
  }

  /** The stripped reply text as a description: the fallback when blank, else closed by one period. */
  function DescribeText(info: Fields, description: string): (r: string)
    ensures |description| == 0 ==> r == FallbackDescription(info)
    ensures |description| > 0 ==> ClosedOnce(r)
  {
    if |description| == 0 then FallbackDescription(info) else TwoSentencesCorrected(description)
  }

  // ---------------------------------------------------------------- system boundaries

  const NoSystems: Value := Obj([("systems", List([]))])

  /** One component reduced to id, name, type and technology, each defaulting to ''; None for a non-mapping. */
  function Simplified(comp: Value): (r: Option<Value>)
    ensures r.Some? <==> comp.Obj?
    ensures r.Some? ==> r.value.Obj? && Keys(r.value.fields) == ["id", "name", "type", "technology"]
  {
    if !comp.Obj? then None
    else
      var id :- Get(comp, "id", Str(""));
      var name :- Get(comp, "name", Str(""));
      var kind :- Get(comp, "type", Str(""));
      var tech :- Get(comp, "technology", Str(""));
      Some(Obj([("id", id), ("name", name), ("type", kind), ("technology", tech)]))
  }

  /** Each of the four kept keys carries the component's value, or '' when it has none. */
  lemma SimplifiedFields(comp: Value, k: string)
    requires comp.Obj? && k in ["id", "name", "type", "technology"]
    ensures Lookup(Simplified(comp).value.fields, k) == Some(Lookup(comp.fields, k).GetOr(Str("")))
  {
    var fs := [("id", Lookup(comp.fields, "id").GetOr(Str(""))), ("name", Lookup(comp.fields, "name").GetOr(Str(""))),
               ("type", Lookup(comp.fields, "type").GetOr(Str(""))),
               ("technology", Lookup(comp.fields, "technology").GetOr(Str("")))];
    assert Simplified(comp).value.fields == fs;
    assert fs[1..][1..][1..] == [fs[3]];
  }

  /** The simplified list; None if some component is not a mapping. */
  function SimplifyAll(comps: seq<Value>): (r: Option<seq<Value>>)
    ensures r.Some? <==> forall i :: 0 <= i < |comps| ==> comps[i].Obj?
    ensures r.Some? ==> |r.value| == |comps|
    ensures r.Some? ==> forall i :: 0 <= i < |comps| ==> Some(r.value[i]) == Simplified(comps[i])
  {
    TryMap(comps, Simplified)
  }

  /** `identify_system_boundaries`; None when `in` raises on a decoded scalar. */
  function IdentifySystemBoundaries(components: seq<Value>, llm: Prompt -> Reply,
                                    decode: string -> Option<Value>): (r: Option<Value>)
    ensures |components| == 0 ==> r == Some(NoSystems)
    ensures r.Some? ==> HasIn(r.value, "systems") == Some(true)
    ensures |components| > 0 && r.Some? && r.value != NoSystems ==>
              var simple := SimplifyAll(components[..Min(20, |components|)]);
              simple.Some? && |simple.value| <= 20 &&
              Some(r.value) == decode(GenerateWithFallback(llm(BoundaryPrompt(simple.value))))
    ensures |components| > 0 ==>
      var simple := SimplifyAll(components[..Min(20, |components|)]);
      (simple.None? ==> r.None?) &&
      (simple.Some? ==>
        var reply := decode(GenerateWithFallback(llm(BoundaryPrompt(simple.value))));
        (reply.None? ==> r == Some(NoSystems)) &&
        (reply.Some? && HasIn(reply.value, "systems") == Some(true) ==> r == reply) &&
        (reply.Some? && HasIn(reply.value, "systems") == Some(false) ==> r == Some(NoSystems)) &&
        (reply.Some? && HasIn(reply.value, "systems").None? ==> r.None?))
  {
    assert Keys(NoSystems.fields) == ["systems"];
    if |components| == 0 then Some(NoSystems)
    else
      var simple :- SimplifyAll(components[..Min(20, |components|)]);
      var text := GenerateWithFallback(llm(BoundaryPrompt(simple)));
      match decode(text)
      case None => Some(NoSystems)
      case Some(result) =>
        var has :- HasIn(result, "systems");
        if has then Some(result) else Some(NoSystems)
  }

  /** A reply that is not JSON, or a mapping without 'systems', gives no systems. */
  lemma BoundariesDefault(components: seq<Value>, llm: Prompt -> Reply, decode: string -> Option<Value>)
    requires forall i :: 0 <= i < |components| ==> components[i].Obj?
    requires forall p :: decode(GenerateWithFallback(llm(p))).None?
                         || (decode(GenerateWithFallback(llm(p))).value.Obj?
                             && "systems" !in Keys(decode(GenerateWithFallback(llm(p))).value.fields))
    ensures IdentifySystemBoundaries(components, llm, decode) == Some(NoSystems)
  {
    if |components| > 0 {
      var sample := components[..Min(20, |components|)];
      assert forall i :: 0 <= i < |sample| ==> sample[i].Obj?;
    }
  }

  // ---------------------------------------------------------------- architecture patterns

  const NoPatterns: Value := Obj([("patterns", List([])), ("recommendations", List([]))])

  const UnknownPatterns: Value := Obj([
    ("patterns", List([Str("Unknown pattern")])),
    ("issues", List([])),
    ("recommendations", List([]))])

  /** `c.get('technology')`, with a missing key or a non-mapping read as None. */
  function TechnologyOf(c: Value): Value {
    if c.Obj? then Lookup(c.fields, "technology").GetOr(Null) else Null
  }

  /** `c.get('type') == 'container'` on a mapping. */
  predicate IsContainer(c: Value) {
    c.Obj? && Lookup(c.fields, "type") == Some(Str("container"))
  }

  /** `len([c for c in components if c.get('type') == 'container'])`; None for a non-mapping. */
  function ContainerCount(components: seq<Value>): (r: Option<nat>)
    ensures r.Some? <==> forall i :: 0 <= i < |components| ==> components[i].Obj?
    ensures r.Some? ==> r.value <= |components|
    ensures r == Some(|components|) ==> forall i :: 0 <= i < |components| ==> IsContainer(components[i])
    ensures r.Some? ==> r.value == |Filter(components, IsContainer)|
  {
    if |components| == 0 then Some(0)
    else if !components[0].Obj? then None
    else
      match ContainerCount(components[1..])
      case None =>
        var k :| 0 <= k < |components[1..]| && !components[1..][k].Obj?;
        assert !components[k + 1].Obj?;
        None
      case Some(n) =>
        if IsContainer(components[0]) then
          assert forall i :: 1 <= i < |components| ==> components[i] == components[1..][i - 1];
          Some(n + 1)
        else Some(n)
  }

  /** The set of truthy technology values; None for a non-mapping. */
  function TechnologySet(components: seq<Value>): (r: Option<set<Value>>)
    ensures r.Some? <==> forall i :: 0 <= i < |components| ==> components[i].Obj?
  {
    if |components| == 0 then Some({})
    else
      var c := components[0];
      if !c.Obj? then None
      else
        match TechnologySet(components[1..])
        case None =>
          var k :| 0 <= k < |components[1..]| && !components[1..][k].Obj?;
          assert !components[k + 1].Obj?;
          None
        case Some(rest) =>
          var t := TechnologyOf(c);
          Some(if Truthy(t) then rest + {t} else rest)
  }

  /** The set holds exactly the truthy technologies of the components. */
  lemma {:induction false} TechnologySetMembers(components: seq<Value>)
    requires TechnologySet(components).Some?
    ensures forall v :: v in TechnologySet(components).value <==>
              (Truthy(v) && exists i :: 0 <= i < |components| && TechnologyOf(components[i]) == v)
  {
    if |components| > 0 {
      TechnologySetMembers(components[1..]);
      TechnologySetStep(components, TechnologySet(components[1..]).value, TechnologySet(components).value);
    }
  }

  /** Adding the first component's technology to those of the others gives those of all. */
  lemma TechnologySetStep(components: seq<Value>, rest: set<Value>, r: set<Value>)
    requires |components| > 0
    requires forall v :: v in rest <==>
               (Truthy(v) && exists i :: 0 <= i < |components[1..]| && TechnologyOf(components[1..][i]) == v)
    requires r == if Truthy(TechnologyOf(components[0])) then rest + {TechnologyOf(components[0])} else rest
    ensures forall v :: v in r <==>
              (Truthy(v) && exists i :: 0 <= i < |components| && TechnologyOf(components[i]) == v)
  {
    var tail := components[1..];
    forall v
      ensures v in r <==> (Truthy(v) && exists i :: 0 <= i < |components| && TechnologyOf(components[i]) == v)
    {
      if v in rest {
        var i :| 0 <= i < |tail| && TechnologyOf(tail[i]) == v;
        assert TechnologyOf(components[i + 1]) == v;
      }
      if Truthy(v) && (exists i :: 0 <= i < |components| && TechnologyOf(components[i]) == v) {
        var i :| 0 <= i < |components| && TechnologyOf(components[i]) == v;
        if i > 0 {
          assert TechnologyOf(tail[i - 1]) == v;
        }
      }
    }
  }

  /** A set holds a subset of any size up to its own. */
  lemma {:induction false} SubsetOfSize<T>(s: set<T>, k: nat) returns (t: set<T>)
    requires k <= |s|
    ensures t <= s && |t| == k
    decreases k
  {
    if k == 0 {
      t := {};
    } else {
      assert s != {} ==> exists y :: y in s;
      var x :| x in s;
      var u := SubsetOfSize(s - {x}, k - 1);
      t := u + {x};
    }
  }

  /**
   * The summary sent for `analyze_architecture_patterns`; which ten
   * technologies survive the cut is Python's set order, left unspecified.
   */
  method Summarize(components: seq<Value>, relationships: seq<Value>) returns (s: Option<ArchSummary>)
    ensures s.Some? <==> forall i :: 0 <= i < |components| ==> components[i].Obj?
    ensures s.Some? ==> s.value.componentCount == |components|
    ensures s.Some? ==> Some(s.value.containerCount) == ContainerCount(components)
    ensures s.Some? ==> s.value.relationshipCount == |relationships|
    ensures s.Some? ==> s.value.technologies <= TechnologySet(components).value
    ensures s.Some? ==> |s.value.technologies| == Min(10, |TechnologySet(components).value|)
  {
    var containers := ContainerCount(components);
    var techs := TechnologySet(components);
    if containers.None? || techs.None? {
      return None;
    }
    ghost var sample := SubsetOfSize(techs.value, Min(10, |techs.value|));
    var chosen :| chosen <= techs.value && |chosen| == Min(10, |techs.value|);
    s := Some(ArchSummary(|components|, containers.value, |relationships|, chosen));
  }

  /** What a summary sent for these components and relationships holds. */
  predicate SummaryFor(s: ArchSummary, components: seq<Value>, relationships: seq<Value>) {
    && s.componentCount == |components|
    && ContainerCount(components) == Some(s.containerCount)
    && s.relationshipCount == |relationships|
    && TechnologySet(components).Some?
    && s.technologies <= TechnologySet(components).value
    && |s.technologies| == Min(10, |TechnologySet(components).value|)
  }

  /**
   * `analyze_architecture_patterns`: also returns the summary it sent.
   * None when a component is not a mapping.
   */
  method AnalyzeArchitecturePatterns(components: seq<Value>, relationships: seq<Value>, llm: Prompt -> Reply,
                                     decode: string -> Option<Value>)
    returns (r: Option<Value>, sent: Option<ArchSummary>)
    ensures |components| == 0 ==> r == Some(NoPatterns) && sent.None?
    ensures |components| > 0 ==> (r.Some? <==> forall i :: 0 <= i < |components| ==> components[i].Obj?)
    ensures r.Some? && |components| > 0 ==>
              sent.Some? && sent.value.componentCount == |components| && |sent.value.technologies| <= 10 &&
              r == Some(decode(GenerateWithFallback(llm(PatternPrompt(sent.value)))).GetOr(UnknownPatterns))
    ensures r.Some? && |components| > 0 ==> SummaryFor(sent.value, components, relationships)
  {
    if |components| == 0 {
      return Some(NoPatterns), None;
    }
    sent := Summarize(components, relationships);
    if sent.None? {
      return None, None;
    }
    var text := GenerateWithFallback(llm(PatternPrompt(sent.value)));
    r := Some(decode(text).GetOr(UnknownPatterns));
  }
}
