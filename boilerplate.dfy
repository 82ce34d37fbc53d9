/** The `generate-mcp-boilerplate` endpoint
    (server/api/mcp/generate-mcp-boilerplate.get.ts): a schema, a dispatch on
    (type, format) to one of four template generators, and a cache key. The
    template text is opaque; only where the description is spliced in is kept. */
module Boilerplate {
  import opened Wrappers
  import opened Js
  import Text
  import Zod

  const Types: seq<string> := ["tool", "resource", "prompt"]
  const Formats: seq<string> := ["typescript", "python"]

  /** `GenerateSchema` after parsing: `format` is filled in. */
  datatype GenerateQuery = GenerateQuery(kind: string, description: string, format: string)

  function ParseGenerateQuery(raw: RawQuery): (r: Result<GenerateQuery, Failure>)
    ensures r.Ok? <==> (exists t :: Get(raw, "type") == Some(JString(t)) && t in Types)
                       && (exists d :: Get(raw, "description") == Some(JString(d)))
                       && (Get(raw, "format").None?
                           || exists f :: Get(raw, "format") == Some(JString(f)) && f in Formats)
    ensures r.Ok? ==> r.value.kind in Types && r.value.format in Formats
    ensures r.Ok? ==> Get(raw, "type") == Some(JString(r.value.kind))
    ensures r.Ok? ==> Get(raw, "description") == Some(JString(r.value.description))
    ensures r.Ok? && Get(raw, "format").None? ==> r.value.format == "typescript"
    ensures forall f :: r.Ok? && Get(raw, "format") == Some(JString(f)) ==> r.value.format == f
  {
    match Zod.RequiredEnum(raw, "type", Types)
    case Err(e) => Err(e)
    case Ok(kind) =>
      match Zod.RequiredString(raw, "description")
      case Err(e) => Err(e)
      case Ok(description) =>
        match Zod.EnumOrDefault(raw, "format", Formats, "typescript")
        case Err(e) => Err(e)
        case Ok(format) => Ok(GenerateQuery(kind, description, format))
  }

  /** The fixed text around each place a template splices in the description. */
  const ToolHead: string
  const ToolMiddle: string
  const ToolTail: string
  const ResourceHead: string
  const ResourceTail: string
  const PromptHead: string
  const PromptTail: string
  const PythonToolHead: string
  const PythonToolTail: string

  /** `generateTypeScriptTool`: the description appears in a comment and in
      the tool's `description` field. */
  function TypeScriptTool(description: string): (code: string)
    ensures |code| == |ToolHead| + |ToolMiddle| + |ToolTail| + 2 * |description|
    ensures code[|ToolHead|..|ToolHead| + |description|] == description
    ensures code[|ToolHead| + |description| + |ToolMiddle|..|ToolHead| + 2 * |description| + |ToolMiddle|] == description
  {
    var code := ToolHead + description + ToolMiddle + description + ToolTail;
    assert code[|ToolHead|..|ToolHead| + |description|] == description;
    assert code[|ToolHead| + |description| + |ToolMiddle|..|ToolHead| + 2 * |description| + |ToolMiddle|] == description;
    code
  }

  /** `generateTypeScriptResource`. */
  function TypeScriptResource(description: string): (code: string)
    ensures |code| == |ResourceHead| + |ResourceTail| + |description|
    ensures code[|ResourceHead|..|ResourceHead| + |description|] == description
  {
    var code := ResourceHead + description + ResourceTail;
    assert code[|ResourceHead|..|ResourceHead| + |description|] == description;
    code
  }

  /** `generateTypeScriptPrompt`. */
  function TypeScriptPrompt(description: string): (code: string)
    ensures |code| == |PromptHead| + |PromptTail| + |description|
    ensures code[|PromptHead|..|PromptHead| + |description|] == description
  {
    var code := PromptHead + description + PromptTail;
    assert code[|PromptHead|..|PromptHead| + |description|] == description;
    code
  }

  /** `generatePythonBoilerplate`: a template for tools, a one-line
      placeholder for anything else. */
  function PythonBoilerplate(kind: string, description: string): (code: string)
    ensures kind == "tool" ==> |code| == |PythonToolHead| + |PythonToolTail| + |description|
    ensures kind == "tool" ==> code[|PythonToolHead|..|PythonToolHead| + |description|] == description
    ensures kind != "tool" ==> code == "# Python MCP " + kind + " - TODO: Implement"
  {
    if kind == "tool" then
      var code := PythonToolHead + description + PythonToolTail;
      assert code[|PythonToolHead|..|PythonToolHead| + |description|] == description;
      code
    else "# Python MCP " + kind + " - TODO: Implement"
  }

  /** Each generator can be read back: different descriptions give different code. */
  lemma GeneratorsInjective(d1: string, d2: string)
    ensures TypeScriptTool(d1) == TypeScriptTool(d2) ==> d1 == d2
    ensures TypeScriptResource(d1) == TypeScriptResource(d2) ==> d1 == d2
    ensures TypeScriptPrompt(d1) == TypeScriptPrompt(d2) ==> d1 == d2
    ensures PythonBoilerplate("tool", d1) == PythonBoilerplate("tool", d2) ==> d1 == d2
  {
  }

  datatype GenerateResponse = GenerateResponse(kind: string, format: string, code: string)

  /** The handler's if-chain on (type, format). */
  function Handle(kind: string, description: string, format: string): (r: Result<GenerateResponse, Failure>)
    ensures r.Err? <==> !(kind in Types && format == "typescript") && format != "python"
    ensures r.Err? ==> r.error == HttpError(400, "Unsupported combination: " + kind + " + " + format)
    ensures r.Ok? ==> r.value.kind == kind && r.value.format == format
    ensures r.Ok? && format == "typescript" ==> Text.Includes(r.value.code, description)
    ensures r.Ok? && format == "python" ==> r.value.code == PythonBoilerplate(kind, description)
  {
    if kind == "tool" && format == "typescript" then
      var code := TypeScriptTool(description);
      Text.IncludesAt(code, description, |ToolHead|);
      Ok(GenerateResponse("tool", "typescript", code))
    else if kind == "resource" && format == "typescript" then
      var code := TypeScriptResource(description);
      Text.IncludesAt(code, description, |ResourceHead|);
      Ok(GenerateResponse("resource", "typescript", code))
    else if kind == "prompt" && format == "typescript" then
      var code := TypeScriptPrompt(description);
      Text.IncludesAt(code, description, |PromptHead|);
      Ok(GenerateResponse("prompt", "typescript", code))
    else if format == "python" then
      Ok(GenerateResponse(kind, "python", PythonBoilerplate(kind, description)))
    else
      Err(HttpError(400, "Unsupported combination: " + kind + " + " + format))
  }

  /** With typescript the generator is the one named by the type. */
  lemma TypeScriptDispatch(description: string)
    ensures Handle("tool", description, "typescript").value.code == TypeScriptTool(description)
    ensures Handle("resource", description, "typescript").value.code == TypeScriptResource(description)
    ensures Handle("prompt", description, "typescript").value.code == TypeScriptPrompt(description)
  {
  }

  /** A request: `GenerateSchema` (400 on a bad field), then the handler. */
  function Serve(raw: RawQuery): (r: Result<GenerateResponse, Failure>)
    ensures ParseGenerateQuery(raw).Err? ==> r == Err(ParseGenerateQuery(raw).error)
    ensures ParseGenerateQuery(raw).Ok? ==>
              var q := ParseGenerateQuery(raw).value;
              r == Handle(q.kind, q.description, q.format)
  {
    match ParseGenerateQuery(raw)
    case Err(e) => Err(e)
    case Ok(q) => Handle(q.kind, q.description, q.format)
  }

  /** For valid input the "unsupported combination" branch cannot be reached,
      and leaving out the format means typescript. */
  lemma UnsupportedUnreachable(raw: RawQuery)
    requires ParseGenerateQuery(raw).Ok?
    ensures Serve(raw).Ok?
    ensures "format" !in raw ==> Serve(raw).value.format == "typescript"
  {
  }

  /** The schema cases: type and description suffice; an unknown type fails. */
  lemma SchemaCases(d: string)
    ensures ParseGenerateQuery(map["type" := JString("tool"), "description" := JString(d)])
            == Ok(GenerateQuery("tool", d, "typescript"))
    ensures ParseGenerateQuery(map["type" := JString("resource"), "description" := JString(d),
                                   "format" := JString("python")])
            == Ok(GenerateQuery("resource", d, "python"))
    ensures ParseGenerateQuery(map["type" := JString("invalid"), "description" := JString(d)]).Err?
  {
  }

  const MaxAge: nat := 60 * 60

  /** `getKey` as written: type and raw format, no description; an absent
      format is spelled `undefined`. */
  function CacheKey(raw: RawQuery): (key: string)
    ensures "generate-" <= key
  {
    "generate-" + Interpolate(Get(raw, "type")) + "-" + Interpolate(Get(raw, "format"))
  }

  /** A tool request with the given description and no format. */
  function ToolRequest(description: string): (raw: RawQuery)
    ensures ParseGenerateQuery(raw) == Ok(GenerateQuery("tool", description, "typescript"))
    ensures CacheKey(raw) == "generate-tool-undefined"
  {
    var raw: RawQuery := map["type" := JString("tool"), "description" := JString(description)];
    SchemaCases(description);
    assert Interpolate(Get(raw, "type")) == "tool";
    assert Interpolate(Get(raw, "format")) == "undefined";
    raw
  }

  /** As written, two tools with different descriptions share a key though
      their generated code differs: the second caller gets the first one's code. */
  lemma CacheKeyIgnoresDescription(d1: string, d2: string)
    requires d1 != d2
    ensures CacheKey(ToolRequest(d1)) == CacheKey(ToolRequest(d2))
    ensures Serve(ToolRequest(d1)) != Serve(ToolRequest(d2))
  {
    TypeScriptDispatch(d1);
    TypeScriptDispatch(d2);
    GeneratorsInjective(d1, d2);
  }

  /** The corrected `getKey`: the description is part of the key. */
  function CorrectedCacheKey(raw: RawQuery): (key: string)
    ensures "generate-" <= key
  {
    "generate-" + Interpolate(Get(raw, "type")) + "-" + Interpolate(Get(raw, "format"))
    + "-" + Interpolate(Get(raw, "description"))
  }

  /** The words that can stand between the dashes of a valid key: no one of
      them followed by `-` starts another. */
  lemma KeyWordsPrefixFree(w1: string, w2: string)
    requires w1 in Types + ["typescript", "python", "undefined"]
    requires w2 in Types + ["typescript", "python", "undefined"]
    requires w1 + "-" <= w2 + "-" || w2 + "-" <= w1 + "-"
    ensures w1 == w2
  {
    var a, b := w1 + "-", w2 + "-";
    assert a[0] == b[0] && a[1] == b[1];
  }

  /** Two cuts of a key agree when the heads are key words. */
  lemma SplitKeyWord(w1: string, t1: string, w2: string, t2: string)
    requires w1 in Types + ["typescript", "python", "undefined"]
    requires w2 in Types + ["typescript", "python", "undefined"]
    requires (w1 + "-") + t1 == (w2 + "-") + t2
    ensures w1 == w2 && t1 == t2
  {
    if w1 + "-" <= w2 + "-" || w2 + "-" <= w1 + "-" {
      KeyWordsPrefixFree(w1, w2);
    }
    Text.PrefixFreeSplit(w1 + "-", t1, w2 + "-", t2);
    assert w1 == (w1 + "-")[..|w1|];
    assert w2 == (w2 + "-")[..|w2|];
  }

  /** For a valid request the corrected key spells out type, raw format and description. */
  lemma CorrectedKeyOfValid(raw: RawQuery)
    requires ParseGenerateQuery(raw).Ok?
    ensures var q := ParseGenerateQuery(raw).value;
            var f := Interpolate(Get(raw, "format"));
            && CorrectedCacheKey(raw)[9..] == (q.kind + "-") + ((f + "-") + q.description)
            && f in Types + ["typescript", "python", "undefined"]
            && (f == "undefined" ==> q.format == "typescript")
            && (f != "undefined" ==> q.format == f)
  {
    var q := ParseGenerateQuery(raw).value;
    var f := Interpolate(Get(raw, "format"));
    assert Interpolate(Get(raw, "type")) == q.kind;
    assert Interpolate(Get(raw, "description")) == q.description;
    assert CorrectedCacheKey(raw) == "generate-" + ((q.kind + "-") + ((f + "-") + q.description));
  }

  /** With the corrected key, valid requests that share a key receive the same response. */
  lemma CorrectedKeySound(raw1: RawQuery, raw2: RawQuery)
    requires ParseGenerateQuery(raw1).Ok? && ParseGenerateQuery(raw2).Ok?
    requires CorrectedCacheKey(raw1) == CorrectedCacheKey(raw2)
    ensures Serve(raw1) == Serve(raw2)
  {
    var q1, q2 := ParseGenerateQuery(raw1).value, ParseGenerateQuery(raw2).value;
    var f1, f2 := Interpolate(Get(raw1, "format")), Interpolate(Get(raw2, "format"));
    CorrectedKeyOfValid(raw1);
    CorrectedKeyOfValid(raw2);
    SplitKeyWord(q1.kind, (f1 + "-") + q1.description, q2.kind, (f2 + "-") + q2.description);
    SplitKeyWord(f1, q1.description, f2, q2.description);
  }
}
