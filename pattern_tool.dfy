/** The `get_pattern` toolkit tool (server/mcp/tools/get-pattern.ts): its own
    pattern table (texts opaque, distinct from the HTTP endpoint's) and a
    handler that renders one text item. */
module PatternTool {
  import opened Wrappers
  import opened Js
  import Text
  import Seqs
  import Schemas

  datatype PatternEntry = PatternEntry(code: string, explanation: string)

  const ListSearchCode: string
  const ListSearchExplanation: string
  const CachingCode: string
  const CachingExplanation: string
  const ValidationCode: string
  const ValidationExplanation: string
  const ErrorHandlingCode: string
  const ErrorHandlingExplanation: string
  const PaginationCode: string
  const PaginationExplanation: string
  const AuthCode: string
  const AuthExplanation: string

  /** `PATTERNS`, in declaration order. */
  const Patterns: seq<(string, PatternEntry)> := [
    ("list-search", PatternEntry(ListSearchCode, ListSearchExplanation)),
    ("caching", PatternEntry(CachingCode, CachingExplanation)),
    ("validation", PatternEntry(ValidationCode, ValidationExplanation)),
    ("error-handling", PatternEntry(ErrorHandlingCode, ErrorHandlingExplanation)),
    ("pagination", PatternEntry(PaginationCode, PaginationExplanation)),
    ("auth", PatternEntry(AuthCode, AuthExplanation))
  ]

  /** The table's keys are the six names of the tool's `pattern` enum. */
  lemma PatternKeysMatchSchema()
    ensures Seqs.Keys(Patterns) == Schemas.PatternNames
    ensures Seqs.DistinctKeys(Patterns)
  {
  }

  const ImplementationHeading: string := "\n\n## Implementation\n\n```typescript\n"
  const FenceEnd: string := "\n```"

  /** The complete guide: heading, explanation, then the code in a typescript fence. */
  function Guide(pattern: string, e: PatternEntry): (text: string)
    ensures |text| == |pattern| + 4 + |e.explanation| + |ImplementationHeading| + |e.code| + |FenceEnd|
    ensures ("# " + pattern + "\n\n") <= text
    ensures text[|text| - |FenceEnd|..] == FenceEnd
    ensures text[|pattern| + 4..|pattern| + 4 + |e.explanation|] == e.explanation
    ensures text[|text| - |FenceEnd| - |e.code|..|text| - |FenceEnd|] == e.code
  {
    var head := "# " + pattern + "\n\n";
    var text := head + e.explanation + ImplementationHeading + e.code + FenceEnd;
    assert text[|head|..|head| + |e.explanation|] == e.explanation;
    assert text[|text| - |FenceEnd| - |e.code|..|text| - |FenceEnd|] == e.code;
    text
  }

  function NotFoundText(pattern: string): string
  {
    "Pattern '" + pattern + "' not found. Available: " + Text.Join(Seqs.Keys(Patterns), ", ")
  }

  /** The tool handler on a (pattern, format) pair. */
  function Handle(pattern: string, format: string): (r: ToolResult)
    ensures |r.content| == 1
    ensures r.isError <==> pattern !in Schemas.PatternNames
    ensures r.isError ==> r.content[0].text == NotFoundText(pattern)
    ensures forall e :: (pattern, e) in Patterns ==>
              && (format == "code" ==> r == TextResult(e.code))
              && (format == "explanation" ==> r == TextResult(e.explanation))
              && (format != "code" && format != "explanation" ==> r == TextResult(Guide(pattern, e)))
  {
    PatternKeysMatchSchema();
    Seqs.LookupDistinct(Patterns, pattern);
    match Seqs.Lookup(Patterns, pattern)
    case None => ErrorResult(NotFoundText(pattern))
    case Some(data) =>
      if format == "code" then TextResult(data.code)
      else if format == "explanation" then TextResult(data.explanation)
      else TextResult(Guide(pattern, data))
  }

  /** A call: the tool's input schema (the same rules as `GetPatternSchema`),
      then the handler. */
  function Call(args: RawQuery): (r: Result<ToolResult, Failure>)
    ensures Schemas.ParsePatternQuery(args).Err? ==> r == Err(Schemas.ParsePatternQuery(args).error)
    ensures Schemas.ParsePatternQuery(args).Ok? ==>
              var q := Schemas.ParsePatternQuery(args).value;
              r == Ok(Handle(q.pattern, q.format))
  {
    match Schemas.ParsePatternQuery(args)
    case Err(e) => Err(e)
    case Ok(q) => Ok(Handle(q.pattern, q.format))
  }

  /** A validated call never reaches the error branch, and with no format
      it answers with the complete guide. */
  lemma ValidCallSucceeds(args: RawQuery)
    requires Schemas.ParsePatternQuery(args).Ok?
    ensures !Call(args).value.isError
    ensures "format" !in args ==>
              var p := Schemas.ParsePatternQuery(args).value.pattern;
              Call(args).value == TextResult(Guide(p, Seqs.Lookup(Patterns, p).value))
  {
    PatternKeysMatchSchema();
  }

  /** The error text lists every pattern. */
  lemma NotFoundListsEveryPattern(pattern: string)
    ensures forall k :: 0 <= k < |Patterns| ==> Text.Includes(NotFoundText(pattern), Patterns[k].0)
  {
    var head := "Pattern '" + pattern + "' not found. Available: ";
    var joined := Text.Join(Seqs.Keys(Patterns), ", ");
    forall k | 0 <= k < |Patterns|
      ensures Text.Includes(NotFoundText(pattern), Patterns[k].0)
    {
      Text.JoinIncludes(Seqs.Keys(Patterns), ", ", k);
      Text.IncludesInside(head, joined, "", Patterns[k].0);
      assert head + joined + "" == NotFoundText(pattern);
    }
  }
}
