/** The `get-pattern` HTTP endpoint (server/api/mcp/get-pattern.get.ts): a
    constant table of implementation patterns and a handler that returns
    the code, the explanation or both. The texts themselves are opaque. */
module PatternApi {
  import opened Wrappers
  import opened Js
  import Text
  import Seqs
  import Schemas

  datatype PatternEntry = PatternEntry(code: string, explanation: string)

  const ListSearchCode: string
  const ListSearchExplanation: string
  const CachingCode: string
  const CachingExplanation: string
  const ValidationCode: string
  const ValidationExplanation: string
  const ErrorHandlingCode: string
  const ErrorHandlingExplanation: string
  const PaginationCode: string
  const PaginationExplanation: string
  const AuthCode: string
  const AuthExplanation: string

  /** `PATTERNS`, in declaration order. */
  const Patterns: seq<(string, PatternEntry)> := [
    ("list-search", PatternEntry(ListSearchCode, ListSearchExplanation)),
    ("caching", PatternEntry(CachingCode, CachingExplanation)),
    ("validation", PatternEntry(ValidationCode, ValidationExplanation)),
    ("error-handling", PatternEntry(ErrorHandlingCode, ErrorHandlingExplanation)),
    ("pagination", PatternEntry(PaginationCode, PaginationExplanation)),
    ("auth", PatternEntry(AuthCode, AuthExplanation))
  ]

  /** The object the handler returns: `{pattern, code}`, `{pattern,
      explanation}` or `{pattern, code, explanation}`. */
  datatype PatternResponse =
    | CodeOnly(pattern: string, code: string)
    | ExplanationOnly(pattern: string, explanation: string)
    | Both(pattern: string, code: string, explanation: string)

  function NotFoundMessage(pattern: string): string
  {
    "Pattern '" + pattern + "' not found. Available: " + Text.Join(Seqs.Keys(Patterns), ", ")
  }

  /** The table's keys are the six schema names, in the same order. */
  lemma PatternKeysMatchSchema()
    ensures Seqs.Keys(Patterns) == Schemas.PatternNames
    ensures Seqs.DistinctKeys(Patterns)
  {
  }

  /** The handler on a (pattern, format) pair. */
  function Handle(pattern: string, format: string): (r: Result<PatternResponse, Failure>)
    ensures r.Err? <==> pattern !in Schemas.PatternNames
    ensures r.Err? ==> r.error == HttpError(404, NotFoundMessage(pattern))
    ensures r.Ok? ==> r.value.pattern == pattern
    ensures forall e :: (pattern, e) in Patterns ==>
              && (format == "code" ==> r == Ok(CodeOnly(pattern, e.code)))
              && (format == "explanation" ==> r == Ok(ExplanationOnly(pattern, e.explanation)))
              && (format != "code" && format != "explanation" ==> r == Ok(Both(pattern, e.code, e.explanation)))
  {
    PatternKeysMatchSchema();
    Seqs.LookupDistinct(Patterns, pattern);
    match Seqs.Lookup(Patterns, pattern)
    case None => Err(HttpError(404, NotFoundMessage(pattern)))
    case Some(data) =>
      if format == "code" then Ok(CodeOnly(pattern, data.code))
      else if format == "explanation" then Ok(ExplanationOnly(pattern, data.explanation))
      else Ok(Both(pattern, data.code, data.explanation))
  }

  /** A request: `GetPatternSchema` (400 on a bad field), then the handler. */
  function Serve(raw: RawQuery): (r: Result<PatternResponse, Failure>)
    ensures Schemas.ParsePatternQuery(raw).Err? ==> r == Err(Schemas.ParsePatternQuery(raw).error)
    ensures Schemas.ParsePatternQuery(raw).Ok? ==>
              var q := Schemas.ParsePatternQuery(raw).value;
              r == Handle(q.pattern, q.format)
  {
    match Schemas.ParsePatternQuery(raw)
    case Err(e) => Err(e)
    case Ok(q) => Handle(q.pattern, q.format)
  }

  /** After validation the 404 branch cannot be reached. */
  lemma NotFoundUnreachable(raw: RawQuery)
    requires Schemas.ParsePatternQuery(raw).Ok?
    ensures Serve(raw).Ok?
  {
  }

  /** The message of the 404 lists every pattern. */
  lemma NotFoundListsEveryPattern(pattern: string)
    ensures forall k :: 0 <= k < |Patterns| ==> Text.Includes(NotFoundMessage(pattern), Patterns[k].0)
  {
    var head := "Pattern '" + pattern + "' not found. Available: ";
    var joined := Text.Join(Seqs.Keys(Patterns), ", ");
    forall k | 0 <= k < |Patterns|
      ensures Text.Includes(NotFoundMessage(pattern), Patterns[k].0)
    {
      Text.JoinIncludes(Seqs.Keys(Patterns), ", ", k);
      Text.IncludesInside(head, joined, "", Patterns[k].0);
      assert head + joined + "" == NotFoundMessage(pattern);
    }
  }

  const MaxAge: nat := 60 * 60 * 24

  /** `getKey`, built from the raw query before validation. */
  function CacheKey(raw: RawQuery): (key: string)
    ensures "pattern-" <= key
  {
    "pattern-" + Interpolate(Get(raw, "pattern")) + "-" + InterpolateOr(Get(raw, "format"), "both")
  }

  /** Leaving `format` out and asking for `both` share a key, as they share
      the response. */
  lemma AbsentFormatIsBoth(raw: RawQuery)
    requires "format" !in raw
    ensures CacheKey(raw) == CacheKey(raw["format" := JString("both")])
    ensures Serve(raw) == Serve(raw["format" := JString("both")])
  {
    assert Get(raw["format" := JString("both")], "pattern") == Get(raw, "pattern");
  }

  /** For a valid request the key spells out the validated pattern and format. */
  lemma CacheKeyOfValid(raw: RawQuery)
    requires Schemas.ParsePatternQuery(raw).Ok?
    ensures var q := Schemas.ParsePatternQuery(raw).value;
            CacheKey(raw)[8..] == q.pattern + "-" + q.format && '-' !in q.format
  {
    var q := Schemas.ParsePatternQuery(raw).value;
    assert Interpolate(Get(raw, "pattern")) == q.pattern;
    assert InterpolateOr(Get(raw, "format"), "both") == q.format;
    assert CacheKey(raw) == "pattern-" + (q.pattern + "-" + q.format);
  }

  /** For valid requests the key is sound: equal keys, equal responses. */
  lemma CacheKeySound(raw1: RawQuery, raw2: RawQuery)
    requires Schemas.ParsePatternQuery(raw1).Ok? && Schemas.ParsePatternQuery(raw2).Ok?
    requires CacheKey(raw1) == CacheKey(raw2)
    ensures Serve(raw1) == Serve(raw2)
  {
    var q1, q2 := Schemas.ParsePatternQuery(raw1).value, Schemas.ParsePatternQuery(raw2).value;
    CacheKeyOfValid(raw1);
    CacheKeyOfValid(raw2);
    Text.SplitAtLast(q1.pattern, q1.format, q2.pattern, q2.format, '-');
  }
}
