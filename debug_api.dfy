/** The `debug-setup` HTTP endpoint (server/api/mcp/debug-setup.get.ts): a
    table of known setup issues, each with a diagnosis and an ordered list
    of solution lines (opaque here), and a handler that echoes the error
    message and adds four fixed resource links. */
module DebugApi {
  import opened Wrappers
  import opened Js
  import Text
  import Seqs
  import Schemas

  datatype DebugEntry = DebugEntry(diagnosis: string, solutions: seq<string>)

  const ToolsNotShowingSolutions: seq<string>
  const CorsErrorSolutions: seq<string>
  const SchemaValidationSolutions: seq<string>
  const TransportSetupSolutions: seq<string>
  const GeneralSolutions: seq<string>

  /** `DEBUG_SOLUTIONS`, in declaration order. */
  const DebugSolutions: seq<(string, DebugEntry)> := [
    ("tools-not-showing", DebugEntry("Tools not appearing in Claude Desktop", ToolsNotShowingSolutions)),
    ("cors-error", DebugEntry("CORS errors when connecting to MCP server", CorsErrorSolutions)),
    ("schema-validation", DebugEntry("Zod schema validation failing", SchemaValidationSolutions)),
    ("transport-setup", DebugEntry("MCP transport connection issues", TransportSetupSolutions)),
    ("general", DebugEntry("General MCP setup troubleshooting", GeneralSolutions))
  ]

  const NoErrorMessage: string := "No error message provided"

  const AdditionalResources: seq<string> := [
    "MCP Docs: https://modelcontextprotocol.io",
    "MCP Inspector: npx @modelcontextprotocol/inspector http://localhost:3000/mcp",
    "Nuxt MCP Guide: https://nuxt.com/blog/building-nuxt-mcp",
    "SDK Reference: https://github.com/modelcontextprotocol/sdk"
  ]

  datatype DebugResponse = DebugResponse(
    issue: string, errorMessage: string, diagnosis: string,
    solutions: seq<string>, additionalResources: seq<string>)

  /** The table's keys are the five names of the `issue` enum. */
  lemma IssueKeysMatchSchema()
    ensures Seqs.Keys(DebugSolutions) == Schemas.IssueNames
    ensures Seqs.DistinctKeys(DebugSolutions)
  {
  }

  /** `error_message || 'No error message provided'`. */
  function ErrorText(errorMessage: Option<string>): (r: string)
    ensures Present(errorMessage) ==> r == errorMessage.value
    ensures !Present(errorMessage) ==> r == NoErrorMessage
  {
    if Present(errorMessage) then errorMessage.value else NoErrorMessage
  }

  function NotFoundMessage(issue: string): string
  {
    "Issue '" + issue + "' not found. Available: " + Text.Join(Seqs.Keys(DebugSolutions), ", ")
  }

  /** The handler on an (issue, error message) pair. */
  function Handle(issue: string, errorMessage: Option<string>): (r: Result<DebugResponse, Failure>)
    ensures r.Err? <==> issue !in Schemas.IssueNames
    ensures r.Err? ==> r.error == HttpError(404, NotFoundMessage(issue))
    ensures r.Ok? ==> r.value.issue == issue && r.value.additionalResources == AdditionalResources
    ensures r.Ok? ==> r.value.errorMessage == ErrorText(errorMessage)
    ensures forall e :: (issue, e) in DebugSolutions ==>
              r.Ok? && r.value.diagnosis == e.diagnosis && r.value.solutions == e.solutions
  {
    IssueKeysMatchSchema();
    Seqs.LookupDistinct(DebugSolutions, issue);
    match Seqs.Lookup(DebugSolutions, issue)
    case None => Err(HttpError(404, NotFoundMessage(issue)))
    case Some(debug) =>
      Ok(DebugResponse(issue, ErrorText(errorMessage), debug.diagnosis, debug.solutions, AdditionalResources))
  }

  /** A request: `DebugSetupSchema` (400 on a bad field), then the handler. */
  function Serve(raw: RawQuery): (r: Result<DebugResponse, Failure>)
    ensures Schemas.ParseDebugQuery(raw).Err? ==> r == Err(Schemas.ParseDebugQuery(raw).error)
    ensures Schemas.ParseDebugQuery(raw).Ok? ==>
              var q := Schemas.ParseDebugQuery(raw).value;
              r == Handle(q.issue, q.errorMessage)
  {
    match Schemas.ParseDebugQuery(raw)
    case Err(e) => Err(e)
    case Ok(q) => Handle(q.issue, q.errorMessage)
  }

  /** After validation the 404 branch cannot be reached. */
  lemma NotFoundUnreachable(raw: RawQuery)
    requires Schemas.ParseDebugQuery(raw).Ok?
    ensures Serve(raw).Ok?
  {
  }

  /** An absent and an empty error message both give the default text. */
  lemma EmptyMessageIsAbsent(issue: string)
    requires issue in Schemas.IssueNames
    ensures Handle(issue, Some("")) == Handle(issue, None)
    ensures Handle(issue, None).value.errorMessage == NoErrorMessage
  {
  }

  /** The message of the 404 lists every issue. */
  lemma NotFoundListsEveryIssue(issue: string)
    ensures forall k :: 0 <= k < |DebugSolutions| ==> Text.Includes(NotFoundMessage(issue), DebugSolutions[k].0)
  {
    var head := "Issue '" + issue + "' not found. Available: ";
    var joined := Text.Join(Seqs.Keys(DebugSolutions), ", ");
    forall k | 0 <= k < |DebugSolutions|
      ensures Text.Includes(NotFoundMessage(issue), DebugSolutions[k].0)
    {
      Text.JoinIncludes(Seqs.Keys(DebugSolutions), ", ", k);
      Text.IncludesInside(head, joined, "", DebugSolutions[k].0);
      assert head + joined + "" == NotFoundMessage(issue);
    }
  }

  const MaxAge: nat := 60 * 60 * 24

  /** `getKey` as written: only the issue. */
  function CacheKey(raw: RawQuery): (key: string)
    ensures "debug-" <= key
  {
    "debug-" + Interpolate(Get(raw, "issue"))
  }

  /** As written, two requests for the same issue with different error
      messages share a key, yet each response echoes its own message: the
      second caller gets the first caller's message back. */
  lemma CacheKeyIgnoresMessage()
    ensures var plain: RawQuery := map["issue" := JString("general")];
            var withMessage: RawQuery := map["issue" := JString("general"), "error_message" := JString("boom")];
            && CacheKey(plain) == CacheKey(withMessage)
            && Serve(plain) != Serve(withMessage)
  {
    var withMessage: RawQuery := map["issue" := JString("general"), "error_message" := JString("boom")];
    assert Serve(withMessage).value.errorMessage == "boom";
  }

  /** The corrected `getKey`: the issue and the message as the response uses it. */
  function CorrectedCacheKey(raw: RawQuery): (key: string)
    ensures "debug-" <= key
  {
    "debug-" + Interpolate(Get(raw, "issue")) + "-" + InterpolateOr(Get(raw, "error_message"), "")
  }

  /** No issue name followed by `-` starts another one followed by `-`. */
  lemma IssueNamesPrefixFree(i1: string, i2: string)
    requires i1 in Schemas.IssueNames && i2 in Schemas.IssueNames
    requires i1 + "-" <= i2 + "-" || i2 + "-" <= i1 + "-"
    ensures i1 == i2
  {
    var a, b := i1 + "-", i2 + "-";
    assert a[0] == b[0] && a[1] == b[1];
  }

  /** For a valid request the corrected key spells out the issue and the message. */
  lemma CorrectedKeyOfValid(raw: RawQuery)
    requires Schemas.ParseDebugQuery(raw).Ok?
    ensures var q := Schemas.ParseDebugQuery(raw).value;
            && CorrectedCacheKey(raw)[6..] == (q.issue + "-") + InterpolateOr(Get(raw, "error_message"), "")
            && (Present(q.errorMessage) ==> InterpolateOr(Get(raw, "error_message"), "") == q.errorMessage.value)
            && (!Present(q.errorMessage) ==> InterpolateOr(Get(raw, "error_message"), "") == "")
  {
    var q := Schemas.ParseDebugQuery(raw).value;
    assert Interpolate(Get(raw, "issue")) == q.issue;
    assert CorrectedCacheKey(raw) == "debug-" + ((q.issue + "-") + InterpolateOr(Get(raw, "error_message"), ""));
  }

  /** With the corrected key, valid requests that share a key receive the same response. */
  lemma CorrectedKeySound(raw1: RawQuery, raw2: RawQuery)
    requires Schemas.ParseDebugQuery(raw1).Ok? && Schemas.ParseDebugQuery(raw2).Ok?
    requires CorrectedCacheKey(raw1) == CorrectedCacheKey(raw2)
    ensures Serve(raw1) == Serve(raw2)
  {
    var q1, q2 := Schemas.ParseDebugQuery(raw1).value, Schemas.ParseDebugQuery(raw2).value;
    CorrectedKeyOfValid(raw1);
    CorrectedKeyOfValid(raw2);
    var m1, m2 := InterpolateOr(Get(raw1, "error_message"), ""), InterpolateOr(Get(raw2, "error_message"), "");
    if q1.issue + "-" <= q2.issue + "-" || q2.issue + "-" <= q1.issue + "-" {
      IssueNamesPrefixFree(q1.issue, q2.issue);
    }
    Text.PrefixFreeSplit(q1.issue + "-", m1, q2.issue + "-", m2);
    assert q1.issue == q2.issue by {
      assert q1.issue == (q1.issue + "-")[..|q1.issue|];
      assert q2.issue == (q2.issue + "-")[..|q2.issue|];
    }
    assert ErrorText(q1.errorMessage) == ErrorText(q2.errorMessage);
  }
}
