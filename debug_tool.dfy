/** The `debug_setup` toolkit tool (server/mcp/tools/debug-setup.ts): its own
    table of setup issues (solution lines opaque) and a handler that renders
    one Markdown text item. */
module DebugTool {
  import opened Wrappers
  import opened Js
  import Text
  import Seqs
  import Schemas

  datatype DebugEntry = DebugEntry(diagnosis: string, solutions: seq<string>)

  const ToolsNotShowingSolutions: seq<string>
  const CorsErrorSolutions: seq<string>
  const SchemaValidationSolutions: seq<string>
  const TransportSetupSolutions: seq<string>
  const GeneralSolutions: seq<string>

  /** `DEBUG_SOLUTIONS`, in declaration order. */
  const DebugSolutions: seq<(string, DebugEntry)> := [
    ("tools-not-showing", DebugEntry("Tools not appearing in Claude Desktop", ToolsNotShowingSolutions)),
    ("cors-error", DebugEntry("CORS errors when connecting to MCP server", CorsErrorSolutions)),
    ("schema-validation", DebugEntry("Zod schema validation failing", SchemaValidationSolutions)),
    ("transport-setup", DebugEntry("MCP transport connection issues", TransportSetupSolutions)),
    ("general", DebugEntry("General MCP setup troubleshooting", GeneralSolutions))
  ]

  const NoErrorMessage: string := "No error message provided"

  /** The fixed closing section of every answer. */
  const ResourcesSection: string :=
    "\n\n## Additional Resources\n\n"
    + "- MCP Toolkit Docs: https://mcp-toolkit.nuxt.dev\n"
    + "- MCP Inspector: npx @modelcontextprotocol/inspector http://localhost:3000/mcp\n"
    + "- Nuxt MCP Guide: https://nuxt.com/blog/building-nuxt-mcp\n"
    + "- MCP Protocol Docs: https://modelcontextprotocol.io"

  /** The table's keys are the five names of the tool's `issue` enum. */
  lemma IssueKeysMatchSchema()
    ensures Seqs.Keys(DebugSolutions) == Schemas.IssueNames
    ensures Seqs.DistinctKeys(DebugSolutions)
  {
  }

  /** `error_message || 'No error message provided'`. */
  function ErrorText(errorMessage: Option<string>): (r: string)
    ensures Present(errorMessage) ==> r == errorMessage.value
    ensures !Present(errorMessage) ==> r == NoErrorMessage
  {
    if Present(errorMessage) then errorMessage.value else NoErrorMessage
  }

  /** `**Error:** ${error_message || 'No error message provided'}`. */
  function ErrorLine(errorMessage: Option<string>): string
  {
    "**Error:** " + ErrorText(errorMessage)
  }

  /** The head of an answer: diagnosis, error line, then the solutions heading. */
  function Head(e: DebugEntry, errorMessage: Option<string>): string
  {
    "# " + e.diagnosis + "\n\n" + ErrorLine(errorMessage) + "\n\n## Solutions\n\n"
  }

  /** The Markdown answer for one table entry. */
  function Render(e: DebugEntry, errorMessage: Option<string>): (text: string)
    ensures |text| == |Head(e, errorMessage)| + |Text.Join(e.solutions, "\n")| + |ResourcesSection|
    ensures ("# " + e.diagnosis + "\n\n") <= text
    ensures text[|e.diagnosis| + 4..|e.diagnosis| + 4 + |ErrorLine(errorMessage)|] == ErrorLine(errorMessage)
    ensures text[|text| - |ResourcesSection|..] == ResourcesSection
    ensures text[|Head(e, errorMessage)|..|text| - |ResourcesSection|] == Text.Join(e.solutions, "\n")
  {
    AnswerLayout(e, errorMessage, ResourcesSection);
    Head(e, errorMessage) + Text.Join(e.solutions, "\n") + ResourcesSection
  }

  /** Where the parts of an answer sit, whatever its closing section. */
  lemma AnswerLayout(e: DebugEntry, errorMessage: Option<string>, closing: string)
    ensures var head, body := Head(e, errorMessage), Text.Join(e.solutions, "\n");
            var text := head + body + closing;
            && |text| == |head| + |body| + |closing|
            && ("# " + e.diagnosis + "\n\n") <= text
            && |e.diagnosis| + 4 + |ErrorLine(errorMessage)| <= |text|
            && text[|e.diagnosis| + 4..|e.diagnosis| + 4 + |ErrorLine(errorMessage)|] == ErrorLine(errorMessage)
            && text[|text| - |closing|..] == closing
            && text[|head|..|text| - |closing|] == body
  {
    var head := Head(e, errorMessage);
    var body := Text.Join(e.solutions, "\n");
    var text := head + body + closing;
    Text.ConcatSlices(head, body, closing);
    HeadStartsWithError(e, errorMessage);
    assert text[..|head|] == head;
  }

  /** The head opens with the diagnosis heading, then the error line. */
  lemma HeadStartsWithError(e: DebugEntry, errorMessage: Option<string>)
    ensures var head, n := Head(e, errorMessage), |e.diagnosis| + 4;
            && ("# " + e.diagnosis + "\n\n") <= head
            && n + |ErrorLine(errorMessage)| <= |head|
            && head[n..n + |ErrorLine(errorMessage)|] == ErrorLine(errorMessage)
  {
    var opening := "# " + e.diagnosis + "\n\n";
    Text.ConcatSlices(opening, ErrorLine(errorMessage), "\n\n## Solutions\n\n");
  }

  /** Every solution line appears in the answer. */
  lemma RenderIncludesEverySolution(e: DebugEntry, errorMessage: Option<string>)
    ensures forall k :: 0 <= k < |e.solutions| ==> Text.Includes(Render(e, errorMessage), e.solutions[k])
  {
    var head := Head(e, errorMessage);
    var body := Text.Join(e.solutions, "\n");
    assert Render(e, errorMessage) == head + body + ResourcesSection;
    forall k | 0 <= k < |e.solutions|
      ensures Text.Includes(Render(e, errorMessage), e.solutions[k])
    {
      Text.JoinIncludes(e.solutions, "\n", k);
      Text.IncludesInside(head, body, ResourcesSection, e.solutions[k]);
    }
  }

  function NotFoundText(issue: string): string
  {
    "Issue '" + issue + "' not found. Available: " + Text.Join(Seqs.Keys(DebugSolutions), ", ")
  }

  /** The tool handler on an (issue, error message) pair. */
  function Handle(issue: string, errorMessage: Option<string>): (r: ToolResult)
    ensures |r.content| == 1
    ensures r.isError <==> issue !in Schemas.IssueNames
    ensures r.isError ==> r.content[0].text == NotFoundText(issue)
    ensures forall e :: (issue, e) in DebugSolutions ==> r == TextResult(Render(e, errorMessage))
  {
    IssueKeysMatchSchema();
    Seqs.LookupDistinct(DebugSolutions, issue);
    match Seqs.Lookup(DebugSolutions, issue)
    case None => ErrorResult(NotFoundText(issue))
    case Some(debug) => TextResult(Render(debug, errorMessage))
  }

  /** A call: the tool's input schema (the same rules as `DebugSetupSchema`),
      then the handler. */
  function Call(args: RawQuery): (r: Result<ToolResult, Failure>)
    ensures Schemas.ParseDebugQuery(args).Err? ==> r == Err(Schemas.ParseDebugQuery(args).error)
    ensures Schemas.ParseDebugQuery(args).Ok? ==>
              var q := Schemas.ParseDebugQuery(args).value;
              r == Ok(Handle(q.issue, q.errorMessage))
  {
    match Schemas.ParseDebugQuery(args)
    case Err(e) => Err(e)
    case Ok(q) => Ok(Handle(q.issue, q.errorMessage))
  }

  /** A validated call never reaches the error branch. */
  lemma ValidCallSucceeds(args: RawQuery)
    requires Schemas.ParseDebugQuery(args).Ok?
    ensures !Call(args).value.isError
  {
  }

  /** The answer carries the error line. */
  lemma RenderErrorLine(e: DebugEntry, m: Option<string>)
    ensures Text.Includes(Render(e, m), ErrorLine(m))
  {
    Text.IncludesAt(Render(e, m), ErrorLine(m), |e.diagnosis| + 4);
  }

  /** The error line carries the caller's message, or the default when it
      is absent or empty. */
  lemma AnswerEchoesMessage(issue: string, message: string)
    requires issue in Schemas.IssueNames
    ensures message != "" ==>
              Text.Includes(Handle(issue, Some(message)).content[0].text, "**Error:** " + message)
    ensures Handle(issue, Some("")) == Handle(issue, None)
    ensures Text.Includes(Handle(issue, None).content[0].text, "**Error:** " + NoErrorMessage)
  {
    IssueKeysMatchSchema();
    var e := Seqs.Lookup(DebugSolutions, issue).value;
    RenderErrorLine(e, Some(message));
    RenderErrorLine(e, None);
  }
}
