/** The `create_nuxt_project` toolkit tool
    (server/mcp/tools/create-nuxt-project.ts): its own `generateProjectCode`,
    for a project built on the MCP toolkit module, and a handler that puts a
    Markdown header with the configuration and the next steps before the
    code. The template's fixed text is opaque; every hole is kept. */
module ProjectTool {
  import opened Wrappers
  import opened Js
  import Text
  import Schemas
  import Templates

  /** The fixed text of the template: 17 segments around 16 holes. */
  type Template = s: seq<string> | |s| == 17 witness seq(17, _ => "")

  const ProjectTemplate: Template

  const AuthParam: string := "\n    api_key: z.string().optional().describe('API key for authentication'),"
  const AuthCheck: string :=
    "\n    // Authenticate\n    const apiKey = api_key || process.env.API_KEY\n    if (!apiKey) {\n"
    + "      return { content: [{ type: 'text', text: 'API key required. Provide via api_key or set API_KEY env var.' }], isError: true }\n"
    + "    }\n"
  const CacheLine: string := "cache: '1h',"
  const ApiKeyParam: string := "api_key, "

  const BearerHeader: string := "{ Authorization: `Bearer ${apiKey}` }"
  const FetchApiHead: string :=
    "const response = await $fetch('https://api.example.com/endpoint', {\n      query: { query },\n      headers: "
  const FetchApiTail: string :=
    "\n    })\n    return { content: [{ type: 'text', text: JSON.stringify({ data: response }) }] }"
  const FetchDatabase: string :=
    "const db = useDatabase()\n"
    + "    const results = await db.query('SELECT * FROM items WHERE name LIKE ?', [`%${query}%`])\n"
    + "    return { content: [{ type: 'text', text: JSON.stringify({ results }) }] }"
  const FetchFileHead: string := "const data = await queryCollection('"
  const FetchFileTail: string :=
    "').all()\n    const filtered = query\n"
    + "      ? data.filter(item => JSON.stringify(item).toLowerCase().includes(query.toLowerCase()))\n"
    + "      : data\n    return { content: [{ type: 'text', text: JSON.stringify({ results: filtered }) }] }"
  const FetchCustom: string :=
    "// TODO: Implement your custom data fetching logic\n    const data = await yourDataSource(query)\n"
    + "    return { content: [{ type: 'text', text: JSON.stringify({ data }) }] }"

  /** `dataFetching[dataSource]`; a key outside the table interpolates as `undefined`. */
  function Fetch(dataSource: string, toolName: string, authRequired: bool): (r: string)
    ensures dataSource == "api" && authRequired ==> Text.Includes(r, BearerHeader)
    ensures dataSource == "file" ==> Text.Includes(r, toolName)
    ensures dataSource == "database" ==> r == FetchDatabase
    ensures dataSource == "custom" ==> r == FetchCustom
    ensures dataSource !in Schemas.DataSources ==> r == "undefined"
  {
    if dataSource == "api" then
      if authRequired then
        var r := FetchApiHead + BearerHeader + FetchApiTail;
        Text.IncludesAt(r, BearerHeader, |FetchApiHead|);
        r
      else FetchApiHead + "{}" + FetchApiTail
    else if dataSource == "database" then FetchDatabase
    else if dataSource == "file" then
      var r := FetchFileHead + toolName + FetchFileTail;
      Text.IncludesAt(r, toolName, |FetchFileHead|);
      r
    else if dataSource == "custom" then FetchCustom
    else "undefined"
  }

  /** Only the `api` fragment looks at the auth flag. */
  lemma FetchIgnoresAuthOutsideApi(dataSource: string, toolName: string)
    ensures dataSource != "api" <==> Fetch(dataSource, toolName, true) == Fetch(dataSource, toolName, false)
  {
    if dataSource == "api" {
      var on, off := Fetch(dataSource, toolName, true), Fetch(dataSource, toolName, false);
      var n := |FetchApiHead|;
      assert on[n + 1] == ' ';
      assert off[n + 1] == '}';
    }
  }

  /** Where each hole sits in the template. */
  const UseCaseHole: nat := 0
  const ServerNameHole: nat := 3
  const ToolFileHole: nat := 4
  const DescriptionHole: nat := 5
  const AuthParamHole: nat := 6
  const CacheHole: nat := 7
  const ApiKeyParamHole: nat := 8
  const AuthCheckHole: nat := 9
  const FetchHole: nat := 10
  const ExpectedToolHole: nat := 14

  /** The holes of the template in order of appearance (those before the
      auth fragments, the five that depend on the auth flag, then the rest);
      `toolName` is the slug. */
  function ProjectHoles(dataSource: string, useCase: string, authRequired: bool): (r: seq<string>)
    ensures |r| == 16
  {
    var toolName := Templates.Slug(useCase);
    [useCase, toolName, toolName, toolName, toolName, useCase]
    + [ if authRequired then AuthParam else "",
        if authRequired then "" else CacheLine,
        if authRequired then ApiKeyParam else "",
        if authRequired then AuthCheck else "",
        Fetch(dataSource, toolName, authRequired) ]
    + [toolName, useCase, useCase, toolName, useCase]
  }

  /** `generateProjectCode`. */
  function GenerateProjectCode(dataSource: string, useCase: string, authRequired: bool): (code: string)
    ensures Text.Includes(code, useCase) && Text.Includes(code, Templates.Slug(useCase))
    ensures Text.Includes(code, Fetch(dataSource, Templates.Slug(useCase), authRequired))
    ensures authRequired ==>
              && Text.Includes(code, AuthParam) && Text.Includes(code, ApiKeyParam)
              && Text.Includes(code, AuthCheck)
    ensures !authRequired ==> Text.Includes(code, CacheLine)
    ensures dataSource == "api" && authRequired ==> Text.Includes(code, BearerHeader)
  {
    var holes := ProjectHoles(dataSource, useCase, authRequired);
    var code := Templates.Fill(ProjectTemplate, holes);
    Templates.FillIncludes(ProjectTemplate, holes, UseCaseHole);
    Templates.FillIncludes(ProjectTemplate, holes, ToolFileHole);
    Templates.FillIncludes(ProjectTemplate, holes, FetchHole);
    Templates.FillIncludes(ProjectTemplate, holes, AuthParamHole);
    Templates.FillIncludes(ProjectTemplate, holes, CacheHole);
    Templates.FillIncludes(ProjectTemplate, holes, ApiKeyParamHole);
    Templates.FillIncludes(ProjectTemplate, holes, AuthCheckHole);
    if dataSource == "api" && authRequired then
      Text.IncludesTransitive(code, holes[FetchHole], BearerHeader);
      code
    else
      code
  }

  /** Turning auth on changes only the auth fragments, the cache line, the
      handler's parameter list and (for `api`) the request headers: with auth
      off the generated tool caches for an hour and takes no key, with auth
      on it takes and checks a key and does not cache. */
  lemma AuthChangesOnlyAuthHoles(dataSource: string, useCase: string)
    ensures var on, off := ProjectHoles(dataSource, useCase, true), ProjectHoles(dataSource, useCase, false);
            && (forall k :: 0 <= k < 16 && k !in {AuthParamHole, CacheHole, ApiKeyParamHole, AuthCheckHole, FetchHole}
                  ==> on[k] == off[k])
            && (dataSource != "api" <==> on[FetchHole] == off[FetchHole])
            && off[AuthParamHole] == "" && off[ApiKeyParamHole] == "" && off[AuthCheckHole] == ""
            && on[AuthParamHole] == AuthParam && on[ApiKeyParamHole] == ApiKeyParam && on[AuthCheckHole] == AuthCheck
            && off[CacheHole] == CacheLine && on[CacheHole] == ""
  {
    FetchIgnoresAuthOutsideApi(dataSource, Templates.Slug(useCase));
  }

  /** The server, the tool file and the tool the generated evaluation expects
      all carry the slug, so the evaluation names the tool the toolkit
      registers from that file. */
  lemma GeneratedNamesAgree(dataSource: string, useCase: string, authRequired: bool)
    ensures var h := ProjectHoles(dataSource, useCase, authRequired);
            && h[ServerNameHole] == Templates.Slug(useCase)
            && h[ToolFileHole] == Templates.Slug(useCase)
            && h[ExpectedToolHole] == h[ToolFileHole]
            && h[DescriptionHole] == useCase
  {
  }

  /** The numbered next steps the answer lists, one per line. */
  const NextStepLines: seq<string> := [
    "1. Copy code to your Nuxt project",
    "2. Customize data fetching logic",
    "3. Run pnpm dev",
    "4. Test with MCP Inspector or Claude Desktop",
    "5. Write evaluations"
  ]

  const NextStepsList: string := Text.Join(NextStepLines, "\n")

  /** `# Generated Nuxt MCP Project: ${use_case}`. */
  function Title(useCase: string): string
  {
    "# Generated Nuxt MCP Project: " + useCase
  }

  /** The configuration block, then the given numbered steps, up to the
      rule before the code. */
  function Summary(dataSource: string, authRequired: bool, steps: string): string
  {
    "\n\n**Configuration:**\n- Data Source: " + dataSource
    + "\n- Auth Required: " + BoolText(authRequired)
    + "\n\n**Next Steps:**\n" + steps + "\n\n---\n\n"
  }

  /** The summary this tool writes: its five steps are spelled out. */
  function Details(dataSource: string, authRequired: bool): string
  {
    Summary(dataSource, authRequired, NextStepsList)
  }

  /** The tool handler on a validated query: one text item, the title, the
      details, then the code. */
  function Handle(q: Schemas.ProjectQuery): (r: ToolResult)
    ensures |r.content| == 1 && !r.isError
    ensures var text := r.content[0].text;
            var code := GenerateProjectCode(q.dataSource, q.useCase, q.authRequired);
            var title := Title(q.useCase);
            && |text| == |title| + |Details(q.dataSource, q.authRequired)| + |code|
            && title <= text
            && text[|title|..|text| - |code|] == Details(q.dataSource, q.authRequired)
            && text[|text| - |code|..] == code
  {
    var code := GenerateProjectCode(q.dataSource, q.useCase, q.authRequired);
    var title := Title(q.useCase);
    var details := Details(q.dataSource, q.authRequired);
    Text.ConcatSlices(title, details, code);
    TextResult(title + details + code)
  }

  /** A call: the tool's input schema (the same rules as `CreateProjectSchema`),
      then the handler. */
  function Call(args: RawQuery): (r: Result<ToolResult, Failure>)
    ensures r.Err? <==> Schemas.ParseProjectQuery(args).Err?
    ensures r.Err? ==> r.error == Schemas.ParseProjectQuery(args).error
    ensures r.Ok? ==> r.value == Handle(Schemas.ParseProjectQuery(args).value)
  {
    match Schemas.ParseProjectQuery(args)
    case Err(e) => Err(e)
    case Ok(q) => Ok(Handle(q))
  }
}
