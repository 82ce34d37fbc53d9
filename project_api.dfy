/** The `create-nuxt-project` HTTP endpoint
    (server/api/mcp/create-nuxt-project.get.ts): `generateProjectCode` fills
    one long template literal from the data source, the use case and the auth
    flag, and the handler returns it with the inputs and five next steps.
    The template's fixed text is opaque; every hole is kept. */
module ProjectApi {
  import opened Wrappers
  import opened Js
  import Text
  import Schemas
  import Templates

  /** The fixed text of the template: 19 segments around 18 holes. */
  type Template = s: seq<string> | |s| == 19 witness seq(19, _ => "")

  const ProjectTemplate: Template

  const AuthImport: string := "\nimport { validateApiKey } from '~/server/utils/auth'"
  const AuthParam: string := "\n  api_key: z.string().optional().describe('API key for authentication'),"
  const AuthCheck: string :=
    "\n  // Authenticate\n  const apiKey = args.api_key || process.env.API_KEY\n  if (!apiKey) {\n"
    + "    throw createError({ statusCode: 401, message: 'API key required' })\n  }\n"
    + "  const isValid = await validateApiKey(apiKey)\n  if (!isValid) {\n"
    + "    throw createError({ statusCode: 403, message: 'Invalid API key' })\n  }\n"

  const BearerHeader: string := "{ Authorization: `Bearer ${apiKey}` }"
  const FetchApiHead: string :=
    "const response = await $fetch('https://api.example.com/endpoint', { \n    query: { ...args },\n    headers: "
  const FetchApiTail: string := "\n  })\n  return { data: response }"
  const FetchDatabase: string :=
    "const db = useDatabase()\n"
    + "  const results = await db.query('SELECT * FROM items WHERE name LIKE ?', [`%${args.query}%`])\n"
    + "  return { results }"
  const FetchFileHead: string := "const data = await queryCollection('"
  const FetchFileTail: string :=
    "').all()\n  const filtered = args.query \n"
    + "    ? data.filter(item => JSON.stringify(item).toLowerCase().includes(args.query.toLowerCase()))\n"
    + "    : data\n  return { results: filtered }"
  const FetchCustom: string :=
    "// TODO: Implement your custom data fetching logic\n  const data = await yourDataSource(args)\n  return { data }"

  /** `dataFetching[dataSource]`; a key outside the table interpolates as `undefined`. */
  function Fetch(dataSource: string, slug: string, authRequired: bool): (r: string)
    ensures dataSource == "api" && authRequired ==> Text.Includes(r, BearerHeader)
    ensures dataSource == "file" ==> Text.Includes(r, slug)
    ensures dataSource == "database" ==> r == FetchDatabase
    ensures dataSource == "custom" ==> r == FetchCustom
    ensures dataSource !in Schemas.DataSources ==> r == "undefined"
  {
    if dataSource == "api" then
      if authRequired then
        var r := FetchApiHead + BearerHeader + FetchApiTail;
        Text.IncludesAt(r, BearerHeader, |FetchApiHead|);
        r
      else FetchApiHead + "{}" + FetchApiTail
    else if dataSource == "database" then FetchDatabase
    else if dataSource == "file" then
      var r := FetchFileHead + slug + FetchFileTail;
      Text.IncludesAt(r, slug, |FetchFileHead|);
      r
    else if dataSource == "custom" then FetchCustom
    else "undefined"
  }

  /** Only the `api` fragment looks at the auth flag. */
  lemma FetchIgnoresAuthOutsideApi(dataSource: string, slug: string)
    ensures dataSource != "api" <==> Fetch(dataSource, slug, true) == Fetch(dataSource, slug, false)
  {
    if dataSource == "api" {
      var on, off := Fetch(dataSource, slug, true), Fetch(dataSource, slug, false);
      var n := |FetchApiHead|;
      assert on[n] == '{' && on[n + 2] == 'A';
      assert off[n + 1] == '}';
      assert on[n + 1] == ' ';
    }
  }

  /** Where each hole sits in the template. */
  const UseCaseHole: nat := 0
  const AuthParamHole: nat := 3
  const AuthImportHole: nat := 4
  const AuthCheckHole: nat := 5
  const FetchHole: nat := 6
  const MaxAgeHole: nat := 7
  const ServerNameHole: nat := 8
  const RegisteredToolHole: nat := 9
  const TitleHole: nat := 10
  const OpenWorldHole: nat := 12
  const ExpectedToolHole: nat := 16

  /** The holes of the template in order of appearance: those before the
      auth fragments, the five that depend on the auth flag, then the rest. */
  function ProjectHoles(dataSource: string, useCase: string, authRequired: bool): (r: seq<string>)
    ensures |r| == 18
  {
    var slug := Templates.Slug(useCase);
    var ident := Templates.Identifier(useCase);
    [useCase, slug, slug]
    + [ if authRequired then AuthParam else "",
        if authRequired then AuthImport else "",
        if authRequired then AuthCheck else "",
        Fetch(dataSource, slug, authRequired),
        if authRequired then "0" else "60 * 60" ]
    + [ slug, ident, Text.Capitalize(useCase), useCase,
        BoolText(dataSource == "api"),
        slug, useCase, useCase, ident, useCase ]
  }

  /** `generateProjectCode`. */
  function GenerateProjectCode(dataSource: string, useCase: string, authRequired: bool): (code: string)
    ensures Text.Includes(code, useCase) && Text.Includes(code, Text.Capitalize(useCase))
    ensures Text.Includes(code, Templates.Slug(useCase)) && Text.Includes(code, Templates.Identifier(useCase))
    ensures Text.Includes(code, Fetch(dataSource, Templates.Slug(useCase), authRequired))
    ensures authRequired ==>
              Text.Includes(code, AuthImport) && Text.Includes(code, AuthParam) && Text.Includes(code, AuthCheck)
    ensures dataSource == "api" && authRequired ==> Text.Includes(code, BearerHeader)
  {
    var holes := ProjectHoles(dataSource, useCase, authRequired);
    var code := Templates.Fill(ProjectTemplate, holes);
    Templates.FillIncludes(ProjectTemplate, holes, UseCaseHole);
    Templates.FillIncludes(ProjectTemplate, holes, 1);
    Templates.FillIncludes(ProjectTemplate, holes, RegisteredToolHole);
    Templates.FillIncludes(ProjectTemplate, holes, TitleHole);
    Templates.FillIncludes(ProjectTemplate, holes, FetchHole);
    Templates.FillIncludes(ProjectTemplate, holes, AuthImportHole);
    Templates.FillIncludes(ProjectTemplate, holes, AuthParamHole);
    Templates.FillIncludes(ProjectTemplate, holes, AuthCheckHole);
    if dataSource == "api" && authRequired then
      Text.IncludesTransitive(code, holes[FetchHole], BearerHeader);
      code
    else
      code
  }

  /** Turning auth on changes only the three auth fragments, the `maxAge`
      text and (for `api`) the request headers; with auth off the fragments
      are empty and the generated handler caches for an hour, with auth on
      it does not cache. */
  lemma AuthChangesOnlyAuthHoles(dataSource: string, useCase: string)
    ensures var on, off := ProjectHoles(dataSource, useCase, true), ProjectHoles(dataSource, useCase, false);
            && (forall k :: 0 <= k < 18 && k !in {AuthParamHole, AuthImportHole, AuthCheckHole, FetchHole, MaxAgeHole}
                  ==> on[k] == off[k])
            && (dataSource != "api" <==> on[FetchHole] == off[FetchHole])
            && off[AuthParamHole] == "" && off[AuthImportHole] == "" && off[AuthCheckHole] == ""
            && on[AuthParamHole] == AuthParam && on[AuthImportHole] == AuthImport && on[AuthCheckHole] == AuthCheck
            && off[MaxAgeHole] == "60 * 60" && on[MaxAgeHole] == "0"
  {
    FetchIgnoresAuthOutsideApi(dataSource, Templates.Slug(useCase));
  }

  /** The generated server is named after the slug, registers its tool under
      the identifier, marks the tool open-world exactly for `api`, and the
      generated evaluation expects the tool the code registers. */
  lemma GeneratedNamesAgree(dataSource: string, useCase: string, authRequired: bool)
    ensures var h := ProjectHoles(dataSource, useCase, authRequired);
            && h[ServerNameHole] == Templates.Slug(useCase)
            && h[RegisteredToolHole] == Templates.Identifier(useCase)
            && h[ExpectedToolHole] == h[RegisteredToolHole]
            && (h[OpenWorldHole] == "true" <==> dataSource == "api")
  {
  }

  const NextSteps: seq<string> := [
    "Copy code to your Nuxt project",
    "Customize data fetching logic",
    "Run pnpm dev",
    "Test with MCP Inspector or Claude Desktop",
    "Write evaluations"
  ]

  datatype ProjectResponse = ProjectResponse(
    useCase: string, dataSource: string, authRequired: bool, code: string, nextSteps: seq<string>)

  /** The handler on a validated query. */
  function Handle(q: Schemas.ProjectQuery): (r: ProjectResponse)
    ensures r.useCase == q.useCase && r.dataSource == q.dataSource && r.authRequired == q.authRequired
    ensures r.code == GenerateProjectCode(q.dataSource, q.useCase, q.authRequired)
    ensures r.nextSteps == NextSteps
  {
    ProjectResponse(q.useCase, q.dataSource, q.authRequired,
                    GenerateProjectCode(q.dataSource, q.useCase, q.authRequired), NextSteps)
  }

  /** A request: `CreateProjectSchema` (400 on a bad field), then the handler. */
  function Serve(raw: RawQuery): (r: Result<ProjectResponse, Failure>)
    ensures r.Err? <==> Schemas.ParseProjectQuery(raw).Err?
    ensures r.Err? ==> r.error == Schemas.ParseProjectQuery(raw).error
    ensures r.Ok? ==> r.value == Handle(Schemas.ParseProjectQuery(raw).value)
  {
    match Schemas.ParseProjectQuery(raw)
    case Err(e) => Err(e)
    case Ok(q) => Ok(Handle(q))
  }

  /** Over HTTP every query value is text, and `z.boolean()` rejects text:
      a request the endpoint accepts never asks for auth, so the auth
      fragments are never generated through the query string. */
  lemma QueryStringNeverAuth(raw: RawQuery)
    requires forall k :: k in raw ==> raw[k].JString?
    ensures Serve(raw).Ok? ==> "auth_required" !in raw && !Serve(raw).value.authRequired
    ensures "auth_required" in raw ==> Serve(raw).Err?
  {
    if "auth_required" in raw {
      assert Get(raw, "auth_required").value.JString?;
    }
  }

  /** The corrected endpoint: the schema also reads the text `true` or
      `false` that a serialised boolean becomes in the query string. */
  function ServeQueryString(raw: RawQuery): (r: Result<ProjectResponse, Failure>)
    ensures r.Err? <==> Schemas.ParseProjectQueryString(raw).Err?
    ensures r.Err? ==> r.error == Schemas.ParseProjectQueryString(raw).error
    ensures r.Ok? ==> r.value == Handle(Schemas.ParseProjectQueryString(raw).value)
    ensures Serve(raw).Ok? ==> r == Serve(raw)
  {
    match Schemas.ParseProjectQueryString(raw)
    case Err(e) => Err(e)
    case Ok(q) => Ok(Handle(q))
  }

  /** Leaving out `auth_required` generates the unauthenticated project. */
  lemma AbsentAuthMeansNoAuth(raw: RawQuery)
    requires Schemas.ParseProjectQuery(raw).Ok?
    requires "auth_required" !in raw
    ensures !Serve(raw).value.authRequired
    ensures var q := Schemas.ParseProjectQuery(raw).value;
            Serve(raw).value.code == Templates.Fill(ProjectTemplate, ProjectHoles(q.dataSource, q.useCase, false))
  {
  }

  /** The endpoint is not cached: every generation is computed afresh. */
  const MaxAge: nat := 0
}
