# mcp-starter in Dafny

A model of the server side of mcp-starter, a Nuxt application that serves a
Model Context Protocol (MCP) server. The model covers:

- the `/mcp` route (`server/routes/mcp.ts`): it builds a fresh MCP server
  for each request. The server has two resources, three tools and two
  prompts. The route connects the server to a sessionless streamable-HTTP
  transport and closes both when the response closes. Each of the three
  tools forwards its validated arguments to an HTTP endpoint and renders the
  JSON that comes back as text;
- the cached HTTP endpoints under `server/api/mcp/`:
  - `get-pattern`, `create-nuxt-project` and `debug-setup`, which the
    route's tools call;
  - `generate-mcp-boilerplate`, `get-code` and `get-documentation`;
  - their zod query schemas (`server/utils/schemas.ts`) and their cache keys;
- the MCP-toolkit tools under `server/mcp/tools/` (`get-pattern`,
  `create-nuxt-project`, `debug-setup`). They answer the same questions
  directly, without the HTTP hop;
- the content helpers (`server/utils/content.ts`), which turn a parsed
  Markdown document into text, a title and a description.

Layout, one module per file:

| module | file | models |
|---|---|---|
| `Wrappers`, `Js` | `wrappers.dfy`, `js.dfy` | `Option`/`Result`; JSON query values, truthiness, template-literal interpolation (`undefined`), tool results |
| `Zod`, `Schemas` | `zod.dfy`, `schemas.dfy` | the zod combinators used and the five schemas |
| `Text`, `Seqs` | `text.dfy`, `seqs.dfy` | `includes`, `join`, `split`, `toLowerCase`, `replace(/\s+/g, …)`, `String(n)`; `filter`, `find`, record keys |
| `Content` | `content.dfy` | `extractTitle`, `extractDescription`, `getMarkdownContent` |
| `GetCode`, `GetDocumentation` | `get_code.dfy`, `get_documentation.dfy` | the list / get / search endpoints |
| `PatternApi`, `PatternTool` | `pattern_api.dfy`, `pattern_tool.dfy` | the pattern endpoint and toolkit tool |
| `DebugApi`, `DebugTool` | `debug_api.dfy`, `debug_tool.dfy` | the debug endpoint and toolkit tool |
| `Boilerplate` | `boilerplate.dfy` | the boilerplate generator endpoint |
| `Templates`, `ProjectApi`, `ProjectTool` | `templates.dfy`, `project_api.dfy`, `project_tool.dfy` | the two project generators |
| `McpRoute` | `mcp_route.dfy` | `createServer`, the event handler and its cleanup, the three tool renderers |

A request's query, or a tool call's arguments, is a map from field names
to JSON values. A query that comes over HTTP holds only strings: when a
route tool forwards its arguments with `$fetch(…, { query })`, a boolean
arrives as the text `true` or `false`. Validation either succeeds or fails. A failure is `Invalid(field)`, the 400 answer of
`getValidatedQuery`, or `HttpError(status, message)`, what `createError`
throws.

The content collections are parameters. A handler receives the items that
`queryCollection(…).all()` would return, in index order. Long fixed texts
are opaque string constants: the pattern code and explanations, the debug
solutions and the fixed parts of the generated code. Every hole of a
template literal is kept, together with the value that fills it. Short
literals are kept verbatim: messages, headings, keys, step lists and
fragments that depend on flags.

The list/get/search handlers test truthiness, so an empty `search_query`
(or `search_pattern`) counts as absent and the request is answered in list
mode (`get-code.get.ts:15`, `get-documentation.get.ts:14`).
`GetDocumentation.EmptyStringIsAbsent` states it.

## Model

| member | source | states |
|---|---|---|
| Zod.RequiredString | server/utils/schemas.ts:12 | accepts exactly a present string field and returns that string |
| Zod.OptionalString | server/utils/schemas.ts:19 | an absent field gives none; a string gives that string; any other JSON value is rejected |
| Zod.RequiredEnum | server/utils/schemas.ts:5 | accepts exactly a string among the listed values and returns it |
| Zod.OptionalEnum | server/api/mcp/get-code.get.ts:7 | an absent field gives none; it gives some exactly for a listed string |
| Zod.EnumOrDefault | server/utils/schemas.ts:6 | an absent field gives the default; a present string passes iff listed; the result is always listed |
| Zod.BoolTextOrDefault | server/utils/schemas.ts:13 | the corrected boolean field: absent gives the default; a boolean, or the text `true`/`false` a serialised boolean becomes, gives that boolean; anything else is rejected |
| Zod.BoolOrDefault | server/utils/schemas.ts:13 | an absent field gives the default; a boolean passes unchanged; anything else is rejected |
| Schemas.ParsePatternQuery | server/utils/schemas.ts:4-7 | succeeds iff `pattern` is one of the six names; echoes the pattern; `format` is the given one or `both` |
| Schemas.ParseProjectQuery | server/utils/schemas.ts:10-14 | succeeds only for one of the four data sources and a string use case; `auth_required` defaults to false and otherwise passes through |
| Schemas.ParseProjectQueryString | server/utils/schemas.ts:10-14 | the corrected schema: it accepts everything `CreateProjectSchema` accepts, with the same result; with `auth_required` as the text of `b` it succeeds iff the source and use case are valid, and reads `b` |
| Schemas.ParseDebugQuery | server/utils/schemas.ts:17-20 | succeeds only for one of the five issues; the message is absent exactly when the field is |
| Schemas.ParseScaffoldApiPrompt | server/utils/schemas.ts:23-25 | succeeds iff `api_description` is a string, and returns it |
| Schemas.ParseAddToolPrompt | server/utils/schemas.ts:27-29 | succeeds iff `tool_purpose` is a string, and returns it |
| Schemas.EmptyObjectRejected | server/utils/schemas.ts:4-29 | each of the five schemas rejects the empty query |
| Schemas.DefaultsOnlyWhenAbsent | server/utils/schemas.ts:6-13 | the defaults `both` and `false` are used when the field is left out; an explicit `true` is kept |
| Seqs.FilterIsPositions | server/api/mcp/get-code.get.ts:19-21 | `filter` keeps exactly the elements that satisfy the predicate, in index order |
| Content.ConcatTextsIsJoin | server/utils/content.ts:31 | concatenating the children's texts is joining them with `''` |
| Content.ExtractTextElement | server/utils/content.ts:26-33 | a non-empty value wins; otherwise the text is the children's texts concatenated, and `''` without children |
| Content.ConcatTextsAppend | server/utils/content.ts:31 | the text of `a + b` is the text of `a` followed by the text of `b` |
| Content.ConcatTextsIncludes | server/utils/content.ts:31 | every child's text appears in its parent's text |
| Content.MarkdownContent | server/utils/content.ts:22-36 | no body or no children gives `''`; otherwise the top-level texts joined by a blank line |
| Content.MarkdownContentLength | server/utils/content.ts:35 | the length is the sum of the texts plus two per gap |
| Content.FirstTaggedValue | server/utils/content.ts:3-8 | none when no top-level node has the tag; otherwise the lead value of the first node that has it |
| Content.ExtractTitle | server/utils/content.ts:1-9 | the lead value of the first top-level `h1`, none without one |
| Content.ExtractDescription | server/utils/content.ts:11-20 | the lead value of the first top-level `p`, none without one |
| Content.FirstTaggedIgnoresLater | server/utils/content.ts:3-5 | nodes after the first tagged node never change the result |
| Content.TitleOfHeading | server/utils/content.ts:1-9 | a leading `h1` whose first child has a value is titled by that value |
| GetCode.ParseCodeQuery | server/api/mcp/get-code.get.ts:5-9 | every field is optional; a present field must be a string, and `category` one of the five; values pass through |
| GetCode.Handle | server/api/mcp/get-code.get.ts:11-90 | the truthiness of `filepath` and `search_pattern` selects list, get or search mode; the only error is a 404 in get mode, exactly when no file has that path |
| GetCode.Serve | server/api/mcp/get-code.get.ts:11-12 | an invalid query gives its 400; otherwise the handler's answer; every error is a 400 or a 404 |
| GetCode.UnknownCategoryRejected | server/api/mcp/get-code.get.ts:7 | a category outside the enum is rejected before the handler runs |
| GetCode.ListInIndexOrder | server/api/mcp/get-code.get.ts:14-31 | list mode shows all files, or exactly those of the category in index order, and echoes the category or `all` |
| GetCode.GetReturnsFirstMatch | server/api/mcp/get-code.get.ts:34-58 | get mode answers with the first file whose path is equal, and its Markdown text |
| GetCode.NotFoundListsEveryFile | server/api/mcp/get-code.get.ts:41-49 | the 404 message names every file; without newlines in paths, its lines after the header are exactly the paths |
| GetCode.SearchResults | server/api/mcp/get-code.get.ts:61-89 | the results are exactly the matching files in index order; a suggestion comes exactly with no results |
| GetCode.SearchEmptyIffNoMatch | server/api/mcp/get-code.get.ts:71-78 | the search result is empty iff no file matches, and it is never an error |
| GetCode.SnippetShape | server/api/mcp/get-code.get.ts:87 | a snippet is the first 300 characters of the text at most, followed by `...` |
| GetCode.LiteralOccurrenceFound | server/api/mcp/get-code.get.ts:66-69 | a file whose path, purpose or text contains the pattern is found |
| GetCode.SearchIgnoresPatternCase | server/api/mcp/get-code.get.ts:68 | the search does not depend on the case of the pattern |
| GetCode.CategoryIgnoredOutsideList | server/api/mcp/get-code.get.ts:19-21 | the category changes nothing in get and search mode |
| GetCode.CacheKey | server/api/mcp/get-code.get.ts:93-96 | the key is built from the raw query and starts with `code-` |
| GetCode.ListSearchCollide | server/api/mcp/get-code.get.ts:95 | a search for `list` and the plain listing share a key but get different answers |
| GetCode.HandleOutsideGet | server/api/mcp/get-code.get.ts:14-90 | outside get mode the answer depends only on the category and the search pattern |
| GetCode.CorrectedCacheKey | server/api/mcp/get-code.get.ts:93-96 | the corrected key starts with `code-` |
| GetCode.CorrectedKeySound | server/api/mcp/get-code.get.ts:93-96 | with the corrected key, valid requests without a file path that share a key get the same answer |
| GetDocumentation.ParseDocQuery | server/api/mcp/get-documentation.get.ts:5-8 | both fields are optional strings and pass through |
| GetDocumentation.Handle | server/api/mcp/get-documentation.get.ts:10-85 | the truthiness of `section` and `search_query` selects the mode; the only error is a 404 in get mode, exactly when no section matches; list mode lists every section |
| GetDocumentation.Serve | server/api/mcp/get-documentation.get.ts:10-11 | an invalid query gives its 400; otherwise the handler's answer |
| GetDocumentation.SchemaCases | server/api/mcp/get-documentation.get.ts:5-27 | the empty query lists all sections; a numeric `section` is rejected |
| GetDocumentation.EmptyStringIsAbsent | server/api/mcp/get-documentation.get.ts:14 | `section=''` behaves as an absent section; with an empty search too, the answer is the listing |
| GetDocumentation.SectionBeatsSearch | server/api/mcp/get-documentation.get.ts:30 | when a section is given the search query is ignored |
| GetDocumentation.GetReturnsFirstMatch | server/api/mcp/get-documentation.get.ts:30-53 | get mode answers with the first section of that name and its text |
| GetDocumentation.NotFoundListsEverySection | server/api/mcp/get-documentation.get.ts:36-45 | the 404 message names every section after `Available: ` |
| GetDocumentation.SearchResults | server/api/mcp/get-documentation.get.ts:56-84 | the results are exactly the matching sections in index order; a suggestion comes exactly with no results |
| GetDocumentation.SearchEmptyIffNoMatch | server/api/mcp/get-documentation.get.ts:66-73 | the result is empty iff no section matches |
| GetDocumentation.ExcerptShape | server/api/mcp/get-documentation.get.ts:82 | an excerpt is the first 500 characters at most, followed by `...` |
| GetDocumentation.TitleOccurrenceFound | server/api/mcp/get-documentation.get.ts:61-64 | a section whose title contains the query is found, whatever the query's case |
| GetDocumentation.CacheKey | server/api/mcp/get-documentation.get.ts:88-91 | the key starts with `docs-` |
| GetDocumentation.ListSearchCollide | server/api/mcp/get-documentation.get.ts:90 | a search for `list` and the plain listing share a key but get different answers |
| GetDocumentation.CorrectedCacheKey | server/api/mcp/get-documentation.get.ts:88-91 | the corrected key starts with `docs-` |
| GetDocumentation.CorrectedKeySound | server/api/mcp/get-documentation.get.ts:88-91 | with the corrected key, valid requests without a section that share a key get the same answer |
| PatternApi.PatternKeysMatchSchema | server/api/mcp/get-pattern.get.ts:1-313 | the table's keys, in order, are the schema's pattern names |
| PatternApi.Handle | server/api/mcp/get-pattern.get.ts:315-336 | a 404 listing the patterns exactly for an unknown name; otherwise code only, explanation only, or both, by format |
| PatternApi.Serve | server/api/mcp/get-pattern.get.ts:315-316 | an invalid query gives its 400; otherwise the handler on the validated pattern and format |
| PatternApi.NotFoundUnreachable | server/api/mcp/get-pattern.get.ts:318-326 | after validation the 404 branch is never taken |
| PatternApi.NotFoundListsEveryPattern | server/api/mcp/get-pattern.get.ts:321-324 | the 404 message names every pattern |
| PatternApi.CacheKey | server/api/mcp/get-pattern.get.ts:339-342 | the key starts with `pattern-` |
| PatternApi.AbsentFormatIsBoth | server/api/mcp/get-pattern.get.ts:341 | leaving out `format` and asking for `both` share a key and an answer |
| PatternApi.CacheKeyOfValid | server/api/mcp/get-pattern.get.ts:341 | for a valid request the key spells out the validated pattern and format |
| PatternApi.CacheKeySound | server/api/mcp/get-pattern.get.ts:338-342 | valid requests that share a key get the same answer |
| PatternTool.PatternKeysMatchSchema | server/mcp/tools/get-pattern.ts:3-298 | the table's keys, in order, are the schema's pattern names |
| PatternTool.Guide | server/mcp/tools/get-pattern.ts:323-328 | the guide opens with the pattern's heading, holds the explanation and then the code at known places, and ends with the closing fence |
| PatternTool.Handle | server/mcp/tools/get-pattern.ts:307-329 | one text item; an error exactly for an unknown pattern; code, explanation or the guide, by format |
| PatternTool.Call | server/mcp/tools/get-pattern.ts:300-306 | the input schema first, then the handler on the validated arguments |
| PatternTool.ValidCallSucceeds | server/mcp/tools/get-pattern.ts:307-329 | every valid call succeeds, and without a format it answers with the guide |
| PatternTool.NotFoundListsEveryPattern | server/mcp/tools/get-pattern.ts:310-313 | the error text names every pattern |
| DebugApi.IssueKeysMatchSchema | server/api/mcp/debug-setup.get.ts:1-96 | the table's keys, in order, are the schema's issue names |
| DebugApi.ErrorText | server/api/mcp/debug-setup.get.ts:113 | a non-empty message is echoed; otherwise the default text |
| DebugApi.Handle | server/api/mcp/debug-setup.get.ts:98-122 | a 404 exactly for an unknown issue; otherwise the issue, the message text, the entry's diagnosis and solutions, and the four resources |
| DebugApi.Serve | server/api/mcp/debug-setup.get.ts:98-99 | an invalid query gives its 400; otherwise the handler's answer |
| DebugApi.NotFoundUnreachable | server/api/mcp/debug-setup.get.ts:103-109 | after validation the 404 branch is never taken |
| DebugApi.EmptyMessageIsAbsent | server/api/mcp/debug-setup.get.ts:113 | an empty message gets the same answer as no message: the default text |
| DebugApi.NotFoundListsEveryIssue | server/api/mcp/debug-setup.get.ts:104-108 | the 404 message names every issue |
| DebugApi.CacheKey | server/api/mcp/debug-setup.get.ts:125-128 | the key starts with `debug-` |
| DebugApi.CacheKeyIgnoresMessage | server/api/mcp/debug-setup.get.ts:127 | two requests for the same issue with different messages share a key but get different answers |
| DebugApi.CorrectedCacheKey | server/api/mcp/debug-setup.get.ts:125-128 | the corrected key starts with `debug-` |
| DebugApi.CorrectedKeySound | server/api/mcp/debug-setup.get.ts:98-128 | with the corrected key, valid requests that share a key get the same answer |
| DebugTool.IssueKeysMatchSchema | server/mcp/tools/debug-setup.ts:3-96 | the table's keys, in order, are the schema's issue names |
| DebugTool.ErrorText | server/mcp/tools/debug-setup.ts:118 | a non-empty message is echoed; otherwise the default text |
| DebugTool.Render | server/mcp/tools/debug-setup.ts:116-129 | the diagnosis heading, the error line, the solutions joined by newlines and the fixed resources, each at its place |
| DebugTool.RenderIncludesEverySolution | server/mcp/tools/debug-setup.ts:122 | every solution appears in the text |
| DebugTool.Handle | server/mcp/tools/debug-setup.ts:105-132 | one text item; an error exactly for an unknown issue; otherwise the rendered entry |
| DebugTool.Call | server/mcp/tools/debug-setup.ts:100-105 | the input schema first, then the handler |
| DebugTool.ValidCallSucceeds | server/mcp/tools/debug-setup.ts:106-111 | every valid call succeeds |
| DebugTool.RenderErrorLine | server/mcp/tools/debug-setup.ts:118 | the error line appears in the text |
| DebugTool.AnswerEchoesMessage | server/mcp/tools/debug-setup.ts:118 | a non-empty message appears in the answer; an empty one is treated as absent, which shows the default |
| Boilerplate.ParseGenerateQuery | server/api/mcp/generate-mcp-boilerplate.get.ts:3-7 | succeeds only for one of the three types with a string description; `format` defaults to `typescript` |
| Boilerplate.TypeScriptTool | server/api/mcp/generate-mcp-boilerplate.get.ts:57-105 | the description appears at both of its holes, and the code's length is the template's plus twice the description's |
| Boilerplate.TypeScriptResource | server/api/mcp/generate-mcp-boilerplate.get.ts:107-134 | the description appears at its hole |
| Boilerplate.TypeScriptPrompt | server/api/mcp/generate-mcp-boilerplate.get.ts:136-166 | the description appears at its hole |
| Boilerplate.PythonBoilerplate | server/api/mcp/generate-mcp-boilerplate.get.ts:168-194 | a tool gets the template with the description in its docstring; any other type gets the one-line TODO naming the type |
| Boilerplate.GeneratorsInjective | server/api/mcp/generate-mcp-boilerplate.get.ts:57-194 | different descriptions give different code in every generator |
| Boilerplate.Handle | server/api/mcp/generate-mcp-boilerplate.get.ts:12-48 | a 400 `Unsupported combination` exactly when neither TypeScript with a known type nor Python; otherwise type and format echoed, with the description in the code |
| Boilerplate.TypeScriptDispatch | server/api/mcp/generate-mcp-boilerplate.get.ts:12-34 | each TypeScript type is answered by its own generator |
| Boilerplate.Serve | server/api/mcp/generate-mcp-boilerplate.get.ts:9-10 | an invalid query gives its 400; otherwise the handler's answer |
| Boilerplate.UnsupportedUnreachable | server/api/mcp/generate-mcp-boilerplate.get.ts:45-48 | after validation the 400 branch is never taken; without a format the answer is TypeScript |
| Boilerplate.SchemaCases | server/api/mcp/generate-mcp-boilerplate.get.ts:3-7 | the default format, an explicit Python format, and the rejection of an unknown type |
| Boilerplate.CacheKey | server/api/mcp/generate-mcp-boilerplate.get.ts:51-54 | the key starts with `generate-` |
| Boilerplate.CacheKeyIgnoresDescription | server/api/mcp/generate-mcp-boilerplate.get.ts:53 | two tool requests with different descriptions share a key but get different code |
| Boilerplate.CorrectedCacheKey | server/api/mcp/generate-mcp-boilerplate.get.ts:51-54 | the corrected key starts with `generate-` |
| Boilerplate.CorrectedKeySound | server/api/mcp/generate-mcp-boilerplate.get.ts:9-54 | with the corrected key, valid requests that share a key get the same answer |
| Templates.Fill | server/api/mcp/create-nuxt-project.get.ts:35-148 | a template literal is its first segment, then each hole followed by the next segment; lengths add up |
| Templates.FillIncludes | server/api/mcp/create-nuxt-project.get.ts:35-148 | whatever fills a hole appears in the result |
| Templates.Slug | server/api/mcp/create-nuxt-project.get.ts:38 | `replace(/\s+/g, '-')` leaves no whitespace and keeps every other character in order |
| Templates.Identifier | server/api/mcp/create-nuxt-project.get.ts:75 | `replace(/\s+/g, '_')` leaves no whitespace and keeps every other character in order |
| Templates.NamesOfRun | server/api/mcp/create-nuxt-project.get.ts:38-75 | each maximal whitespace run, however long, becomes exactly one `-` in the slug and one `_` in the identifier |
| Templates.NamesOfTwoWords | server/api/mcp/create-nuxt-project.get.ts:38-75 | two words with whitespace between them, as in `recipe API`, give `word-word` and `word_word` |
| Templates.IdentifierFromSlug | server/api/mcp/create-nuxt-project.get.ts:38-75 | without dashes in the use case, the identifier is the slug with its dashes turned into underscores |
| Templates.PlainUseCase | server/api/mcp/create-nuxt-project.get.ts:38 | a use case without whitespace is its own slug and identifier |
| Templates.Numbered | server/routes/mcp.ts:125 | item `i` is `${i + 1}. ` followed by step `i` |
| ProjectApi.Fetch | server/api/mcp/create-nuxt-project.get.ts:16-33 | the fragment for each data source: the Bearer header for `api` with auth, the slug for `file`, `undefined` outside the table |
| ProjectApi.FetchIgnoresAuthOutsideApi | server/api/mcp/create-nuxt-project.get.ts:19 | the auth flag changes the fragment iff the source is `api` |
| ProjectApi.GenerateProjectCode | server/api/mcp/create-nuxt-project.get.ts:1-149 | the code contains the use case, its capitalised form, the slug, the identifier, the data fragment, and with auth the import, the parameter, the check and the Bearer header |
| ProjectApi.AuthChangesOnlyAuthHoles | server/api/mcp/create-nuxt-project.get.ts:2-58 | turning auth on changes only the auth fragments, `maxAge` (one hour becomes `0`) and, for `api`, the headers |
| ProjectApi.GeneratedNamesAgree | server/api/mcp/create-nuxt-project.get.ts:71-137 | the server takes the slug, the tool is registered under the identifier and expected under it by the evaluation, and it is open-world exactly for `api` |
| ProjectApi.Handle | server/api/mcp/create-nuxt-project.get.ts:151-168 | the inputs are echoed with the generated code and the five next steps |
| ProjectApi.Serve | server/api/mcp/create-nuxt-project.get.ts:151-152 | an invalid query gives its 400; otherwise the handler's answer |
| ProjectApi.QueryStringNeverAuth | server/api/mcp/create-nuxt-project.get.ts:151-152 | for a query of strings only, any `auth_required` field is rejected, so an accepted request never asks for auth |
| ProjectApi.ServeQueryString | server/api/mcp/create-nuxt-project.get.ts:151-168 | the corrected endpoint: the corrected schema then the handler; it agrees with the endpoint wherever that one succeeds |
| ProjectApi.AbsentAuthMeansNoAuth | server/utils/schemas.ts:13 | leaving out `auth_required` generates the project without auth |
| ProjectTool.Fetch | server/mcp/tools/create-nuxt-project.ts:17-34 | the fragment for each data source: the Bearer header for `api` with auth, the tool name for `file`, `undefined` outside the table |
| ProjectTool.FetchIgnoresAuthOutsideApi | server/mcp/tools/create-nuxt-project.ts:20 | the auth flag changes the fragment iff the source is `api` |
| ProjectTool.GenerateProjectCode | server/mcp/tools/create-nuxt-project.ts:4-108 | the code contains the use case, the tool name and the data fragment; with auth the key parameter and check, without it the one-hour cache line |
| ProjectTool.AuthChangesOnlyAuthHoles | server/mcp/tools/create-nuxt-project.ts:6-65 | turning auth on changes only the auth fragments, the cache line, the handler's parameters and, for `api`, the headers |
| ProjectTool.GeneratedNamesAgree | server/mcp/tools/create-nuxt-project.ts:36-96 | the server, the tool file and the tool the evaluation expects all carry the slug |
| ProjectTool.Handle | server/mcp/tools/create-nuxt-project.ts:117-141 | one text item: the title, the configuration and next steps, then the generated code |
| ProjectTool.Call | server/mcp/tools/create-nuxt-project.ts:110-117 | the input schema first, then the handler |
| McpRoute.Transport.constructor | server/routes/mcp.ts:308-309 | a new transport is sessionless, open and has handled nothing |
| McpRoute.Transport.HandleRequest | server/routes/mcp.ts:321 | the transport has handled the body, and nothing else changes |
| McpRoute.Transport.Close | server/routes/mcp.ts:313 | the transport is closed, and nothing else changes |
| McpRoute.Server.constructor | server/routes/mcp.ts:4-17 | a new server carries its name and version, has nothing registered and is unconnected and open |
| McpRoute.Server.RegisterResource | server/routes/mcp.ts:20-71 | the resource is appended; tools, prompts and connection are unchanged |
| McpRoute.Server.RegisterTool | server/routes/mcp.ts:74-158 | the tool is appended; the rest is unchanged |
| McpRoute.Server.RegisterPrompt | server/routes/mcp.ts:161-295 | the prompt is appended; the rest is unchanged |
| McpRoute.Server.Connect | server/routes/mcp.ts:317 | the server is connected to the transport; registrations are unchanged |
| McpRoute.Server.Close | server/routes/mcp.ts:314 | the server is closed; registrations and connection are unchanged |
| McpRoute.CreateServer | server/routes/mcp.ts:4-298 | a fresh unconnected server named `mcp-starter-server` 1.0.0 with the two resources, three tools and two prompts in order |
| McpRoute.RegistrationsWellFormed | server/routes/mcp.ts:20-295 | names are distinct within each kind, and every tool is read-only and non-destructive |
| McpRoute.HttpEvent.constructor | server/routes/mcp.ts:300 | a new event carries its accept header and body, with an empty log and no close listener |
| McpRoute.HandleEvent | server/routes/mcp.ts:300-322 | an HTML client is redirected to the docs and nothing is created; otherwise a fresh server with all its resources, tools and prompts, connected to a fresh sessionless transport, the cleanup attached before connecting, and the body handled once |
| McpRoute.ResponseClosed | server/routes/mcp.ts:312-315 | the listener closes the transport and then the server; their registrations, connection, handled bodies and sessionless flag stay as they were |
| McpRoute.LifecycleOrder | server/routes/mcp.ts:300-322 | the cleanup is attached before connecting and reading; the body is read before it is handled; the transport closes before the server |
| McpRoute.Exchange | server/routes/mcp.ts:300-322 | a whole request yields the redirect alone, or the served steps followed by the two closes |
| McpRoute.ForwardPatternRevalidates | server/routes/mcp.ts:88-90 | validating the forwarded arguments again gives back the same query |
| McpRoute.RenderPatternAsWritten | server/routes/mcp.ts:95-97 | `code` renders the `code` field; any other format renders the guide from the fields, `undefined` where one is missing |
| McpRoute.GetPatternAsWritten | server/routes/mcp.ts:87-101 | fails exactly when validation fails |
| McpRoute.ExplanationRendersUndefined | server/routes/mcp.ts:95-97 | asking for the explanation yields the guide with `undefined` as its code, not the explanation |
| McpRoute.RenderPattern | server/routes/mcp.ts:95-97 | the corrected renderer: code alone, explanation alone, or the guide, by the answer's shape |
| McpRoute.GetPattern | server/routes/mcp.ts:87-101 | fails exactly when validation fails |
| McpRoute.GetPatternAnswersByFormat | server/routes/mcp.ts:87-101 | with the corrected renderer the tool answers as the toolkit tool does, format by format |
| McpRoute.ForwardProjectRejected | server/routes/mcp.ts:118-120 | the forwarded arguments carry `auth_required` as text, which the endpoint's schema rejects |
| McpRoute.ForwardProjectRevalidates | server/routes/mcp.ts:118-120 | under the corrected schema, the forwarded text validates back to the same query |
| McpRoute.NumberedSteps | server/routes/mcp.ts:125 | every numbered step appears in the list |
| McpRoute.RenderProject | server/routes/mcp.ts:125 | the text starts with the title and ends with the code |
| McpRoute.NumberedNextSteps | server/routes/mcp.ts:125 | the endpoint's five steps, numbered, are the toolkit tool's step list |
| McpRoute.CreateProjectAsWritten | server/routes/mcp.ts:117-129 | invalid arguments give their own failure; every valid call fails with the endpoint's rejection of `auth_required` |
| McpRoute.CreateProjectRejectsValidCall | server/routes/mcp.ts:117-129 | the minimal call `{ data_source: 'api', use_case: u }` validates, yet the tool fails |
| McpRoute.CreateProject | server/routes/mcp.ts:117-129 | the corrected tool (the endpoint reads the text boolean) fails exactly when validation fails |
| McpRoute.CreateProjectMatchesToolHeader | server/routes/mcp.ts:117-129 | with the corrected endpoint the text is the toolkit tool's title and details followed by the endpoint's code, for the requested auth flag |
| McpRoute.ForwardDebugRevalidates | server/routes/mcp.ts:146-148 | validating the forwarded arguments again gives back the same query |
| McpRoute.RenderDebug | server/routes/mcp.ts:153 | the diagnosis heading, the error line, every solution and every resource as a bullet |
| McpRoute.DebugSetup | server/routes/mcp.ts:145-157 | fails exactly when validation fails |
| McpRoute.DebugSetupAnswer | server/routes/mcp.ts:145-157 | the answer lists the endpoint's four resources as bullets and carries the message, or the default |

## Left out

- Network and runtime: HTTP itself, `$fetch`, `readBody`, `sendRedirect`, the
  Nuxt Content database and the MCP SDK's internals. The collections are
  parameters. The server and the transport are modelled only by the state
  the route changes on them.
- Cache storage. `maxAge` values are constants, and `getKey` is a function
  of the raw query. The properties say when two requests share a key.
- Concurrency. Each request is one sequential run; interleavings and the
  timing of the `close` event are not modelled.
- Unicode case mapping: `toLowerCase` and `toUpperCase` fold ASCII letters
  only. `\s` is JavaScript's full whitespace class (`Text.IsWhitespace`).
- UTF-16: JavaScript strings count UTF-16 code units, and a Dafny `char` is
  a Unicode scalar value. Outside the Basic Multilingual Plane, the
  `slice(0, 300)` snippets (`get-code.get.ts:87`), the `slice(0, 500)`
  excerpts (`get-documentation.get.ts:82`) and `charAt(0)`/`slice(1)` in the
  capitalised use case (`create-nuxt-project.get.ts:76`) count differently.
  JavaScript can also cut a surrogate pair in half there; the model cannot.
- Long fixed texts are opaque constants: the pattern code and explanations,
  the debug solutions and the fixed parts of the generated code. The model
  says where they go, not what they say.
- The prompts' message texts and the resources' JSON. The route registers
  them (names, titles and argument schemas are modelled). Their text is not
  part of this model, and neither are `server/mcp/prompts/` and
  `server/mcp/resources/`.
- zod reports one failing field (`Invalid(field)`), not the full list of
  issues.
- Collection items carry their front-matter fields as plain strings.
- Query-string encoding: each forwarded value is modelled as the text the
  query string carries (a boolean becomes `true` or `false`). Percent-encoding
  and repeated keys are not modelled. `getQuery` hands the endpoint that text
  unchanged. So as written the endpoint's auth branch is never reached over
  HTTP (`ProjectApi.QueryStringNeverAuth`).
- McpRoute.RenderPatternAsWritten: with format `code`, the endpoint always
  sends `code`. The case where it is missing (`undefined`) cannot arise and
  is not stated separately.
- GetCode.CorrectedKeySound: covers requests without a file path only. A
  `-` inside a path makes any dash-joined key ambiguous.
- GetDocumentation.CorrectedKeySound: covers requests without a section
  only, for the same reason.
- PatternApi.Handle: a key outside the table is looked up only among the
  table's own keys. JavaScript's `PATTERNS[p]` also finds inherited
  `Object.prototype` members such as `toString`, which the source would not
  answer with 404. Validation keeps every such name away from the handler
  (`PatternApi.NotFoundUnreachable`).
- DebugApi.Handle: the same holds for `DEBUG_SOLUTIONS[issue]`
  (`DebugApi.NotFoundUnreachable`).
- PatternTool.Handle: the same holds for the toolkit tool's `PATTERNS[pattern]`.
- DebugTool.Handle: the same holds for the toolkit tool's `DEBUG_SOLUTIONS[issue]`.
- ProjectApi.Fetch: `dataFetching[dataSource]` for an inherited key such as
  `constructor` is not `undefined` in JavaScript. The model states
  `undefined` for every key outside the table. Validation admits only the
  four sources.
- ProjectTool.Fetch: the same holds for the toolkit tool's `dataFetching`.
- Boilerplate.TypeScriptResource: states where the description goes, not
  the opaque text around it. The same holds for
  Boilerplate.TypeScriptPrompt and Boilerplate.TypeScriptTool.

## Findings

| source | as written | input that shows it | evidently intended | confidence | as-written member | corrected member |
|---|---|---|---|---|---|---|
| server/api/mcp/get-code.get.ts:95 | `search_pattern \|\| 'list'` in the key | `?search_pattern=list` after a plain listing (or the reverse) | a search never shares a key with list mode | not executed | GetCode.ListSearchCollide | GetCode.CorrectedKeySound |
| server/api/mcp/get-documentation.get.ts:90 | `search_query \|\| 'list'` in the key | `?search_query=list` after a plain listing | a search never shares a key with list mode | not executed | GetDocumentation.ListSearchCollide | GetDocumentation.CorrectedKeySound |
| server/api/mcp/debug-setup.get.ts:127 | the key holds only the issue | `?issue=general` then `?issue=general&error_message=boom` | the echoed message belongs to the request | not executed | DebugApi.CacheKeyIgnoresMessage | DebugApi.CorrectedKeySound |
| server/api/mcp/generate-mcp-boilerplate.get.ts:53 | the key holds type and format, not the description | two `type=tool` requests with different descriptions | each description gets its own code | not executed | Boilerplate.CacheKeyIgnoresDescription | Boilerplate.CorrectedKeySound |
| server/routes/mcp.ts:118-120 | `$fetch(…, { query: args })` sends `auth_required` as text, and the endpoint's `z.boolean()` (schemas.ts:13) rejects text | `create_nuxt_project` with `{ data_source: 'api', use_case: 'recipe API' }`: the default fills in `auth_required: false`, which arrives as `false` | a valid call generates the project, with the requested auth | not executed | McpRoute.CreateProjectRejectsValidCall | McpRoute.CreateProjectMatchesToolHeader |
| server/routes/mcp.ts:95-97 | only `code` is special-cased | `get_pattern` with `format: 'explanation'` | the explanation alone, as the toolkit tool answers | not executed | McpRoute.ExplanationRendersUndefined | McpRoute.GetPatternAnswersByFormat |
