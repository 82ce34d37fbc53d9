/** The shared input schemas of server/utils/schemas.ts as parsers from a raw
    object to a validated record; each enum is a constant list. */
module Schemas {
  import opened Wrappers
  import opened Js
  import Zod

  const PatternNames: seq<string> :=
    ["list-search", "caching", "validation", "error-handling", "pagination", "auth"]
  const PatternFormats: seq<string> := ["code", "explanation", "both"]
  const DataSources: seq<string> := ["api", "database", "file", "custom"]
  const IssueNames: seq<string> :=
    ["tools-not-showing", "cors-error", "schema-validation", "transport-setup", "general"]

  /** `GetPatternSchema` after parsing: `format` is filled in. */
  datatype PatternQuery = PatternQuery(pattern: string, format: string)

  /** `CreateProjectSchema` after parsing: `auth_required` is filled in. */
  datatype ProjectQuery = ProjectQuery(dataSource: string, useCase: string, authRequired: bool)

  /** `DebugSetupSchema` after parsing. */
  datatype DebugQuery = DebugQuery(issue: string, errorMessage: Option<string>)

  predicate IsPatternQuery(q: PatternQuery)
  {
    q.pattern in PatternNames && q.format in PatternFormats
  }

  function ParsePatternQuery(raw: RawQuery): (r: Result<PatternQuery, Failure>)
    ensures r.Ok? ==> IsPatternQuery(r.value)
    ensures r.Ok? <==> (exists p :: Get(raw, "pattern") == Some(JString(p)) && p in PatternNames)
                       && (Get(raw, "format").None?
                           || exists f :: Get(raw, "format") == Some(JString(f)) && f in PatternFormats)
    ensures r.Ok? && Get(raw, "format").None? ==> r.value.format == "both"
    ensures forall f :: r.Ok? && Get(raw, "format") == Some(JString(f)) ==> r.value.format == f
    ensures forall p :: r.Ok? && Get(raw, "pattern") == Some(JString(p)) ==> r.value.pattern == p
  {
    match Zod.RequiredEnum(raw, "pattern", PatternNames)
    case Err(e) => Err(e)
    case Ok(pattern) =>
      match Zod.EnumOrDefault(raw, "format", PatternFormats, "both")
      case Err(e) => Err(e)
      case Ok(format) => Ok(PatternQuery(pattern, format))
  }

  function ParseProjectQuery(raw: RawQuery): (r: Result<ProjectQuery, Failure>)
    ensures r.Ok? ==> r.value.dataSource in DataSources
    ensures r.Ok? <==> (exists d :: Get(raw, "data_source") == Some(JString(d)) && d in DataSources)
                       && (exists u :: Get(raw, "use_case") == Some(JString(u)))
                       && (Get(raw, "auth_required").None?
                           || exists b :: Get(raw, "auth_required") == Some(JBool(b)))
    ensures r.Ok? ==> Get(raw, "use_case") == Some(JString(r.value.useCase))
    ensures r.Ok? && Get(raw, "auth_required").None? ==> !r.value.authRequired
    ensures forall b :: r.Ok? && Get(raw, "auth_required") == Some(JBool(b)) ==> r.value.authRequired == b
  {
    match Zod.RequiredEnum(raw, "data_source", DataSources)
    case Err(e) => Err(e)
    case Ok(dataSource) =>
      match Zod.RequiredString(raw, "use_case")
      case Err(e) => Err(e)
      case Ok(useCase) =>
        match Zod.BoolOrDefault(raw, "auth_required", false)
        case Err(e) => Err(e)
        case Ok(auth) => Ok(ProjectQuery(dataSource, useCase, auth))
  }

  /** The corrected `CreateProjectSchema` for the query string: as
      `ParseProjectQuery`, but `auth_required` may also be the text a
      serialised boolean becomes. */
  function ParseProjectQueryString(raw: RawQuery): (r: Result<ProjectQuery, Failure>)
    ensures r.Ok? ==> r.value.dataSource in DataSources
    ensures ParseProjectQuery(raw).Ok? ==> r == ParseProjectQuery(raw)
    ensures forall b :: Get(raw, "auth_required") == Some(JString(BoolText(b))) ==>
              (r.Ok? <==> (exists d :: Get(raw, "data_source") == Some(JString(d)) && d in DataSources)
                          && (exists u :: Get(raw, "use_case") == Some(JString(u))))
              && (r.Ok? ==> r.value.authRequired == b && Get(raw, "use_case") == Some(JString(r.value.useCase)))
  {
    match Zod.RequiredEnum(raw, "data_source", DataSources)
    case Err(e) => Err(e)
    case Ok(dataSource) =>
      match Zod.RequiredString(raw, "use_case")
      case Err(e) => Err(e)
      case Ok(useCase) =>
        match Zod.BoolTextOrDefault(raw, "auth_required", false)
        case Err(e) => Err(e)
        case Ok(auth) => Ok(ProjectQuery(dataSource, useCase, auth))
  }

  function ParseDebugQuery(raw: RawQuery): (r: Result<DebugQuery, Failure>)
    ensures r.Ok? ==> r.value.issue in IssueNames
    ensures r.Ok? <==> (exists i :: Get(raw, "issue") == Some(JString(i)) && i in IssueNames)
                       && (Get(raw, "error_message").None?
                           || exists m :: Get(raw, "error_message") == Some(JString(m)))
    ensures r.Ok? ==> Get(raw, "issue") == Some(JString(r.value.issue))
    ensures r.Ok? ==> (r.value.errorMessage.None? <==> Get(raw, "error_message").None?)
    ensures forall m :: r.Ok? && Get(raw, "error_message") == Some(JString(m)) ==> r.value.errorMessage == Some(m)
  {
    match Zod.RequiredEnum(raw, "issue", IssueNames)
    case Err(e) => Err(e)
    case Ok(issue) =>
      match Zod.OptionalString(raw, "error_message")
      case Err(e) => Err(e)
      case Ok(message) => Ok(DebugQuery(issue, message))
  }

  /** `ScaffoldApiPromptSchema`: exactly one required string. */
  function ParseScaffoldApiPrompt(raw: RawQuery): (r: Result<string, Failure>)
    ensures r.Ok? <==> exists d :: Get(raw, "api_description") == Some(JString(d))
    ensures r.Ok? ==> Get(raw, "api_description") == Some(JString(r.value))
  {
    Zod.RequiredString(raw, "api_description")
  }

  /** `AddToolPromptSchema`: exactly one required string. */
  function ParseAddToolPrompt(raw: RawQuery): (r: Result<string, Failure>)
    ensures r.Ok? <==> exists t :: Get(raw, "tool_purpose") == Some(JString(t))
    ensures r.Ok? ==> Get(raw, "tool_purpose") == Some(JString(r.value))
  {
    Zod.RequiredString(raw, "tool_purpose")
  }

  /** An empty object is rejected by every schema with a required field. */
  lemma EmptyObjectRejected()
    ensures ParsePatternQuery(map[]).Err? && ParseProjectQuery(map[]).Err?
    ensures ParseDebugQuery(map[]).Err?
    ensures ParseScaffoldApiPrompt(map[]).Err? && ParseAddToolPrompt(map[]).Err?
  {
  }

  /** A pattern query that names only the pattern gets format `both`, and a
      string `auth_required` such as "true" is rejected: zod does not coerce. */
  lemma DefaultsOnlyWhenAbsent(p: string)
    requires p in PatternNames
    ensures ParsePatternQuery(map["pattern" := JString(p)]) == Ok(PatternQuery(p, "both"))
    ensures ParseProjectQuery(map["data_source" := JString("api"), "use_case" := JString(p),
                                  "auth_required" := JString("true")]).Err?
    ensures ParseProjectQuery(map["data_source" := JString("api"), "use_case" := JString(p)])
            == Ok(ProjectQuery("api", p, false))
  {
  }
}
