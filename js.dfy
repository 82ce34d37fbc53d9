/** The JavaScript and h3 semantics every handler leans on: the values a
    query or tool call carries, truthiness, `||` defaults, template-literal
    interpolation, thrown HTTP errors and the shape of an MCP tool result. */
module Js {
  import opened Wrappers
  import Text

  /** A value as it reaches a handler in a query object or tool arguments. */
  datatype Json = JString(s: string) | JBool(b: bool) | JNumber(n: int) | JNull

  /** A raw query object; a key that is not in the map is `undefined`. */
  type RawQuery = map<string, Json>

  function Get(q: RawQuery, key: string): Option<Json>
  {
    if key in q then Some(q[key]) else None
  }

  /** JavaScript truthiness of a possibly `undefined` value. */
  predicate Truthy(v: Option<Json>)
  {
    match v
    case None => false
    case Some(JString(s)) => s != ""
    case Some(JBool(b)) => b
    case Some(JNumber(n)) => n != 0
    case Some(JNull) => false
  }

  /** Truthiness of an optional string after validation: `undefined` and `''` are falsy. */
  predicate Present(v: Option<string>)
  {
    v.Some? && v.value != ""
  }

  function BoolText(b: bool): string
  {
    if b then "true" else "false"
  }

  /** `${v}` in a template literal. */
  function Interpolate(v: Option<Json>): string
  {
    match v
    case None => "undefined"
    case Some(JString(s)) => s
    case Some(JBool(b)) => BoolText(b)
    case Some(JNumber(n)) => Text.IntToString(n)
    case Some(JNull) => "null"
  }

  /** `${v || fallback}` in a template literal. */
  function InterpolateOr(v: Option<Json>, fallback: string): string
  {
    if Truthy(v) then Interpolate(v) else fallback
  }

  /** `${s}` for a property that may be missing from an object. */
  function InterpolateString(s: Option<string>): string
  {
    match s
    case None => "undefined"
    case Some(t) => t
  }

  /** Why a request fails: a schema rejected a field (h3 answers 400 before
      the handler runs), or the handler threw `createError`. */
  datatype Failure =
    | Invalid(field: string)
    | HttpError(statusCode: nat, message: string)

  /** One `{ type: 'text', text }` item of an MCP tool result. */
  datatype TextContent = TextContent(text: string)

  /** The `{ content, isError }` object an MCP tool handler returns. */
  datatype ToolResult = ToolResult(content: seq<TextContent>, isError: bool)

  function TextResult(text: string): ToolResult
  {
    ToolResult([TextContent(text)], false)
  }

  function ErrorResult(text: string): ToolResult
  {
    ToolResult([TextContent(text)], true)
  }

  /** The response mode of a list/get/search handler, chosen once per request. */
  datatype Mode = ListMode | GetMode(key: string) | SearchMode(query: string)

  /** The dispatch rule: a present key wins, then a present query, else list. */
  function SelectMode(key: Option<string>, query: Option<string>): Mode
  {
    if Present(key) then GetMode(key.value)
    else if Present(query) then SearchMode(query.value)
    else ListMode
  }
}
