/** The `/mcp` route (server/routes/mcp.ts): `createServer` registers the
    server's resources, tools and prompts; the default handler runs one
    request through a fresh server and transport; three tools forward their
    validated arguments to the HTTP endpoints and render the JSON answer as
    text. The SDK objects are modelled by the state the route changes on
    them, and the request by an event that records each step. */
module McpRoute {
  import opened Wrappers
  import opened Js
  import Text
  import Schemas
  import Templates
  import PatternApi
  import PatternTool
  import ProjectApi
  import ProjectTool
  import DebugApi

  // ---------------------------------------------------------------------
  // createServer

  datatype Annotations = Annotations(readOnly: bool, destructive: bool, idempotent: bool, openWorld: bool)

  datatype ResourceInfo = ResourceInfo(name: string, uri: string, title: string)
  datatype ToolInfo = ToolInfo(name: string, title: string, annotations: Annotations)
  datatype PromptInfo = PromptInfo(name: string, title: string)

  /** A transport created with `sessionIdGenerator: undefined`. */
  class Transport {
    var sessionless: bool
    var closed: bool
    var handled: seq<string>

    constructor ()
      ensures sessionless && !closed && handled == []
    {
      sessionless := true;
      closed := false;
      handled := [];
    }

    /** `transport.handleRequest(req, res, body)`. */
    method HandleRequest(body: string)
      modifies this
      ensures handled == old(handled) + [body]
      ensures sessionless == old(sessionless) && closed == old(closed)
    {
      handled := handled + [body];
    }

    method Close()
      modifies this
      ensures closed
      ensures sessionless == old(sessionless) && handled == old(handled)
    {
      closed := true;
    }
  }

  /** An MCP server: its identity, what has been registered on it, the
      transport it is connected to and whether it has been closed. */
  class Server {
    const name: string
    const version: string
    var resources: seq<ResourceInfo>
    var tools: seq<ToolInfo>
    var prompts: seq<PromptInfo>
    var transport: Option<Transport>
    var closed: bool

    constructor (name: string, version: string)
      ensures this.name == name && this.version == version
      ensures resources == [] && tools == [] && prompts == []
      ensures transport == None && !closed
    {
      this.name := name;
      this.version := version;
      resources := [];
      tools := [];
      prompts := [];
      transport := None;
      closed := false;
    }

    method RegisterResource(r: ResourceInfo)
      modifies this
      ensures resources == old(resources) + [r]
      ensures tools == old(tools) && prompts == old(prompts)
      ensures transport == old(transport) && closed == old(closed)
    {
      resources := resources + [r];
    }

    method RegisterTool(t: ToolInfo)
      modifies this
      ensures tools == old(tools) + [t]
      ensures resources == old(resources) && prompts == old(prompts)
      ensures transport == old(transport) && closed == old(closed)
    {
      tools := tools + [t];
    }

    method RegisterPrompt(p: PromptInfo)
      modifies this
      ensures prompts == old(prompts) + [p]
      ensures resources == old(resources) && tools == old(tools)
      ensures transport == old(transport) && closed == old(closed)
    {
      prompts := prompts + [p];
    }

    /** `server.connect(transport)`. */
    method Connect(t: Transport)
      modifies this
      ensures transport == Some(t)
      ensures resources == old(resources) && tools == old(tools) && prompts == old(prompts)
      ensures closed == old(closed)
    {
      transport := Some(t);
    }

    method Close()
      modifies this
      ensures closed
      ensures resources == old(resources) && tools == old(tools) && prompts == old(prompts)
      ensures transport == old(transport)
    {
      closed := true;
    }
  }

  const ServerName: string := "mcp-starter-server"
  const ServerVersion: string := "1.0.0"

  /** Every tool the route registers is read-only, non-destructive,
      idempotent and closed-world. */
  const QueryOnly: Annotations := Annotations(true, false, true, false)

  const ServerResources: seq<ResourceInfo> := [
    ResourceInfo("patterns", "resource://nuxt-mcp-starter/patterns", "MCP Patterns Index"),
    ResourceInfo("examples", "resource://nuxt-mcp-starter/examples", "Example Projects")
  ]

  const ServerTools: seq<ToolInfo> := [
    ToolInfo("get_pattern", "Get MCP Pattern", QueryOnly),
    ToolInfo("create_nuxt_project", "Create Nuxt MCP Project", QueryOnly),
    ToolInfo("debug_setup", "Debug MCP Setup", QueryOnly)
  ]

  const ServerPrompts: seq<PromptInfo> := [
    PromptInfo("scaffold_for_api", "Scaffold MCP for API"),
    PromptInfo("add_tool", "Add Tool to MCP Server")
  ]

  /** `createServer`: a fresh, unconnected server with two resources, three
      tools and two prompts registered in source order. */
  method CreateServer() returns (server: Server)
    ensures fresh(server)
    ensures server.name == ServerName && server.version == ServerVersion
    ensures server.resources == ServerResources
    ensures server.tools == ServerTools
    ensures server.prompts == ServerPrompts
    ensures server.transport == None && !server.closed
  {
    server := new Server(ServerName, ServerVersion);
    server.RegisterResource(ServerResources[0]);
    server.RegisterResource(ServerResources[1]);
    server.RegisterTool(ServerTools[0]);
    server.RegisterTool(ServerTools[1]);
    server.RegisterTool(ServerTools[2]);
    server.RegisterPrompt(ServerPrompts[0]);
    server.RegisterPrompt(ServerPrompts[1]);
  }

  predicate DistinctNames(names: seq<string>)
  {
    forall i, j :: 0 <= i < j < |names| ==> names[i] != names[j]
  }

  /** The names of a list of registrations. */
  function Names<T>(xs: seq<T>, name: T -> string): seq<string>
  {
    seq(|xs|, i requires 0 <= i < |xs| => name(xs[i]))
  }

  /** The names within each kind are distinct, and no tool may change anything. */
  lemma RegistrationsWellFormed()
    ensures |ServerResources| == 2 && |ServerTools| == 3 && |ServerPrompts| == 2
    ensures DistinctNames(Names(ServerResources, (r: ResourceInfo) => r.name))
    ensures DistinctNames(Names(ServerTools, (t: ToolInfo) => t.name))
    ensures DistinctNames(Names(ServerPrompts, (p: PromptInfo) => p.name))
    ensures forall t :: t in ServerTools ==> t.annotations.readOnly && !t.annotations.destructive
  {
  }

  // ---------------------------------------------------------------------
  // The default event handler

  /** What the route does, in the order it does it. */
  datatype Step =
    | Redirected(location: string)
    | ServerCreated
    | TransportCreated
    | CloseListenerAdded
    | Connected
    | BodyRead
    | RequestHandled(body: string)
    | TransportClosed
    | ServerClosed

  /** The `close` listener: the transport and the server it shuts down. */
  datatype Cleanup = Cleanup(transport: Transport, server: Server)

  /** One HTTP request: its `Accept` header, the body `readBody` yields, the
      steps taken so far and the `close` listener on its response. */
  class HttpEvent {
    const accept: Option<string>
    const body: string
    var log: seq<Step>
    var closeListener: Option<Cleanup>

    constructor (accept: Option<string>, body: string)
      ensures this.accept == accept && this.body == body
      ensures log == [] && closeListener == None
    {
      this.accept := accept;
      this.body := body;
      log := [];
      closeListener := None;
    }
  }

  /** `getHeader(event, 'accept')?.includes('text/html')`. */
  predicate WantsHtml(accept: Option<string>)
  {
    accept.Some? && Text.Includes(accept.value, "text/html")
  }

  const DocsLocation: string := "/docs/guide/ai/mcp"

  /** What the handler ends with: a redirect, or the server and transport it served with. */
  datatype Outcome = Redirect(location: string) | Served(server: Server, transport: Transport)

  /** The steps of a served request, in order. */
  function ServeSteps(body: string): seq<Step>
  {
    [ServerCreated, TransportCreated, CloseListenerAdded, Connected, BodyRead, RequestHandled(body)]
  }

  /** The default handler. A browser is sent to the docs and nothing is
      created; any other request gets a fresh server and a fresh sessionless
      transport, the cleanup listener is attached before the server is
      connected, and the transport handles the body that was read. */
  method HandleEvent(ev: HttpEvent) returns (outcome: Outcome)
    requires ev.closeListener == None
    modifies ev
    ensures WantsHtml(ev.accept) ==> outcome == Redirect(DocsLocation)
    ensures WantsHtml(ev.accept) ==> ev.log == old(ev.log) + [Redirected(DocsLocation)] && ev.closeListener == None
    ensures !WantsHtml(ev.accept) ==>
              && outcome.Served?
              && fresh(outcome.server) && fresh(outcome.transport)
              && ev.log == old(ev.log) + ServeSteps(ev.body)
              && ev.closeListener == Some(Cleanup(outcome.transport, outcome.server))
              && outcome.server.transport == Some(outcome.transport)
              && outcome.server.resources == ServerResources
              && outcome.server.tools == ServerTools
              && outcome.server.prompts == ServerPrompts
              && !outcome.server.closed
              && outcome.transport.sessionless && !outcome.transport.closed
              && outcome.transport.handled == [ev.body]
  {
    if WantsHtml(ev.accept) {
      ev.log := ev.log + [Redirected(DocsLocation)];
      return Redirect(DocsLocation);
    }
    var server := CreateServer();
    ev.log := ev.log + [ServerCreated];
    var transport := new Transport();
    ev.log := ev.log + [TransportCreated];
    ev.closeListener := Some(Cleanup(transport, server));
    ev.log := ev.log + [CloseListenerAdded];
    server.Connect(transport);
    ev.log := ev.log + [Connected];
    var body := ev.body;
    ev.log := ev.log + [BodyRead];
    transport.HandleRequest(body);
    ev.log := ev.log + [RequestHandled(body)];
    outcome := Served(server, transport);
  }

  /** The objects the `close` listener may change. */
  function ListenerObjects(ev: HttpEvent): set<object>
    reads ev
  {
    match ev.closeListener
    case None => {}
    case Some(c) => {c.transport, c.server}
  }

  /** The response's `close` event: the listener, if any, closes the
      transport and then the server. */
  method ResponseClosed(ev: HttpEvent)
    modifies ev, ListenerObjects(ev)
    ensures ev.closeListener == old(ev.closeListener)
    ensures ev.closeListener == None ==> ev.log == old(ev.log)
    ensures ev.closeListener.Some? ==>
              && ev.log == old(ev.log) + [TransportClosed, ServerClosed]
              && ev.closeListener.value.transport.closed
              && ev.closeListener.value.server.closed
              && ev.closeListener.value.transport.handled == old(ev.closeListener.value.transport.handled)
              && ev.closeListener.value.transport.sessionless == old(ev.closeListener.value.transport.sessionless)
              && ev.closeListener.value.server.resources == old(ev.closeListener.value.server.resources)
              && ev.closeListener.value.server.tools == old(ev.closeListener.value.server.tools)
              && ev.closeListener.value.server.prompts == old(ev.closeListener.value.server.prompts)
              && ev.closeListener.value.server.transport == old(ev.closeListener.value.server.transport)
  {
    match ev.closeListener
    case None =>
    case Some(c) =>
      c.transport.Close();
      ev.log := ev.log + [TransportClosed];
      c.server.Close();
      ev.log := ev.log + [ServerClosed];
  }

  /** `a` is logged before `b`. */
  predicate Before(log: seq<Step>, a: Step, b: Step)
  {
    exists i, j :: 0 <= i < j < |log| && log[i] == a && log[j] == b
  }

  /** The order the route promises over a whole request: the cleanup is in
      place before the server connects and before the body is read, the body
      is read before it is handled, and the transport closes before the server. */
  lemma {:induction false} LifecycleOrder(body: string)
    ensures var log := ServeSteps(body) + [TransportClosed, ServerClosed];
            && Before(log, CloseListenerAdded, Connected)
            && Before(log, CloseListenerAdded, BodyRead)
            && Before(log, Connected, BodyRead)
            && Before(log, BodyRead, RequestHandled(body))
            && Before(log, TransportClosed, ServerClosed)
            && !Before(log, ServerClosed, TransportClosed)
  {
    var log := ServeSteps(body) + [TransportClosed, ServerClosed];
    assert log[2] == CloseListenerAdded && log[3] == Connected && log[4] == BodyRead;
    assert log[5] == RequestHandled(body) && log[6] == TransportClosed && log[7] == ServerClosed;
  }

  /** A whole exchange: the handler, then the response's `close` event. */
  method Exchange(accept: Option<string>, body: string) returns (log: seq<Step>)
    ensures WantsHtml(accept) ==> log == [Redirected(DocsLocation)]
    ensures !WantsHtml(accept) ==> log == ServeSteps(body) + [TransportClosed, ServerClosed]
  {
    var ev := new HttpEvent(accept, body);
    var outcome := HandleEvent(ev);
    ResponseClosed(ev);
    log := ev.log;
  }

  // ---------------------------------------------------------------------
  // The tool renderers

  /** The validated arguments as the tool passes them on in `$fetch(…, { query: args })`. */
  function ForwardPattern(q: Schemas.PatternQuery): RawQuery
  {
    map["pattern" := JString(q.pattern), "format" := JString(q.format)]
  }

  /** Validating the forwarded arguments again gives back the same query. */
  lemma ForwardPatternRevalidates(q: Schemas.PatternQuery)
    requires Schemas.IsPatternQuery(q)
    ensures Schemas.ParsePatternQuery(ForwardPattern(q)) == Ok(q)
  {
    var raw := ForwardPattern(q);
    assert Get(raw, "pattern") == Some(JString(q.pattern));
    assert Get(raw, "format") == Some(JString(q.format));
  }

  /** `data.code` and `data.explanation` of the endpoint's JSON: a field the
      chosen shape lacks is `undefined`. */
  function CodeField(data: PatternApi.PatternResponse): Option<string>
  {
    match data
    case CodeOnly(_, code) => Some(code)
    case ExplanationOnly(_, _) => None
    case Both(_, code, _) => Some(code)
  }

  function ExplanationField(data: PatternApi.PatternResponse): Option<string>
  {
    match data
    case CodeOnly(_, _) => None
    case ExplanationOnly(_, explanation) => Some(explanation)
    case Both(_, _, explanation) => Some(explanation)
  }

  /** The `get_pattern` text as written: `data.code` for `code`, and the
      combined guide for every other format. */
  function RenderPatternAsWritten(format: string, data: PatternApi.PatternResponse): (text: string)
    ensures format == "code" ==> text == InterpolateString(CodeField(data))
    ensures format != "code" ==>
              text == PatternTool.Guide(data.pattern,
                        PatternTool.PatternEntry(InterpolateString(CodeField(data)), InterpolateString(ExplanationField(data))))
  {
    if format == "code" then InterpolateString(CodeField(data))
    else "# " + data.pattern + "\n\n" + InterpolateString(ExplanationField(data))
         + PatternTool.ImplementationHeading + InterpolateString(CodeField(data)) + PatternTool.FenceEnd
  }

  /** The `get_pattern` tool as written: validate, forward, render. */
  function GetPatternAsWritten(args: RawQuery): (r: Result<ToolResult, Failure>)
    ensures r.Err? <==> Schemas.ParsePatternQuery(args).Err?
  {
    match Schemas.ParsePatternQuery(args)
    case Err(e) => Err(e)
    case Ok(q) =>
      ForwardPatternRevalidates(q);
      match PatternApi.Serve(ForwardPattern(q))
      case Err(e) => Err(e)
      case Ok(data) => Ok(TextResult(RenderPatternAsWritten(q.format, data)))
  }

  /** As written, asking for the explanation yields the whole guide with
      `undefined` in the code fence, since the endpoint's answer for that
      format carries no code. */
  lemma ExplanationRendersUndefined(p: string)
    requires p in Schemas.PatternNames
    ensures var text := GetPatternAsWritten(map["pattern" := JString(p), "format" := JString("explanation")]).value.content[0].text;
            var e := PatternApi.Patterns[IndexOfPattern(p)].1;
            && text == PatternTool.Guide(p, PatternTool.PatternEntry("undefined", e.explanation))
            && text != e.explanation
  {
    var q := Schemas.PatternQuery(p, "explanation");
    var args := map["pattern" := JString(p), "format" := JString("explanation")];
    assert Get(args, "pattern") == Some(JString(p));
    assert Get(args, "format") == Some(JString("explanation"));
    assert Schemas.ParsePatternQuery(args) == Ok(q);
    ForwardPatternRevalidates(q);
    var e := PatternApi.Patterns[IndexOfPattern(p)].1;
    assert (p, e) in PatternApi.Patterns;
    assert PatternApi.Serve(ForwardPattern(q)) == Ok(PatternApi.ExplanationOnly(p, e.explanation));
  }

  /** The table position of a pattern name. */
  function IndexOfPattern(p: string): (i: nat)
    requires p in Schemas.PatternNames
    ensures i < |PatternApi.Patterns| && PatternApi.Patterns[i].0 == p
  {
    PatternApi.PatternKeysMatchSchema();
    if p == "list-search" then 0
    else if p == "caching" then 1
    else if p == "validation" then 2
    else if p == "error-handling" then 3
    else if p == "pagination" then 4
    else 5
  }

  /** The corrected `get_pattern` text: each shape the endpoint returns is
      rendered from the fields it has. */
  function RenderPattern(data: PatternApi.PatternResponse): (text: string)
    ensures data.CodeOnly? ==> text == data.code
    ensures data.ExplanationOnly? ==> text == data.explanation
    ensures data.Both? ==> text == PatternTool.Guide(data.pattern, PatternTool.PatternEntry(data.code, data.explanation))
  {
    match data
    case CodeOnly(_, code) => code
    case ExplanationOnly(_, explanation) => explanation
    case Both(pattern, code, explanation) => PatternTool.Guide(pattern, PatternTool.PatternEntry(code, explanation))
  }

  /** The corrected `get_pattern` tool. */
  function GetPattern(args: RawQuery): (r: Result<ToolResult, Failure>)
    ensures r.Err? <==> Schemas.ParsePatternQuery(args).Err?
  {
    match Schemas.ParsePatternQuery(args)
    case Err(e) => Err(e)
    case Ok(q) =>
      ForwardPatternRevalidates(q);
      match PatternApi.Serve(ForwardPattern(q))
      case Err(e) => Err(e)
      case Ok(data) => Ok(TextResult(RenderPattern(data)))
  }

  /** With the corrected renderer the route answers as the toolkit tool does,
      format by format, from the endpoint's table entry. */
  lemma GetPatternAnswersByFormat(args: RawQuery)
    requires Schemas.ParsePatternQuery(args).Ok?
    ensures var q := Schemas.ParsePatternQuery(args).value;
            var e := PatternApi.Patterns[IndexOfPattern(q.pattern)].1;
            var text := GetPattern(args).value.content[0].text;
            && (q.format == "code" ==> text == e.code)
            && (q.format == "explanation" ==> text == e.explanation)
            && (q.format == "both" ==> text == PatternTool.Guide(q.pattern, PatternTool.PatternEntry(e.code, e.explanation)))
  {
    var q := Schemas.ParsePatternQuery(args).value;
    ForwardPatternRevalidates(q);
    var e := PatternApi.Patterns[IndexOfPattern(q.pattern)].1;
    assert (q.pattern, e) in PatternApi.Patterns;
  }

  /** The validated arguments of `create_nuxt_project` as the query string
      delivers them: the schema has filled in `auth_required`, and the
      boolean arrives as the text `true` or `false`. */
  function ForwardProject(q: Schemas.ProjectQuery): RawQuery
  {
    map["data_source" := JString(q.dataSource), "use_case" := JString(q.useCase),
        "auth_required" := JString(BoolText(q.authRequired))]
  }

  /** As written, the endpoint's `z.boolean()` rejects the forwarded text. */
  lemma ForwardProjectRejected(q: Schemas.ProjectQuery)
    requires q.dataSource in Schemas.DataSources
    ensures Schemas.ParseProjectQuery(ForwardProject(q)) == Err(Invalid("auth_required"))
  {
    var raw := ForwardProject(q);
    assert Get(raw, "data_source") == Some(JString(q.dataSource));
    assert Get(raw, "use_case") == Some(JString(q.useCase));
    assert Get(raw, "auth_required") == Some(JString(BoolText(q.authRequired)));
  }

  /** With the corrected endpoint schema the forwarded text validates back
      to the same query. */
  lemma ForwardProjectRevalidates(q: Schemas.ProjectQuery)
    requires q.dataSource in Schemas.DataSources
    ensures Schemas.ParseProjectQueryString(ForwardProject(q)) == Ok(q)
    ensures ProjectApi.ServeQueryString(ForwardProject(q)) == Ok(ProjectApi.Handle(q))
  {
    var raw := ForwardProject(q);
    assert Get(raw, "data_source") == Some(JString(q.dataSource));
    assert Get(raw, "use_case") == Some(JString(q.useCase));
    assert Get(raw, "auth_required") == Some(JString(BoolText(q.authRequired)));
  }

  /** The steps list as `next_steps.map((s, i) => `${i + 1}. ${s}`).join('\n')` renders it. */
  function NumberedSteps(steps: seq<string>): (r: string)
    ensures forall k :: 0 <= k < |steps| ==> Text.Includes(r, Text.NatToString(k + 1) + ". " + steps[k])
  {
    var numbered := Templates.Numbered(steps, 0);
    forall k | 0 <= k < |steps|
      ensures Text.Includes(Text.Join(numbered, "\n"), Text.NatToString(k + 1) + ". " + steps[k])
    {
      Text.JoinIncludes(numbered, "\n", k);
    }
    Text.Join(numbered, "\n")
  }

  /** The `create_nuxt_project` text: title, configuration, numbered steps, code. */
  function RenderProject(data: ProjectApi.ProjectResponse): (text: string)
    ensures ProjectTool.Title(data.useCase) <= text
    ensures |text| >= |data.code| && text[|text| - |data.code|..] == data.code
  {
    var head := ProjectTool.Title(data.useCase)
                + ProjectTool.Summary(data.dataSource, data.authRequired, NumberedSteps(data.nextSteps));
    var text := head + data.code;
    assert text[|text| - |data.code|..] == data.code;
    assert ProjectTool.Title(data.useCase) <= head;
    text
  }

  /** The endpoint's five steps, numbered, are the toolkit tool's list. */
  lemma NumberedNextSteps()
    ensures NumberedSteps(ProjectApi.NextSteps) == ProjectTool.NextStepsList
  {
    NumberedLines();
  }

  /** Numbering the endpoint's steps gives the tool's lines. */
  lemma NumberedLines()
    ensures Templates.Numbered(ProjectApi.NextSteps, 0) == ProjectTool.NextStepLines
  {
    NumberedLine0();
    NumberedLine1();
    NumberedLine2();
    NumberedLine3();
    NumberedLine4();
  }

  /** The step numbers as `${i + 1}` renders them. */
  lemma StepNumbers()
    ensures Text.NatToString(1) == "1" && Text.NatToString(2) == "2" && Text.NatToString(3) == "3"
    ensures Text.NatToString(4) == "4" && Text.NatToString(5) == "5"
  {
  }

  /** Line by line: the k-th numbered step is the tool's k-th line, which is
      the k-th step behind its number. */
  lemma NumberedLine0()
    ensures Templates.Numbered(ProjectApi.NextSteps, 0)[0] == ProjectTool.NextStepLines[0]
  {
    StepNumbers();
    LineText0();
    var step := ProjectApi.NextSteps[0];
    assert "1" + ". " + step == "1. " + step;
  }

  lemma LineText0()
    ensures ProjectTool.NextStepLines[0] == "1. " + ProjectApi.NextSteps[0]
  {
  }

  lemma NumberedLine1()
    ensures Templates.Numbered(ProjectApi.NextSteps, 0)[1] == ProjectTool.NextStepLines[1]
  {
    StepNumbers();
    LineText1();
    var step := ProjectApi.NextSteps[1];
    assert "2" + ". " + step == "2. " + step;
  }

  lemma LineText1()
    ensures ProjectTool.NextStepLines[1] == "2. " + ProjectApi.NextSteps[1]
  {
  }

  lemma NumberedLine2()
    ensures Templates.Numbered(ProjectApi.NextSteps, 0)[2] == ProjectTool.NextStepLines[2]
  {
    StepNumbers();
    LineText2();
    var step := ProjectApi.NextSteps[2];
    assert "3" + ". " + step == "3. " + step;
  }

  lemma LineText2()
    ensures ProjectTool.NextStepLines[2] == "3. " + ProjectApi.NextSteps[2]
  {
  }

  lemma NumberedLine3()
    ensures Templates.Numbered(ProjectApi.NextSteps, 0)[3] == ProjectTool.NextStepLines[3]
  {
    StepNumbers();
    LineText3();
    var step := ProjectApi.NextSteps[3];
    assert "4" + ". " + step == "4. " + step;
  }

  lemma LineText3()
    ensures ProjectTool.NextStepLines[3] == "4. " + ProjectApi.NextSteps[3]
  {
  }

  lemma NumberedLine4()
    ensures Templates.Numbered(ProjectApi.NextSteps, 0)[4] == ProjectTool.NextStepLines[4]
  {
    StepNumbers();
    LineText4();
    var step := ProjectApi.NextSteps[4];
    assert "5" + ". " + step == "5. " + step;
  }

  lemma LineText4()
    ensures ProjectTool.NextStepLines[4] == "5. " + ProjectApi.NextSteps[4]
  {
  }

  /** The `create_nuxt_project` tool as written: validate, forward, render.
      The endpoint answers 400 to the forwarded `auth_required`, so `$fetch`
      throws and no call succeeds. */
  function CreateProjectAsWritten(args: RawQuery): (r: Result<ToolResult, Failure>)
    ensures Schemas.ParseProjectQuery(args).Err? ==> r == Err(Schemas.ParseProjectQuery(args).error)
    ensures Schemas.ParseProjectQuery(args).Ok? ==> r == Err(Invalid("auth_required"))
  {
    match Schemas.ParseProjectQuery(args)
    case Err(e) => Err(e)
    case Ok(q) =>
      ForwardProjectRejected(q);
      match ProjectApi.Serve(ForwardProject(q))
      case Err(e) => Err(e)
      case Ok(data) => Ok(TextResult(RenderProject(data)))
  }

  /** The simplest valid call fails as written: the schema's default puts
      `auth_required` into the forwarded query. */
  lemma CreateProjectRejectsValidCall(u: string)
    ensures var args := map["data_source" := JString("api"), "use_case" := JString(u)];
            && Schemas.ParseProjectQuery(args) == Ok(Schemas.ProjectQuery("api", u, false))
            && CreateProjectAsWritten(args) == Err(Invalid("auth_required"))
  {
    var args := map["data_source" := JString("api"), "use_case" := JString(u)];
    assert Get(args, "data_source") == Some(JString("api"));
    assert Get(args, "use_case") == Some(JString(u));
    assert Get(args, "auth_required") == None;
  }

  /** The corrected `create_nuxt_project` tool: the endpoint reads the
      forwarded text boolean. */
  function CreateProject(args: RawQuery): (r: Result<ToolResult, Failure>)
    ensures r.Err? <==> Schemas.ParseProjectQuery(args).Err?
  {
    match Schemas.ParseProjectQuery(args)
    case Err(e) => Err(e)
    case Ok(q) =>
      ForwardProjectRevalidates(q);
      match ProjectApi.ServeQueryString(ForwardProject(q))
      case Err(e) => Err(e)
      case Ok(data) => Ok(TextResult(RenderProject(data)))
  }

  /** With the corrected endpoint the route's text has the same title,
      configuration and steps as the toolkit tool's, followed by the
      endpoint's generated code, auth flag included. */
  lemma CreateProjectMatchesToolHeader(args: RawQuery)
    requires Schemas.ParseProjectQuery(args).Ok?
    ensures var q := Schemas.ParseProjectQuery(args).value;
            CreateProject(args) == Ok(TextResult(
              ProjectTool.Title(q.useCase) + ProjectTool.Details(q.dataSource, q.authRequired)
              + ProjectApi.GenerateProjectCode(q.dataSource, q.useCase, q.authRequired)))
  {
    var q := Schemas.ParseProjectQuery(args).value;
    ForwardProjectRevalidates(q);
    NumberedNextSteps();
  }

  /** The validated arguments of `debug_setup` as forwarded: an absent
      message is left out. */
  function ForwardDebug(q: Schemas.DebugQuery): RawQuery
  {
    match q.errorMessage
    case None => map["issue" := JString(q.issue)]
    case Some(m) => map["issue" := JString(q.issue), "error_message" := JString(m)]
  }

  lemma ForwardDebugRevalidates(q: Schemas.DebugQuery)
    requires q.issue in Schemas.IssueNames
    ensures Schemas.ParseDebugQuery(ForwardDebug(q)) == Ok(q)
  {
    var raw := ForwardDebug(q);
    assert Get(raw, "issue") == Some(JString(q.issue));
    if q.errorMessage.Some? {
      assert Get(raw, "error_message") == Some(JString(q.errorMessage.value));
    } else {
      assert Get(raw, "error_message") == None;
    }
  }

  /** `- ${r}` for each resource. */
  function Bulleted(rs: seq<string>): (r: seq<string>)
    ensures |r| == |rs| && forall i :: 0 <= i < |rs| ==> r[i] == "- " + rs[i]
  {
    if rs == [] then [] else ["- " + rs[0]] + Bulleted(rs[1..])
  }

  /** Diagnosis and error line, up to the solutions. */
  function DebugHead(diagnosis: string, errorMessage: string): string
  {
    "# " + diagnosis + "\n\n" + "**Error:** " + errorMessage + "\n\n## Solutions\n\n"
  }

  const ResourcesHeading: string := "\n\n## Additional Resources\n\n"

  /** The head opens with the diagnosis and carries the error line, whatever follows it. */
  lemma DebugHeadParts(diagnosis: string, errorMessage: string, rest: string)
    ensures ("# " + diagnosis + "\n\n") <= DebugHead(diagnosis, errorMessage) + rest
    ensures Text.Includes(DebugHead(diagnosis, errorMessage) + rest, "**Error:** " + errorMessage)
  {
    var opening := "# " + diagnosis + "\n\n";
    var errorLine := "**Error:** " + errorMessage;
    var text := DebugHead(diagnosis, errorMessage) + rest;
    assert text == opening + errorLine + ("\n\n## Solutions\n\n" + rest);
    Text.ConcatSlices(opening, errorLine, "\n\n## Solutions\n\n" + rest);
    Text.IncludesAt(text, errorLine, |opening|);
  }

  /** The `debug_setup` text: solutions joined by blank lines, resources as a list. */
  function RenderDebug(data: DebugApi.DebugResponse): (text: string)
    ensures ("# " + data.diagnosis + "\n\n") <= text
    ensures Text.Includes(text, "**Error:** " + data.errorMessage)
    ensures forall k :: 0 <= k < |data.solutions| ==> Text.Includes(text, data.solutions[k])
    ensures forall k :: 0 <= k < |data.additionalResources| ==> Text.Includes(text, "- " + data.additionalResources[k])
  {
    var head := DebugHead(data.diagnosis, data.errorMessage);
    var solutions := Text.Join(data.solutions, "\n\n");
    var bullets := Bulleted(data.additionalResources);
    var resources := Text.Join(bullets, "\n");
    var text := head + (solutions + ResourcesHeading + resources);
    DebugHeadParts(data.diagnosis, data.errorMessage, solutions + ResourcesHeading + resources);
    Text.JoinInside(head, data.solutions, "\n\n", ResourcesHeading + resources);
    assert head + solutions + (ResourcesHeading + resources) == text;
    Text.JoinInside(head + solutions + ResourcesHeading, bullets, "\n", "");
    assert head + solutions + ResourcesHeading + resources + "" == text;
    text
  }

  /** The `debug_setup` tool: validate, forward, render. */
  function DebugSetup(args: RawQuery): (r: Result<ToolResult, Failure>)
    ensures r.Err? <==> Schemas.ParseDebugQuery(args).Err?
  {
    match Schemas.ParseDebugQuery(args)
    case Err(e) => Err(e)
    case Ok(q) =>
      ForwardDebugRevalidates(q);
      match DebugApi.Serve(ForwardDebug(q))
      case Err(e) => Err(e)
      case Ok(data) => Ok(TextResult(RenderDebug(data)))
  }

  /** The route's answer carries the endpoint's four resources as bullets and
      the caller's message, or the default when it is absent or empty. */
  lemma DebugSetupAnswer(args: RawQuery)
    requires Schemas.ParseDebugQuery(args).Ok?
    ensures var q := Schemas.ParseDebugQuery(args).value;
            var text := DebugSetup(args).value.content[0].text;
            && (forall k :: 0 <= k < |DebugApi.AdditionalResources| ==>
                  Text.Includes(text, "- " + DebugApi.AdditionalResources[k]))
            && Text.Includes(text, "**Error:** " + DebugApi.ErrorText(q.errorMessage))
  {
    var q := Schemas.ParseDebugQuery(args).value;
    ForwardDebugRevalidates(q);
    DebugApi.IssueKeysMatchSchema();
  }
}
