/** The request handlers of the tools API: listing the tool catalogue,
    describing one tool and invoking one tool, over the tools the multi-server
    client loaded at startup. Connecting to the tool servers and merging their
    catalogues happen inside the client library and are not modelled: the
    loaded tools are a given sequence, and whatever a call into the library or
    a tool server does is a parameter of type Outcome. */
module ApiServer {
  import opened Values

  const NoToolsDetail := "MCP client not ready or no tools available"
  const ClientNotReadyDetail := "MCP client not ready"
  const InvalidParametersPrefix := "Invalid parameters: "
  const ServiceUnavailablePrefix := "Service unavailable: "
  const UnexpectedErrorPrefix := "Unexpected error invoking tool: "

  /** A schema object of a tool, by the one thing the handlers probe it for:
      whether it has a `schema()` method. Each alternative carries what the
      call the handlers then make (`schema()` or `str()`) returns or raises. */
  datatype SchemaObject =
    | HasSchemaMethod(schemaCall: Outcome<Value>)
    | Plain(strCall: Outcome<string>)

  /** A loaded tool. `argsSchema` is None when the tool has no `args_schema`
      attribute, and otherwise what `str(tool.args_schema)` returns or raises. */
  datatype Tool = Tool(
    name: string,
    description: Option<string>,
    argsSchema: Option<Outcome<string>>,
    inputSchema: SchemaObject,
    outputSchema: SchemaObject)

  /** The dictionary a handler builds for one tool, with the keys "name",
      "description", "input_schema" and "output_schema". */
  datatype Descriptor = Descriptor(name: string, description: string, inputSchema: Value, outputSchema: Value)

  /** The dictionary a successful invocation answers with: keys "tool", "result". */
  datatype InvokeBody = InvokeBody(tool: string, result: Value)

  /** An HTTPException raised by a handler. */
  datatype HttpError = HttpError(status: nat, detail: string)

  /** What a handler does: return a body, or raise an HTTPException. */
  datatype Response<+T> = Ok(body: T) | Fail(error: HttpError)

  // ---------------------------------------------------------------------------
  // Exception classification

  function DetailPrefix(e: Exception): string
  {
    match e
    case ValueError(_) => InvalidParametersPrefix
    case ConnectionError(_) => ServiceUnavailablePrefix
    case OtherException(_) => UnexpectedErrorPrefix
  }

  /** The three `except` clauses every handler ends with: a ValueError is the
      caller's fault (400), a ConnectionError means a backend is unreachable
      (503), anything else is unexpected (500); the message is kept. */
  function ToHttpError(e: Exception): (r: HttpError)
    ensures r.status == 400 <==> e.ValueError?
    ensures r.status == 503 <==> e.ConnectionError?
    ensures r.status == 500 <==> e.OtherException?
    ensures |e.msg| <= |r.detail| && r.detail[|r.detail| - |e.msg|..] == e.msg
  {
    HttpError(
      match e
      case ValueError(_) => 400
      case ConnectionError(_) => 503
      case OtherException(_) => 500,
      DetailPrefix(e) + e.msg)
  }

  /** Reads a classified error back into the exception it came from. */
  function FromHttpError(h: HttpError): Option<Exception>
  {
    var prefix :=
      if h.status == 400 then InvalidParametersPrefix
      else if h.status == 503 then ServiceUnavailablePrefix
      else UnexpectedErrorPrefix;
    if h.status !in {400, 503, 500} || !(prefix <= h.detail) then None
    else
      var msg := h.detail[|prefix|..];
      Some(if h.status == 400 then ValueError(msg)
           else if h.status == 503 then ConnectionError(msg)
           else OtherException(msg))
  }

  /** Classification loses nothing: the kind and the message of the exception
      can be read back from the status and the detail. */
  lemma ClassificationRoundTrip(e: Exception)
    ensures FromHttpError(ToHttpError(e)) == Some(e)
  {
  }

  /** Two different exceptions never produce the same HTTP error. */
  lemma ClassificationInjective(e1: Exception, e2: Exception)
    requires ToHttpError(e1) == ToHttpError(e2)
    ensures e1 == e2
  {
    ClassificationRoundTrip(e1);
    ClassificationRoundTrip(e2);
  }

  // ---------------------------------------------------------------------------
  // Describing one tool

  /** The value a schema object is rendered as: the result of `schema()` when
      it has that method, `str()` of it otherwise. */
  function SchemaValue(s: SchemaObject): Outcome<Value>
  {
    match s
    case HasSchemaMethod(call) => call
    case Plain(strCall) => AsStr(strCall)
  }

  /** The input schema, by priority: `str(args_schema)` when the tool has that
      attribute, otherwise the input schema object rendered by SchemaValue. */
  function InputSchema(t: Tool): Outcome<Value>
  {
    match t.argsSchema
    case Some(strCall) => AsStr(strCall)
    case None => SchemaValue(t.inputSchema)
  }

  /** The input schema is taken from the first available of: `args_schema`
      (stringified), the input schema's `schema()`, `str()` of the input
      schema; the output schema from `schema()` if available, else `str()`.
      Whichever call is chosen, an exception it raises is the result: there is
      no fallback to a later rung. */
  lemma SchemaPriority(t: Tool)
    ensures t.argsSchema.Some? && t.argsSchema.value.Returned? ==>
              InputSchema(t) == Returned(Str(t.argsSchema.value.value))
    ensures t.argsSchema.None? && t.inputSchema.HasSchemaMethod? ==>
              InputSchema(t) == t.inputSchema.schemaCall
    ensures t.argsSchema.None? && t.inputSchema.Plain? && t.inputSchema.strCall.Returned? ==>
              InputSchema(t) == Returned(Str(t.inputSchema.strCall.value))
    ensures t.outputSchema.HasSchemaMethod? ==> SchemaValue(t.outputSchema) == t.outputSchema.schemaCall
    ensures t.outputSchema.Plain? && t.outputSchema.strCall.Returned? ==>
              SchemaValue(t.outputSchema) == Returned(Str(t.outputSchema.strCall.value))
    ensures t.argsSchema.Some? && t.argsSchema.value.Raised? ==>
              InputSchema(t) == Raised(t.argsSchema.value.error)
    ensures t.argsSchema.None? && t.inputSchema.Plain? && t.inputSchema.strCall.Raised? ==>
              InputSchema(t) == Raised(t.inputSchema.strCall.error)
    ensures t.outputSchema.Plain? && t.outputSchema.strCall.Raised? ==>
              SchemaValue(t.outputSchema) == Raised(t.outputSchema.strCall.error)
  {
  }

  /** When the tool has an `args_schema`, its input schema object is never
      consulted. */
  lemma ArgsSchemaShadowsInputSchema(t1: Tool, t2: Tool)
    requires t1.argsSchema.Some? && t1.argsSchema == t2.argsSchema
    ensures InputSchema(t1) == InputSchema(t2)
  {
  }

  /** `tool.description or ""`: a missing or empty description becomes "". */
  function DescriptionText(d: Option<string>): (r: string)
    ensures r == "" <==> d == None || d == Some("")
    ensures d.Some? && d.value != "" ==> r == d.value
  {
    match d
    case None => ""
    case Some(s) => s
  }

  /** The `try` block of the handlers for one tool: input schema, then output
      schema, then the descriptor; the first exception ends it. */
  function Describe(t: Tool): (r: Outcome<Descriptor>)
    ensures r.Returned? <==> InputSchema(t).Returned? && SchemaValue(t.outputSchema).Returned?
    ensures r.Returned? ==>
              r.value == Descriptor(t.name, DescriptionText(t.description),
                                    InputSchema(t).value, SchemaValue(t.outputSchema).value)
    ensures InputSchema(t).Raised? ==> r == Raised(InputSchema(t).error)
    ensures InputSchema(t).Returned? && SchemaValue(t.outputSchema).Raised? ==>
              r == Raised(SchemaValue(t.outputSchema).error)
  {
    match InputSchema(t)
    case Raised(e) => Raised(e)
    case Returned(input) =>
      match SchemaValue(t.outputSchema)
      case Raised(e) => Raised(e)
      case Returned(output) =>
        Returned(Descriptor(t.name, DescriptionText(t.description), input, output))
  }

  /** What `get_tool_info` answers for the tool it selected. */
  function InfoResponse(t: Tool): Response<Option<Descriptor>>
  {
    match Describe(t)
    case Returned(d) => Ok(Some(d))
    case Raised(e) => Fail(ToHttpError(e))
  }

  /** What `invoke_tool` answers once the selected tool's call is over: the
      tool's own result, unchanged, under the requested name, or the
      classified exception. */
  function InvokeResponse(toolName: string, call: Outcome<Value>): Response<InvokeBody>
  {
    match call
    case Returned(v) => Ok(InvokeBody(toolName, v))
    case Raised(e) => Fail(ToHttpError(e))
  }

  // ---------------------------------------------------------------------------
  // Looking a tool up by name

  /** The index of the first tool named `name`, or None when there is none. */
  function FirstMatch(tools: seq<Tool>, name: string): (r: Option<nat>)
    ensures r.Some? ==> r.value < |tools| && tools[r.value].name == name
    ensures r.Some? ==> forall j :: 0 <= j < r.value ==> tools[j].name != name
    ensures r.None? <==> forall j :: 0 <= j < |tools| ==> tools[j].name != name
  {
    if tools == [] then None
    else if tools[0].name == name then Some(0)
    else
      match FirstMatch(tools[1..], name)
      case None => None
      case Some(k) => Some(k + 1)
  }

  /** Tools after the first match never change the lookup: adding tools at the
      end keeps an earlier match, whatever their names. */
  lemma {:induction false} FirstMatchStable(tools: seq<Tool>, more: seq<Tool>, name: string)
    requires FirstMatch(tools, name).Some?
    ensures FirstMatch(tools + more, name) == FirstMatch(tools, name)
  {
    var k := FirstMatch(tools, name).value;
    assert (tools + more)[k] == tools[k];
    assert forall j :: 0 <= j < k ==> (tools + more)[j] == tools[j];
  }

  function NotFoundDetail(name: string): string
  {
    "Tool '" + name + "' not found"
  }

  // ---------------------------------------------------------------------------
  // The application state and the handlers

  /** `app.state`: whether a multi-server client object has been assigned, and
      the tools it loaded. */
  class AppState {
    var clientPresent: bool
    var tools: seq<Tool>

    /** Tools are only ever loaded through a client, so a non-empty catalogue
        implies that a client is present. */
    predicate Consistent()
      reads this
    {
      tools != [] ==> clientPresent
    }

    /** The state set when the application is created: no client, no tools. */
    constructor ()
      ensures !clientPresent && tools == []
      ensures Consistent()
    {
      clientPresent := false;
      tools := [];
    }

    /** The startup half of the lifespan hook. Creating the client, entering it
        and loading its tools are library calls, given by what they did. The
        client object is stored before it is entered, so it stays present when
        entering or loading fails; the tools are replaced only when all three
        succeed. Every exception is caught and logged. */
    method Startup(creating: Outcome<()>, entering: Outcome<()>, loading: Outcome<seq<Tool>>)
      requires Consistent()
      modifies this
      ensures Consistent()
      ensures clientPresent == (creating.Returned? || old(clientPresent))
      ensures tools == if creating.Returned? && entering.Returned? && loading.Returned?
                       then loading.value else old(tools)
    {
      if creating.Raised? {
        return;
      }
      clientPresent := true;
      if entering.Raised? {
        return;
      }
      if loading.Raised? {
        return;
      }
      tools := loading.value;
    }

    /** GET /tools. An empty catalogue answers 503. Otherwise every tool is
        described in order; the first tool whose schemas cannot be extracted
        ends the handler with its classified error, and no list is returned. */
    method ListTools() returns (r: Response<seq<Descriptor>>)
      ensures tools == [] ==> r == Fail(HttpError(503, NoToolsDetail))
      ensures r.Ok? <==> tools != [] && forall i :: 0 <= i < |tools| ==> Describe(tools[i]).Returned?
      ensures r.Ok? ==> |r.body| == |tools| &&
                        forall i :: 0 <= i < |tools| ==> Describe(tools[i]) == Returned(r.body[i])
      ensures r.Fail? && tools != [] ==>
                exists k :: 0 <= k < |tools| && Describe(tools[k]).Raised? &&
                            r.error == ToHttpError(Describe(tools[k]).error) &&
                            forall j :: 0 <= j < k ==> Describe(tools[j]).Returned?
    {
      if tools == [] {
        return Fail(HttpError(503, NoToolsDetail));
      }
      var schemas: seq<Descriptor> := [];
      var i := 0;
      while i < |tools|
        invariant 0 <= i <= |tools|
        invariant |schemas| == i
        invariant forall j :: 0 <= j < i ==> Describe(tools[j]) == Returned(schemas[j])
      {
        match Describe(tools[i])
        case Raised(e) =>
          return Fail(ToHttpError(e));
        case Returned(d) =>
          schemas := schemas + [d];
        i := i + 1;
      }
      return Ok(schemas);
    }

    /** GET /tools/{tool_name}. The first tool with that exact name is
        described; when no tool has it, the handler returns None. */
    method GetToolInfo(toolName: string) returns (r: Response<Option<Descriptor>>)
      ensures FirstMatch(tools, toolName).None? ==> r == Ok(None)
      ensures FirstMatch(tools, toolName).Some? ==>
                r == InfoResponse(tools[FirstMatch(tools, toolName).value])
      ensures r.Ok? && r.body.Some? ==> r.body.value.name == toolName
    {
      var i := 0;
      while i < |tools|
        invariant 0 <= i <= |tools|
        invariant forall j :: 0 <= j < i ==> tools[j].name != toolName
      {
        if tools[i].name == toolName {
          assert FirstMatch(tools, toolName) == Some(i);
          match Describe(tools[i])
          case Raised(e) =>
            return Fail(ToHttpError(e));
          case Returned(d) =>
            return Ok(Some(d));
        }
        i := i + 1;
      }
      return Ok(None);
    }

    /** POST /tools/{tool_name}/invoke. Without a client it answers 503 before
        looking at the tools. Otherwise it selects the first tool with that
        exact name; when none exists it answers 404 without invoking anything.
        `invoke(t, p)` is what invoking tool `t` with parameters `p` returns or
        raises. `called` is the position of the tool that was invoked, None
        when no tool was. */
    method InvokeTool(toolName: string, params: map<string, Value>,
                      invoke: (Tool, map<string, Value>) -> Outcome<Value>)
      returns (r: Response<InvokeBody>, called: Option<nat>)
      ensures !clientPresent ==> r == Fail(HttpError(503, ClientNotReadyDetail))
      ensures clientPresent && FirstMatch(tools, toolName).None? ==>
                r == Fail(HttpError(404, NotFoundDetail(toolName)))
      ensures called.None? <==> !clientPresent || FirstMatch(tools, toolName).None?
      ensures called.Some? ==> called == FirstMatch(tools, toolName)
      ensures called.Some? ==> r == InvokeResponse(toolName, invoke(tools[called.value], params))
    {
      called := None;
      if !clientPresent {
        r := Fail(HttpError(503, ClientNotReadyDetail));
        return;
      }
      var selected: Option<Tool> := None;
      var i := 0;
      while i < |tools|
        invariant 0 <= i <= |tools|
        invariant selected.None?
        invariant forall j :: 0 <= j < i ==> tools[j].name != toolName
      {
        if tools[i].name == toolName {
          selected := Some(tools[i]);
          break;
        }
        i := i + 1;
      }
      if selected.None? {
        r := Fail(HttpError(404, NotFoundDetail(toolName)));
        return;
      }
      called := Some(i);
      match invoke(selected.value, params)
      case Returned(v) =>
        r := Ok(InvokeBody(toolName, v));
      case Raised(e) =>
        r := Fail(ToHttpError(e));
    }
  }

  /** A startup whose client was created but could not be entered leaves the
      client present and the catalogue empty: listing answers 503, and
      invoking any name answers 404 without invoking a tool. */
  method FailedStartupScenario(name: string, params: map<string, Value>,
                               invoke: (Tool, map<string, Value>) -> Outcome<Value>,
                               e: Exception, loading: Outcome<seq<Tool>>)
    returns (listed: Response<seq<Descriptor>>, invoked: Response<InvokeBody>, called: Option<nat>)
    ensures listed == Fail(HttpError(503, NoToolsDetail))
    ensures invoked == Fail(HttpError(404, NotFoundDetail(name)))
    ensures called == None
  {
    var app := new AppState();
    app.Startup(Returned(()), Raised(e), loading);
    listed := app.ListTools();
    invoked, called := app.InvokeTool(name, params, invoke);
  }
}
