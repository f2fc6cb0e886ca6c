# MCP tools API — a Dafny model

This project models the request-handling layer of a small gateway that puts a
single HTTP API in front of several MCP tool servers, together with the two demo
tools of its local tool server.

- `values.dfy` (module `Values`): the Python values that pass through a request,
  the three exception families the handlers tell apart (ValueError,
  ConnectionError, any other Exception), and the `Outcome` of a call that
  either returns or raises.
- `api_server.dfy` (module `ApiServer`): the application state (`AppState`: is
  a multi-server client assigned, and which tools did it load), the startup
  effects on that state, and the three handlers `GET /tools`,
  `GET /tools/{tool_name}` and `POST /tools/{tool_name}/invoke`. Schema
  extraction and exception-to-status classification are pure functions. The
  handlers are methods whose loops are proved against them.
- `mcp_server.dfy` (module `McpServer`): `text_analysis` and `data_query`.

The multi-server client is a library outside this model. Whatever a call into
it does is given as an `Outcome`: creating and entering the client, loading
its tools, and `schema()` or `str()` on a schema object. Invoking a tool is
given as a function from the tool and the parameters to an `Outcome`. A tool's schema objects form a
closed datatype that says whether the object has a `schema()` method, which is
the only thing the handlers probe for. Each alternative carries the outcome of
the call the handlers then make. The dictionaries the handlers return are
modelled as records whose fields are the dictionary's keys (`Descriptor`,
`InvokeBody`). A raised `HTTPException` is `Fail(HttpError(status, detail))`.

Behaviour of the code worth knowing:

- `get_tool_info` on an unknown name returns `None`, not a not-found error.
- A schema that cannot be extracted does not degrade to a string. Its exception
  ends the whole handler with a classified HTTP error. In `list_tools`, one such
  tool makes the entire listing fail.
- Duplicate tool names have no shadowing rule. Lookup always takes the first
  tool in the loaded order.
- The client object is assigned before it is entered. So if entering it or
  loading its tools fails, a client is still "present" while the catalogue
  stays empty. Listing then answers 503, but invoking answers 404 rather than
  "MCP client not ready" (`FailedStartupScenario`).

## Model

| member | source | states |
|---|---|---|
| `ApiServer.ToHttpError` | src/api_server.py:195-203 | ValueError maps to 400, ConnectionError to 503 and any other exception to 500, each in both directions. The detail ends with the exception's own message. |
| `ApiServer.ClassificationRoundTrip` | src/api_server.py:195-203 | The exception's kind and message can be read back from the status and detail. Classification loses no diagnostic information. |
| `ApiServer.ClassificationInjective` | src/api_server.py:195-203 | Two different exceptions never produce the same HTTP error. |
| `ApiServer.SchemaPriority` | src/api_server.py:107-117 | The input schema comes from the first available of: `str(args_schema)`, the input schema's `schema()`, `str(input_schema)`. The output schema is `schema()` when available, else `str()`. An exception raised by the chosen `str()` is the result, with no fallback. |
| `ApiServer.ArgsSchemaShadowsInputSchema` | src/api_server.py:107-112 | When the tool has `args_schema`, its input schema object has no effect on the result. |
| `ApiServer.DescriptionText` | src/api_server.py:121 | A missing or empty description becomes `""`. Any other description is kept as is. |
| `ApiServer.Describe` | src/api_server.py:105-124 | Describing a tool succeeds exactly when both schema extractions return. The descriptor then carries the tool's name, its normalised description and both schemas. Otherwise the result is the first exception raised, input schema before output schema. |
| `ApiServer.FirstMatch` | src/api_server.py:179-183 | The result is the index of a tool with exactly the given name, and no earlier tool has that name. None means no tool has it. |
| `ApiServer.FirstMatchStable` | src/api_server.py:180-183 | Tools appended after a match never change the lookup. |
| `ApiServer.AppState.constructor` | src/api_server.py:72-74 | The initial state has no client and no tools, so it is consistent: a non-empty catalogue implies a present client. |
| `ApiServer.AppState.Startup` | src/api_server.py:33-52 | The client is present once it was created, even if entering it or loading its tools then failed. The tools are replaced only when all three steps succeed. It keeps the state consistent: a non-empty catalogue implies a present client. |
| `ApiServer.AppState.ListTools` | src/api_server.py:97-135 | An empty catalogue fails with 503 and "MCP client not ready or no tools available". Success happens exactly when every tool can be described. It then gives one descriptor per tool, in catalogue order. Otherwise the error is the classification of the first failing tool's exception. |
| `ApiServer.AppState.GetToolInfo` | src/api_server.py:137-170 | The first tool with exactly the given name is described, or its exception is classified. A returned descriptor carries the requested name. When no tool has the name, the handler returns None. |
| `ApiServer.AppState.InvokeTool` | src/api_server.py:172-203 | Without a client: 503 "MCP client not ready". With no matching tool: 404 "Tool '<name>' not found". In both cases `called` is None: no tool is invoked. Otherwise `called` is the position of the first matching tool, and the request's parameters go to that tool. Its result is returned unchanged as `{"tool", "result"}`, or its exception is classified. |
| `ApiServer.FailedStartupScenario` | src/api_server.py:33-44 | After the client is created but entering it fails, whatever the loading would have given, listing answers 503 and invoking any name answers 404 without invoking a tool. |
| `McpServer.TextAnalysis` | src/mcp_server.py:7-17 | "sentiment" gives "Positive" and "summary" gives "Summary placeholder", each in both directions. Any other operation gives "Invalid operation". |
| `McpServer.TextAnalysisIgnoresText` | src/mcp_server.py:13-17 | The text never influences the answer. The answer is always one of the three fixed strings. |
| `McpServer.DataQuery` | src/mcp_server.py:20-26 | The answer is a dictionary with keys "result" and "source", in that order. "source" echoes the argument, and "result" is the fixed MacBook record. |
| `McpServer.DataQueryIgnoresQuery` | src/mcp_server.py:26 | The query never influences the answer. |

## Left out

- The shutdown half of the lifespan hook and the cleanup `__aexit__` in its catch-all branch (src/api_server.py:48-62). They only call into the client library and log. They leave `app.state` unchanged.
- The server configuration (src/api_server.py:18-26). Spawning the `python` and `npx` tool servers is process management inside the client library.
- How the client library merges the tools of several servers. The loaded tools are a given sequence.
- src/mcp_client.py. It is a chat-model agent run against the same servers, with no logic of its own.
- FastAPI routing, the request and response models, CORS, uvicorn start-up and dotenv loading. So is reading `FIGMA_API_KEY` from the environment.
- What `str()` and `schema()` produce for a real schema object. These are opaque outcomes.
- A tool whose `output_schema` attribute is missing, or whose `input_schema` attribute is missing while it has no `args_schema`. Reading that attribute raises AttributeError, and `list_tools` and `get_tool_info` then answer 500.
- Exceptions outside `Exception` (for example asyncio cancellation). No handler catches them.
- `print` logging, and the `async`/`await` suspension points.
- ApiServer.AppState.InvokeTool: invoking a tool is a function of the tool and the parameters, given as an argument. So the model does not capture that the same call may answer differently from one time to the next. Such a function has no effect, so which tool is contacted is observable only through the `called` result the method reports.
