# MCP ticket server and client, modelled in Dafny

This project models the core of `auto-scale-ai`, a minimal Model Context
Protocol (revision 2024-11-05) setup over JSON-RPC 2.0:

- **the server** (`MCPServer`, `src/auto_scale_ai/server.py`): a fixed tool
  registry holding one tool, `generate_ticket`; dispatch of `initialize`,
  `tools/list` and `tools/call` by exact method name; and a ticket counter
  that every `generate_ticket` call increments in place and reports as
  `"Ticket generated: ID: <n>"`;
- **the client** (`MCPClient`, `src/auto_scale_ai/client.py`): request ids,
  headers with the optional bearer token, the JSON-RPC request envelope,
  reading the result (or raising the error) of a response, the
  `initialize` handshake guarded by `initialized`, extracting the text of a
  tool call, and converting tool definitions into the OpenAI function-tool
  format.

Files:

- `wrappers.dfy` — `Option` and `Result`.
- `json.dfy` (`JsonModel`) — decoded JSON values (`None`, booleans, integers,
  strings, lists, dictionaries), `dict.get` and Python truthiness.
- `decimal.dfy` (`Decimal`) — Python's `str()` of an integer and its inverse,
  so that ticket texts can be compared by number.
- `server.dfy` (`Server`) — the registry, the results, the errors and the
  `MCPServer` class with its `ticketId` field.
- `client.dfy` (`Client`) — the pure pre- and
  post-processing as functions, and the `MCPClient` class whose methods
  update `requestId`, `tools` and `initialized`. The HTTP POST is not
  modelled: each sending method returns the POST it would make (URL,
  headers, JSON body) and takes the decoded response body as a parameter.
- `protocol.dfy` (`Protocol`) — client and server together, with the HTTP
  layer taken to wrap the server's result in a JSON-RPC 2.0 response object
  (section 5 of the JSON-RPC 2.0 Specification).

Points of the code's behaviour worth stating outright:

- **The counter starts at 42.** `__init__` sets the instance attribute
  `self.ticket_id = 42`; the class attribute `ticket_id = 0` declared beside
  `handle_tools_call` is shadowed and never read, so `self.ticket_id += 1`
  goes from 42 to 43 and a fresh server's first ticket is 43.
- **A third server failure.** Besides "Unknown method" and "Unknown tool",
  `tools/call` fails with an `AttributeError` when its `params` are not a
  dictionary (`params.get`); this is `ParamsNotObject`.
- **A missing tool name is `None`.** `params.get("name")` gives `None` both
  for a missing name and for a JSON `null`; either is an unknown tool named
  `Null`. Likewise the client replaces an omitted and an explicit `None`
  params or arguments mapping by `{}`.

## Model

| member | source | states |
|---|---|---|
| `Server.MCPServer.constructor` | src/auto_scale_ai/server.py:10-23 | a fresh server's counter is 42 (the instance attribute, not the shadowed class-level 0) and its registry is exactly the one `generate_ticket` entry |
| `Server.MCPServer.HandleToolsCall` | src/auto_scale_ai/server.py:44-60 | for the name "generate_ticket" the counter rises by exactly 1 and the result is one text block holding the new number; any other name (a missing one included) fails with `UnknownTool` of that name and leaves the counter; non-dictionary params fail; the bearer token plays no part |
| `Server.MCPServer.HandleRequest` | src/auto_scale_ai/server.py:62-71 | exact-match routing: `initialize` and `tools/list` give their handler's result with no state change, `tools/call` behaves as the tool call on `data.get("params", {})`, anything else fails with `UnknownMethod` of that name and no state change |
| `Server.MCPServer.GenerateTickets` | src/auto_scale_ai/server.py:49-58 | the results of `k` sequential `generate_ticket` calls are the ticket results numbered old+1 … old+k, in order and pairwise distinct, and the counter ends at old+k |
| `Server.TicketResultInjective` | src/auto_scale_ai/server.py:51-58 | two ticket results are equal exactly when their numbers are |
| `Server.MCPServer.HandleInitialize` | src/auto_scale_ai/server.py:25-36 | the fixed descriptor: protocol version "2024-11-05", `capabilities.tools.listChanged` true, server "auto-scale-ai" version "1.0.0" and no other member (that it ignores params is `Protocol.InitializeIgnoresParams`) |
| `Server.MCPServer.HandleToolsList` | src/auto_scale_ai/server.py:38-42 | `{"tools": [...]}` with every registry value, same length and order, each carrying its tool's name (a fresh server's listing is `Protocol.FreshRegistryListing`) |
| `Server.TicketTextRoundTrip` | src/auto_scale_ai/server.py:55 | the number can be read back out of `"Ticket generated: ID: <n>"` |
| `Server.TicketTextInjective` | src/auto_scale_ai/server.py:55 | two ticket texts are equal exactly when their numbers are |
| `Server.ToolJsons` | src/auto_scale_ai/server.py:41 | `list(self.tools.values())` over the registry held as a sequence: one dictionary per entry, same length and order |
| `Server.ErrorMessage` | src/auto_scale_ai/server.py:60 | the raised texts "Unknown method: <method>" and "Unknown tool: <name>", with the name printed as Python's `str()`: the string itself, `None` for a missing name, the decimal digits of an integer, `True` or `False` |
| `Server.ErrorMessageNamesSubject` | src/auto_scale_ai/server.py:60 | every unknown-tool error whose name is not a list or dictionary has a text; after the fixed prefix, a method error's text is the method name and a tool error's text is Python's `str()` of the tool name |
| `Server.ErrorMessageKindsDiffer` | src/auto_scale_ai/server.py:60 | an unknown-tool text never equals an unknown-method text |
| `Server.MissingNameReadsAsNone` | src/auto_scale_ai/server.py:47-60 | a missing tool name and the string "None" are different errors with the same text, "Unknown tool: None" |
| `Decimal.NatToString` | src/auto_scale_ai/server.py:55 | the decimal digits of a natural number, non-empty, all digits, with no leading zero |
| `Decimal.IntToString` | src/auto_scale_ai/server.py:55 | Python's `str()` of an integer: a leading minus exactly for negative numbers |
| `Decimal.DigitsValueOfNatToString` | src/auto_scale_ai/server.py:55 | the digits written for `n` have value `n` |
| `Decimal.ParseIntToString` | src/auto_scale_ai/server.py:55 | `str()` on integers is inverted by the parser |
| `Decimal.IntToStringInjective` | src/auto_scale_ai/server.py:55 | different integers are printed differently |
| `Protocol.InitializeIgnoresParams` | src/auto_scale_ai/server.py:25-36 | `initialize` returns the same fixed descriptor whatever its params |
| `Protocol.FreshRegistryListing` | src/auto_scale_ai/server.py:13-23 | a fresh server's `tools/list` lists exactly `generate_ticket`, whose input schema is `{type: object, properties: {}, required: []}` |
| `Protocol.UnknownNamesFail` | src/auto_scale_ai/server.py:47-71 | "nonexistent" fails as an unknown tool, a missing name as the unknown tool `None`, "bogus_method" as an unknown method, with the texts "Unknown tool: nonexistent", "Unknown tool: None" and "Unknown method: bogus_method"; a fresh counter stays at 42 |
| `Protocol.FirstTicketThroughClient` | src/auto_scale_ai/server.py:11 | a fresh server handling the body of the POST a fresh client sends for `generate_ticket` issues ticket 43, and the client returns "Ticket generated: ID: 43" |
| `Client.MCPClient.constructor` | src/auto_scale_ai/client.py:16-22 | no tools, not initialized, request id 0 |
| `Client.MCPClient.GetHeaders` | src/auto_scale_ai/client.py:33-38 | always the JSON content type; `Authorization: Bearer <token>` exactly when the token is neither `None` nor empty; no other header |
| `Client.MCPClient.NextId` | src/auto_scale_ai/client.py:40-43 | the request id rises by 1 and the new value is returned |
| `Protocol.FreshClientIds` | src/auto_scale_ai/client.py:22 | a fresh client's request ids are 1, 2, 3 |
| `Client.OrEmpty` | src/auto_scale_ai/client.py:47-48 | a `None` params or arguments mapping, omitted or explicit, becomes `{}`, any other value is kept, so `null` is never sent |
| `Client.MCPClient.SendRequest` | src/auto_scale_ai/client.py:45-67 | one fresh id per request; the POST goes to `<url>/agent` with the headers and the envelope `{jsonrpc "2.0", id, method, params or {}}`; the outcome is the response read by `ReadResponse` |
| `Client.ReadResponse` | src/auto_scale_ai/client.py:64-67 | an "error" member is raised; otherwise the "result" member is returned, `{}` when absent; a non-dictionary response fails |
| `Protocol.ClientReadsResult` | src/auto_scale_ai/client.py:67 | the client returns the result of any successful JSON-RPC response, whatever its id |
| `Protocol.ClientRaisesError` | src/auto_scale_ai/client.py:64-65 | the client raises the error object of a failed JSON-RPC response |
| `Protocol.ServerSeesClientRequest` | src/auto_scale_ai/client.py:50-55 | the server's `data.get("params", {})` of the client's envelope is exactly the params the client sent, and its method is the client's |
| `Client.ServerInfoName` | src/auto_scale_ai/client.py:79 | the connection message's lookup succeeds exactly when the result is a dictionary whose "serverInfo", if present, is one |
| `Client.ToolItems` | src/auto_scale_ai/client.py:83-85 | a stored list is iterated element by element; an empty dictionary or string is iterated as empty; a non-empty dictionary or string fails on its first element, and `None`, numbers and booleans fail because they cannot be iterated |
| `Client.ToolNameOf` | src/auto_scale_ai/client.py:85 | `tool['name']` succeeds exactly for a dictionary with a "name" |
| `Client.ToolNames` | src/auto_scale_ai/client.py:85 | the listing of tool names succeeds exactly when every tool has a name, and then lists them in order |
| `Client.InitializeOutcome` | src/auto_scale_ai/client.py:69-86 | the handshake sends one request when the `initialize` response or its server-info lookup fails (and then assigns no tools), two otherwise; it succeeds exactly when both responses are read, the server-info lookup succeeds, the list result is a dictionary, and its "tools" (or `[]` when absent) is iterable with a name on every tool |
| `Client.HandshakeWithoutToolsKey` | src/auto_scale_ai/client.py:82-86 | a `tools/list` result without "tools" completes the handshake and stores `[]` |
| `Client.InitializeOutcomeOk` | src/auto_scale_ai/client.py:69-86 | a successful handshake sent both requests and stored the "tools" list of the `tools/list` result, `[]` when absent |
| `Client.MCPClient.Initialize` | src/auto_scale_ai/client.py:69-86 | a no-op once initialized; otherwise sends `initialize` then `tools/list`, assigns `tools` once the list result is read, and sets `initialized` exactly when nothing raised |
| `Protocol.ClientInitializesFromServer` | src/auto_scale_ai/client.py:74-86 | a handshake against the server's `initialize` and `tools/list` results succeeds and stores the registry entries in registry order; the server name read is "auto-scale-ai" |
| `Protocol.FreshClientConnects` | src/auto_scale_ai/client.py:69-86 | a fresh client connecting to a fresh server succeeds and stores its one `generate_ticket` entry |
| `Client.ExtractText` | src/auto_scale_ai/client.py:98-103 | the "text" of the first content block, "No text content returned" when it has none, "No content returned" for missing or empty content |
| `Client.MCPClient.CallTool` | src/auto_scale_ai/client.py:88-103 | sends `tools/call` with the name and the arguments (`{}` when `None`) and returns the extracted text, or raises what the response raises |
| `Protocol.ServerSeesToolName` | src/auto_scale_ai/client.py:93-96 | the tool name the client sends is the name the server dispatches on |
| `Protocol.ClientReadsTicket` | src/auto_scale_ai/client.py:98-101 | a ticket result wrapped in a success response reaches the client as the ticket text |
| `Client.ConvertTool` | src/auto_scale_ai/client.py:110-121 | type "function", name and description copied, parameters the input schema or the empty object schema; a missing name or description, or a non-dictionary tool, fails |
| `Client.MCPClient.GetToolsForOpenAI` | src/auto_scale_ai/client.py:105-124 | one converted entry per stored tool, same length and order; fails exactly when some tool cannot be converted, with the first such tool's error |
| `Protocol.OpenAIToolOfRegistryEntry` | src/auto_scale_ai/client.py:110-121 | a server registry entry converts to the OpenAI function tool with the same name, description and schema |
| `Protocol.TicketToolForOpenAI` | src/auto_scale_ai/client.py:105-124 | a client holding the server's registry offers the model exactly the `generate_ticket` function tool with the empty object schema |

## Left out

- The HTTP POST, the aiohttp session (`__aenter__`, `__aexit__`) and transport failures: the client's sending methods take the decoded response as a parameter, and a client without a session is not modelled.
- JSON text parsing and serialisation, and floating-point numbers: payloads are the `Json` datatype. Dictionaries are `map`s, so the key order of a dictionary is not modelled; the one order that matters, that of the registry, is a sequence.
- Printed output: the connection and tool-name messages in `initialize` are not modelled, only the lookups they evaluate, which can raise.
- `AzureOpenAIClient`, `MCPAzureChat.chat`, the `json.loads` of the model's tool arguments and the interactive `main()` loop: calls into the OpenAI SDK, console I/O.
- `src/auto_scale_ai/main.py` (FastAPI routes, the health and sleep endpoints, empty handlers) and `locustfile.py` (fixed load-test payloads): neither wires the server to a route, and the model contains no HTTP layer. The mapping of server failures to JSON-RPC error responses does not exist in the code and is not modelled.
- Concurrency: the ticket counter has no locking, and the model is sequential, so the atomicity of the increment under simultaneous requests is not modelled. The client is sequential too: two coroutines running `initialize` on one client could both pass the `initialized` test before either sets it, and that interleaving is not modelled.
- Server.ErrorMessage: gives no text for a list or dictionary tool name, because Python's `repr` of a container (with its dictionary key order) is not modelled.
- Python's `TypeError` and `AttributeError` for a response, result or tool of the wrong type are one error, `TypeMismatch`: that the call raises is modelled, not the exception class.
