/**
 * The client and the server put together. The HTTP layer between them is
 * not part of the model: it is taken to wrap the server's result in a
 * JSON-RPC 2.0 response object (section 5 of the JSON-RPC 2.0
 * Specification), which is all the client reads.
 */
module Protocol {
  import opened Wrappers
  import opened JsonModel
  import Server
  import Client

  /** A successful JSON-RPC 2.0 response. */
  function ResultResponse(id: Json, result: Json): Json {
    Obj(map["jsonrpc" := Str("2.0"), "id" := id, "result" := result])
  }

  /** A failed JSON-RPC 2.0 response. */
  function ErrorResponse(id: Json, code: int, message: string): Json {
    Obj(map["jsonrpc" := Str("2.0"), "id" := id, "error" := Obj(map["code" := Int(code), "message" := Str(message)])])
  }

  /** The client returns the result of a successful response, whatever its id. */
  lemma ClientReadsResult(id: Json, result: Json)
    ensures Client.ReadResponse(ResultResponse(id, result)) == Ok(result)
  {
  }

  /** The client raises the error object of a failed response. */
  lemma ClientRaisesError(id: Json, code: int, message: string)
    ensures Client.ReadResponse(ErrorResponse(id, code, message)) ==
      Err(Client.McpError(Obj(map["code" := Int(code), "message" := Str(message)])))
  {
  }

  /** The server receives exactly the method and the params the client put in the envelope. */
  lemma ServerSeesClientRequest(id: int, methodName: string, params: Json)
    ensures var body := Client.Envelope(id, methodName, params);
      body.Obj? && body.fields["method"] == Str(methodName) && Server.ParamsOf(body.fields) == params
  {
  }

  /** The tool name the client sends is the one the server dispatches on. */
  lemma ServerSeesToolName(toolName: string, arguments: Json)
    ensures var params := Client.CallToolParams(toolName, arguments);
      params.Obj? && Server.ToolName(params.fields) == Str(toolName)
  {
  }

  /** A ticket result reaches the client as the ticket text (its number is read back by `Server.TicketTextRoundTrip`). */
  lemma ClientReadsTicket(id: Json, n: int)
    ensures var response := ResultResponse(id, Server.TicketResult(n));
      Client.ReadResponse(response).Ok? &&
      Client.ExtractText(Client.ReadResponse(response).value) == Ok(Str(Server.TicketText(n)))
  {
  }

  /**
   * A handshake against the server stores exactly the server's registry
   * entries, in registry order, and succeeds.
   */
  lemma ClientInitializesFromServer(registry: seq<Server.ToolDef>, id1: Json, id2: Json)
    ensures Client.ServerInfoName(Server.InitializeResult) == Ok(Str(Server.ServerName))
    ensures Client.InitializeOutcome(ResultResponse(id1, Server.InitializeResult),
                                     ResultResponse(id2, Server.ToolsListResult(registry)))
      == Client.InitOutcome(2, Some(Arr(Server.ToolJsons(registry))), Ok(()))
  {
  }

  /** A registry entry converts to the OpenAI function tool with the same name, description and schema. */
  lemma OpenAIToolOfRegistryEntry(t: Server.ToolDef)
    ensures Client.ConvertTool(Server.ToolJson(t)) ==
      Ok(Client.OpenAITool(Str(t.name), Str(t.description), t.inputSchema))
  {
  }

  /** The registry of a fresh server lists exactly `generate_ticket`, whose calls take no arguments. */
  lemma FreshRegistryListing(s: Server.MCPServer, params: Json)
    requires s.tools == [Server.GenerateTicket]
    ensures s.HandleToolsList(params) == Obj(map["tools" := Arr([Server.ToolJson(Server.GenerateTicket)])])
    ensures Server.GenerateTicket.name == "generate_ticket"
    ensures Server.GenerateTicket.inputSchema ==
      Obj(map["type" := Str("object"), "properties" := Obj(map[]), "required" := Arr([])])
  {
    assert Server.ToolJsons(s.tools) == [Server.ToolJson(Server.GenerateTicket)];
  }

  /** `initialize` returns the same descriptor whatever its params. */
  lemma InitializeIgnoresParams(s: Server.MCPServer, p: Json, q: Json)
    ensures s.HandleInitialize(p) == s.HandleInitialize(q) == Server.InitializeResult
  {
  }

  /**
   * A fresh client asks a fresh server for a ticket through `tools/call`:
   * the server handles the body of the POST the client sends, and the client
   * gets ticket 43.
   */
  method FirstTicketThroughClient() returns (text: Result<Json, Client.ClientError>)
    ensures text == Ok(Str("Ticket generated: ID: 43"))
  {
    var server := new Server.MCPServer();
    var client := new Client.MCPClient("http://localhost:8000", Some("my-secret-token-123"));
    var request := client.RequestPost(client.requestId + 1, "tools/call", Client.CallToolParams("generate_ticket", Null));
    ServerSeesClientRequest(client.requestId + 1, "tools/call", Client.CallToolParams("generate_ticket", Null));
    ServerSeesToolName("generate_ticket", Null);
    var result := server.HandleRequest("tools/call", request.body.fields, client.bearerToken);
    assert result == Ok(Server.TicketResult(43));
    var post;
    post, text := client.CallTool("generate_ticket", Null, ResultResponse(Int(1), result.value));
    assert post == request;
    ClientReadsTicket(Int(1), 43);
    assert Server.TicketText(43) == "Ticket generated: ID: 43";
  }

  /**
   * Unknown tools and unknown methods fail with the name they were given
   * and issue no ticket; a missing tool name is Python's `None`.
   */
  method UnknownNamesFail()
    returns (badTool: Result<Json, Server.ServerError>, noName: Result<Json, Server.ServerError>,
             badMethod: Result<Json, Server.ServerError>, counter: int)
    ensures badTool == Err(Server.UnknownTool(Str("nonexistent")))
    ensures noName == Err(Server.UnknownTool(Null))
    ensures badMethod == Err(Server.UnknownMethod("bogus_method"))
    ensures counter == 42
    ensures Server.ErrorMessage(badTool.error) == Some("Unknown tool: nonexistent")
    ensures Server.ErrorMessage(noName.error) == Some("Unknown tool: None")
    ensures Server.ErrorMessage(badMethod.error) == Some("Unknown method: bogus_method")
  {
    var server := new Server.MCPServer();
    badTool := server.HandleRequest("tools/call", map["params" := Obj(map["name" := Str("nonexistent")])], None);
    noName := server.HandleRequest("tools/call", map[], None);
    badMethod := server.HandleRequest("bogus_method", map["params" := EmptyObj], None);
    counter := server.ticketId;
    assert "Unknown tool: " + "nonexistent" == "Unknown tool: nonexistent";
    assert "Unknown method: " + "bogus_method" == "Unknown method: bogus_method";
  }

  /**
   * A fresh client completes the handshake with a fresh server and stores
   * the server's one registry entry.
   */
  method FreshClientConnects() returns (r: Result<(), Client.ClientError>, stored: Json)
    ensures r == Ok(())
    ensures stored == Arr([Server.ToolJson(Server.GenerateTicket)])
  {
    var server := new Server.MCPServer();
    var client := new Client.MCPClient("http://localhost:8000", None);
    var init := server.HandleRequest("initialize", map["params" := Client.InitializeParams], None);
    var list := server.HandleRequest("tools/list", map[], None);
    ClientInitializesFromServer(server.tools, Int(1), Int(2));
    assert Server.ToolJsons(server.tools) == [Server.ToolJson(Server.GenerateTicket)];
    var posts;
    posts, r := client.Initialize(ResultResponse(Int(1), init.value), ResultResponse(Int(2), list.value));
    stored := client.tools;
  }

  /** A client that holds that entry offers the model one function tool, `generate_ticket`, taking no arguments. */
  method TicketToolForOpenAI(client: Client.MCPClient) returns (tools: Result<seq<Json>, Client.ClientError>)
    requires client.tools == Arr([Server.ToolJson(Server.GenerateTicket)])
    ensures tools == Ok([Client.OpenAITool(Str("generate_ticket"), Str("Generate a ticket for the customer"),
                                           EmptyObjectSchema)])
  {
    var items := [Server.ToolJson(Server.GenerateTicket)];
    OpenAIToolOfRegistryEntry(Server.GenerateTicket);
    tools := client.GetToolsForOpenAI();
    assert Client.ToolItems(client.tools) == Ok(items);
    assert Client.ConvertTool(items[0]).Ok?;
    assert tools.Ok? && |tools.value| == 1;
    assert Client.ConvertTool(items[0]) == Ok(tools.value[0]);
    var t := Server.GenerateTicket;
    assert tools.value == [Client.OpenAITool(Str(t.name), Str(t.description), t.inputSchema)];
  }

  /** A fresh client numbers its requests 1, 2, 3, … */
  method FreshClientIds() returns (a: int, b: int, c: int)
    ensures a == 1 && b == 2 && c == 3
  {
    var client := new Client.MCPClient("http://localhost:8000", None);
    a := client.NextId();
    b := client.NextId();
    c := client.NextId();
  }
}
