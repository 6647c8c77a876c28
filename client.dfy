/**
 * The Model Context Protocol client: request envelopes and ids, headers,
 * reading results out of responses, extracting tool output text, and
 * converting tool definitions into the OpenAI function-tool format.
 * The HTTP POST itself is not modelled: each method returns the POST it
 * would send and takes the decoded response body as a parameter.
 */
module Client {
  import opened Wrappers
  import opened JsonModel

  /** The failures the client raises. */
  datatype ClientError =
      // the response carried an "error" member: `raise Exception("MCP Error: ...")`
    | McpError(error: Json)
      // a value of the wrong type was used: Python's `AttributeError` or `TypeError`
    | TypeMismatch
      // a dictionary lacked a key that was indexed: Python's `KeyError`
    | MissingKey(key: Json)

  datatype HttpPost = HttpPost(url: string, headers: map<string, string>, body: Json)

  const ProtocolVersion: string := "2024-11-05"

  /** The params of the client's `initialize` request. */
  const InitializeParams: Json :=
    Obj(map["protocolVersion" := Str(ProtocolVersion), "capabilities" := EmptyObj])

  /** Python's truth value of the optional bearer token: neither `None` nor empty. */
  predicate IsTruthyToken(token: Option<string>) {
    token.Some? && token.value != ""
  }

  /**
   * `if p is None: p = {}`. Python's `None` is `Null`, whether the argument
   * was omitted or given as `None` (as `json.loads("null")` gives it).
   */
  function OrEmpty(p: Json): (r: Json)
    ensures r != Null
    ensures p == Null ==> r == EmptyObj
    ensures p != Null ==> r == p
  {
    if p == Null then EmptyObj else p
  }

  /** The JSON-RPC 2.0 request object sent for one call. */
  function Envelope(id: int, methodName: string, params: Json): Json {
    Obj(map["jsonrpc" := Str("2.0"), "id" := Int(id), "method" := Str(methodName), "params" := params])
  }

  /** The params of a `tools/call` request. */
  function CallToolParams(toolName: string, arguments: Json): Json {
    Obj(map["name" := Str(toolName), "arguments" := OrEmpty(arguments)])
  }

  /**
   * What `_send_request` makes of a decoded response: an "error" member is
   * raised, otherwise the "result" member is returned, `{}` when absent.
   * A response that is not a dictionary fails whatever it holds: in the
   * membership test, in indexing it by "error" when the test succeeds (a
   * list holding "error", a string containing it), or in `.get`.
   */
  function ReadResponse(response: Json): (r: Result<Json, ClientError>)
    ensures response.Obj? && "error" in response.fields ==> r == Err(McpError(response.fields["error"]))
    ensures response.Obj? && "error" !in response.fields && "result" in response.fields ==>
      r == Ok(response.fields["result"])
    ensures response.Obj? && "error" !in response.fields && "result" !in response.fields ==> r == Ok(EmptyObj)
    ensures !response.Obj? ==> r == Err(TypeMismatch)
  {
    match response
    case Obj(fields) =>
      if "error" in fields then Err(McpError(fields["error"])) else Ok(GetOr(fields, "result", EmptyObj))
    case _ => Err(TypeMismatch)
  }

  /**
   * What `call_tool` returns for a `tools/call` result: the "text" of the
   * first content block, or a fixed message when that block has no text or
   * when the content is missing or empty.
   */
  function ExtractText(result: Json): (r: Result<Json, ClientError>)
    ensures result.Obj? && !Truthy(GetOr(result.fields, "content", Arr([]))) ==>
      r == Ok(Str("No content returned"))
    ensures result.Obj? && "content" in result.fields && result.fields["content"].Arr? &&
            |result.fields["content"].items| > 0 && result.fields["content"].items[0].Obj? ==>
      var block := result.fields["content"].items[0].fields;
      r == Ok(if "text" in block then block["text"] else Str("No text content returned"))
    ensures r.Ok? ==> result.Obj?
  {
    match result
    case Obj(fields) =>
      var content := GetOr(fields, "content", Arr([]));
      if !Truthy(content) then Ok(Str("No content returned"))
      else (match content
            case Arr(items) =>
              (match items[0]
               case Obj(block) => Ok(GetOr(block, "text", Str("No text content returned")))
               case _ => Err(TypeMismatch))
              // a non-empty dictionary has no key 0
            case Obj(_) => Err(MissingKey(Int(0)))
            case _ => Err(TypeMismatch))
    case _ => Err(TypeMismatch)
  }

  /**
   * `result.get('serverInfo', {}).get('name', 'Unknown')`, evaluated for
   * the connection message after `initialize`.
   */
  function ServerInfoName(result: Json): (r: Result<Json, ClientError>)
    ensures r.Ok? <==> result.Obj? && GetOr(result.fields, "serverInfo", EmptyObj).Obj?
  {
    match result
    case Obj(fields) =>
      (match GetOr(fields, "serverInfo", EmptyObj)
       case Obj(info) => Ok(GetOr(info, "name", Str("Unknown")))
       case _ => Err(TypeMismatch))
    case _ => Err(TypeMismatch)
  }

  /**
   * The elements a `for tool in tools` loop visits when every element is then
   * indexed with `tool["name"]`. Iterating a non-empty dictionary or string
   * yields strings, which cannot be indexed by a string; other scalars
   * cannot be iterated at all.
   */
  function ToolItems(tools: Json): (r: Result<seq<Json>, ClientError>)
    ensures tools.Arr? ==> r == Ok(tools.items)
    ensures r.Ok? && !tools.Arr? ==> r == Ok([])
    ensures r.Ok? <==> tools.Arr? || tools == Obj(map[]) || tools == Str("")
    ensures r.Err? ==> r.error == TypeMismatch
  {
    match tools
    case Arr(items) => Ok(items)
    case Obj(fields) => if fields == map[] then Ok([]) else Err(TypeMismatch)
    case Str(s) => if s == "" then Ok([]) else Err(TypeMismatch)
    case _ => Err(TypeMismatch)
  }

  /** `tool["name"]`. */
  function ToolNameOf(tool: Json): (r: Result<Json, ClientError>)
    ensures r.Ok? <==> tool.Obj? && "name" in tool.fields
  {
    match tool
    case Obj(fields) => if "name" in fields then Ok(fields["name"]) else Err(MissingKey(Str("name")))
    case _ => Err(TypeMismatch)
  }

  /** The names of the listed tools, failing at the first tool that has none. */
  function ToolNames(items: seq<Json>): (r: Result<seq<Json>, ClientError>)
    ensures r.Ok? <==> forall i :: 0 <= i < |items| ==> ToolNameOf(items[i]).Ok?
    ensures r.Ok? ==> |r.value| == |items|
    ensures r.Ok? ==> forall i :: 0 <= i < |items| ==> ToolNameOf(items[i]) == Ok(r.value[i])
  {
    if items == [] then Ok([])
    else match ToolNameOf(items[0])
      case Err(e) => Err(e)
      case Ok(name) =>
        match ToolNames(items[1..])
        case Err(e) => Err(e)
        case Ok(rest) => Ok([name] + rest)
  }

  /** The OpenAI function-tool entry for one tool definition. */
  function OpenAITool(name: Json, description: Json, parameters: Json): Json {
    Obj(map[
      "type" := Str("function"),
      "function" := Obj(map["name" := name, "description" := description, "parameters" := parameters])
    ])
  }

  /**
   * One step of `get_tools_for_openai`: name and description are copied,
   * the parameters are the tool's input schema, or the empty object schema
   * when it has none.
   */
  function ConvertTool(tool: Json): (r: Result<Json, ClientError>)
    ensures r.Ok? <==> tool.Obj? && "name" in tool.fields && "description" in tool.fields
    ensures r.Ok? ==> r.value == OpenAITool(tool.fields["name"], tool.fields["description"],
      if "inputSchema" in tool.fields then tool.fields["inputSchema"] else EmptyObjectSchema)
    ensures tool.Obj? && "name" !in tool.fields ==> r == Err(MissingKey(Str("name")))
    ensures tool.Obj? && "name" in tool.fields && "description" !in tool.fields ==>
      r == Err(MissingKey(Str("description")))
    ensures !tool.Obj? ==> r == Err(TypeMismatch)
  {
    match tool
    case Obj(fields) =>
      if "name" !in fields then Err(MissingKey(Str("name")))
      else if "description" !in fields then Err(MissingKey(Str("description")))
      else Ok(OpenAITool(fields["name"], fields["description"], GetOr(fields, "inputSchema", EmptyObjectSchema)))
    case _ => Err(TypeMismatch)
  }

  /** Every tool before position `k` converts. */
  predicate ConvertsBefore(items: seq<Json>, k: nat)
    requires k <= |items|
  {
    forall i :: 0 <= i < k ==> ConvertTool(items[i]).Ok?
  }

  /** How a first `initialize` ends: requests sent, the new `tools` if assigned, and the outcome. */
  datatype InitOutcome = InitOutcome(sent: nat, tools: Option<Json>, result: Result<(), ClientError>)

  /**
   * The `initialize` handshake as a function of the two decoded responses:
   * the `initialize` request, the connection message (which reads the
   * server name), the `tools/list` request, the assignment of `tools`, and
   * the listing of the tool names, each of which can raise.
   */
  function InitializeOutcome(initResponse: Json, listResponse: Json): (o: InitOutcome)
    ensures o.sent == 1 <==> ReadResponse(initResponse).Err? || ServerInfoName(ReadResponse(initResponse).value).Err?
    ensures o.sent == 1 || o.sent == 2
    ensures o.sent == 1 ==> o.tools.None? && o.result.Err?
    ensures o.result.Ok? ==> o.tools.Some? && ToolItems(o.tools.value).Ok?
    ensures ReadResponse(initResponse).Ok? && ServerInfoName(ReadResponse(initResponse).value).Ok? &&
            ReadResponse(listResponse).Ok? && ReadResponse(listResponse).value.Obj? &&
            ToolItems(GetOr(ReadResponse(listResponse).value.fields, "tools", Arr([]))).Ok? &&
            ToolNames(ToolItems(GetOr(ReadResponse(listResponse).value.fields, "tools", Arr([]))).value).Ok? ==>
      o.result.Ok?
    ensures o.result.Ok? ==> forall i :: 0 <= i < |ToolItems(o.tools.value).value| ==> ToolNameOf(ToolItems(o.tools.value).value[i]).Ok?
  {
    match ReadResponse(initResponse)
    case Err(e) => InitOutcome(1, None, Err(e))
    case Ok(initResult) =>
      match ServerInfoName(initResult)
      case Err(e) => InitOutcome(1, None, Err(e))
      case Ok(_) =>
        match ReadResponse(listResponse)
        case Err(e) => InitOutcome(2, None, Err(e))
        case Ok(listResult) =>
          if !listResult.Obj? then InitOutcome(2, None, Err(TypeMismatch))
          else
            var tools := GetOr(listResult.fields, "tools", Arr([]));
            match ToolItems(tools)
            case Err(e) => InitOutcome(2, Some(tools), Err(e))
            case Ok(items) =>
              match ToolNames(items)
              case Err(e) => InitOutcome(2, Some(tools), Err(e))
              case Ok(_) => InitOutcome(2, Some(tools), Ok(()))
  }

  /** A successful handshake sent both requests and stored the listed tools, `[]` if none were listed. */
  lemma InitializeOutcomeOk(initResponse: Json, listResponse: Json)
    requires InitializeOutcome(initResponse, listResponse).result.Ok?
    ensures var o := InitializeOutcome(initResponse, listResponse);
      o.sent == 2 && ReadResponse(listResponse).Ok? && ReadResponse(listResponse).value.Obj? &&
      o.tools == Some(GetOr(ReadResponse(listResponse).value.fields, "tools", Arr([])))
  {
  }

  /**
   * A `tools/list` result without "tools" still completes the handshake,
   * storing `[]`.
   */
  lemma HandshakeWithoutToolsKey(initResponse: Json, id: Json)
    requires ReadResponse(initResponse).Ok? && ServerInfoName(ReadResponse(initResponse).value).Ok?
    ensures InitializeOutcome(initResponse, Obj(map["jsonrpc" := Str("2.0"), "id" := id, "result" := EmptyObj]))
      == InitOutcome(2, Some(Arr([])), Ok(()))
  {
  }

  class MCPClient {
    const serverUrl: string
    const bearerToken: Option<string>
    var tools: Json
    var initialized: bool
    var requestId: int

    constructor (serverUrl: string, bearerToken: Option<string>)
      ensures this.serverUrl == serverUrl && this.bearerToken == bearerToken
      ensures tools == Arr([]) && !initialized && requestId == 0
    {
      this.serverUrl := serverUrl;
      this.bearerToken := bearerToken;
      tools := Arr([]);
      initialized := false;
      requestId := 0;
    }

    /** The JSON content type, plus a bearer authorization exactly when the token is truthy. */
    function GetHeaders(): (h: map<string, string>)
      ensures "Content-Type" in h && h["Content-Type"] == "application/json"
      ensures "Authorization" in h <==> IsTruthyToken(bearerToken)
      ensures "Authorization" in h ==> h["Authorization"] == "Bearer " + bearerToken.value
      ensures h.Keys <= {"Content-Type", "Authorization"}
    {
      var headers := map["Content-Type" := "application/json"];
      if IsTruthyToken(bearerToken) then headers["Authorization" := "Bearer " + bearerToken.value]
      else headers
    }

    /** The POST carrying request `id`. */
    function RequestPost(id: int, methodName: string, params: Json): HttpPost {
      HttpPost(serverUrl + "/agent", GetHeaders(), Envelope(id, methodName, params))
    }

    method NextId() returns (id: int)
      modifies this`requestId
      ensures requestId == old(requestId) + 1
      ensures id == requestId
    {
      requestId := requestId + 1;
      id := requestId;
    }

    /**
     * Sends one request with a fresh id; `response` is the decoded body the
     * server answers with.
     */
    method SendRequest(methodName: string, params: Json, response: Json)
      returns (post: HttpPost, r: Result<Json, ClientError>)
      modifies this`requestId
      ensures requestId == old(requestId) + 1
      ensures post == RequestPost(requestId, methodName, OrEmpty(params))
      ensures r == ReadResponse(response)
    {
      var id := NextId();
      post := RequestPost(id, methodName, OrEmpty(params));
      r := ReadResponse(response);
    }

    /**
     * The handshake: a no-op once `initialized`; otherwise `initialize`,
     * then `tools/list`, storing the listed tools.
     */
    method Initialize(initResponse: Json, listResponse: Json)
      returns (posts: seq<HttpPost>, r: Result<(), ClientError>)
      modifies this`requestId, this`tools, this`initialized
      ensures old(initialized) ==>
        posts == [] && r == Ok(()) && initialized &&
        requestId == old(requestId) && tools == old(tools)
      ensures !old(initialized) ==>
        var o := InitializeOutcome(initResponse, listResponse);
        r == o.result && initialized == o.result.Ok? &&
        requestId == old(requestId) + o.sent && |posts| == o.sent &&
        posts[0] == RequestPost(old(requestId) + 1, "initialize", InitializeParams) &&
        (o.sent == 2 ==> posts[1] == RequestPost(old(requestId) + 2, "tools/list", EmptyObj)) &&
        tools == (if o.tools.Some? then o.tools.value else old(tools))
    {
      if initialized {
        return [], Ok(());
      }
      var post, res := SendRequest("initialize", InitializeParams, initResponse);
      posts := [post];
      if res.Err? {
        return posts, Err(res.error);
      }
      var name := ServerInfoName(res.value);
      if name.Err? {
        return posts, Err(name.error);
      }
      var post2, listRes := SendRequest("tools/list", Null, listResponse);
      posts := posts + [post2];
      if listRes.Err? {
        return posts, Err(listRes.error);
      }
      if !listRes.value.Obj? {
        return posts, Err(TypeMismatch);
      }
      tools := GetOr(listRes.value.fields, "tools", Arr([]));
      var items := ToolItems(tools);
      if items.Err? {
        return posts, Err(items.error);
      }
      var names := ToolNames(items.value);
      if names.Err? {
        return posts, Err(names.error);
      }
      initialized := true;
      r := Ok(());
    }

    /** Calls a tool and returns the text of its first content block. */
    method CallTool(toolName: string, arguments: Json, response: Json)
      returns (post: HttpPost, r: Result<Json, ClientError>)
      modifies this`requestId
      ensures requestId == old(requestId) + 1
      ensures post == RequestPost(requestId, "tools/call", CallToolParams(toolName, arguments))
      ensures ReadResponse(response).Err? ==> r == Err(ReadResponse(response).error)
      ensures ReadResponse(response).Ok? ==> r == ExtractText(ReadResponse(response).value)
    {
      var res;
      post, res := SendRequest("tools/call", CallToolParams(toolName, arguments), response);
      if res.Err? {
        return post, Err(res.error);
      }
      r := ExtractText(res.value);
    }

    /**
     * The stored tools in the OpenAI function-tool format: same length and
     * order, one converted entry per tool, failing at the first tool that
     * cannot be converted.
     */
    method GetToolsForOpenAI() returns (r: Result<seq<Json>, ClientError>)
      ensures ToolItems(tools).Err? ==> r == Err(ToolItems(tools).error)
      ensures ToolItems(tools).Ok? ==>
        var items := ToolItems(tools).value;
        (r.Ok? <==> forall i :: 0 <= i < |items| ==> ConvertTool(items[i]).Ok?) &&
        (r.Ok? ==> |r.value| == |items|) &&
        (r.Ok? ==> forall i :: 0 <= i < |items| ==> ConvertTool(items[i]) == Ok(r.value[i])) &&
        (r.Err? ==> exists k :: 0 <= k < |items| && ConvertTool(items[k]) == Err(r.error) && ConvertsBefore(items, k))
    {
      var itemsResult := ToolItems(tools);
      if itemsResult.Err? {
        return Err(itemsResult.error);
      }
      var items := itemsResult.value;
      var openaiTools: seq<Json> := [];
      var n := 0;
      while n < |items|
        invariant n <= |items| && |openaiTools| == n
        invariant forall i :: 0 <= i < n ==> ConvertTool(items[i]) == Ok(openaiTools[i])
      {
        var converted := ConvertTool(items[n]);
        if converted.Err? {
          return Err(converted.error);
        }
        openaiTools := openaiTools + [converted.value];
        n := n + 1;
      }
      r := Ok(openaiTools);
    }
  }
}
