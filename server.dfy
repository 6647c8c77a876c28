/**
 * The Model Context Protocol server (protocol revision 2024-11-05): a fixed
 * tool registry, dispatch by method name, and the ticket counter that the
 * `generate_ticket` tool increments in place.
 */
module Server {
  import opened Wrappers
  import opened JsonModel
  import Decimal

  const ProtocolVersion: string := "2024-11-05"
  const ServerName: string := "auto-scale-ai"
  const ServerVersion: string := "1.0.0"

  /** The only tool the server implements. */
  const GenerateTicketName: string := "generate_ticket"

  /** A registry entry: the dictionary stored under the tool's name. */
  datatype ToolDef = ToolDef(name: string, description: string, inputSchema: Json)

  function ToolJson(t: ToolDef): Json {
    Obj(map["name" := Str(t.name), "description" := Str(t.description), "inputSchema" := t.inputSchema])
  }

  const GenerateTicket: ToolDef :=
    ToolDef(GenerateTicketName, "Generate a ticket for the customer", EmptyObjectSchema)

  /** The failures the handlers raise (all `ValueError` or `AttributeError` in the source). */
  datatype ServerError =
    | UnknownMethod(methodName: string)
    | UnknownTool(name: Json)
      // `params` of a `tools/call` is not a dictionary, so `params.get` fails
    | ParamsNotObject(params: Json)

  /** Python's `str()` of a scalar JSON value; `None` for lists and dictionaries. */
  function ScalarText(j: Json): Option<string> {
    match j
    case Null => Some("None")
    case Bool(b) => Some(if b then "True" else "False")
    case Int(i) => Some(Decimal.IntToString(i))
    case Str(s) => Some(s)
    case _ => None
  }

  /** The name Python gives the type of a decoded JSON value. */
  function PythonTypeName(j: Json): string {
    match j
    case Null => "NoneType"
    case Bool(_) => "bool"
    case Int(_) => "int"
    case Str(_) => "str"
    case Arr(_) => "list"
    case Obj(_) => "dict"
  }

  /** The text of the raised error, where it does not depend on Python's `repr` of a container. */
  function ErrorMessage(e: ServerError): (m: Option<string>)
    ensures e.UnknownMethod? ==> m == Some("Unknown method: " + e.methodName)
    ensures e.UnknownTool? && e.name.Str? ==> m == Some("Unknown tool: " + e.name.s)
    ensures e.UnknownTool? && e.name.Null? ==> m == Some("Unknown tool: None")
    ensures e.UnknownTool? && e.name.Int? ==> m == Some("Unknown tool: " + Decimal.IntToString(e.name.i))
    ensures e.UnknownTool? && e.name.Bool? ==> m == Some(if e.name.b then "Unknown tool: True" else "Unknown tool: False")
  {
    match e
    case UnknownMethod(methodName) => Some("Unknown method: " + methodName)
    case UnknownTool(name) =>
      assert "Unknown tool: " + "None" == "Unknown tool: None";
      assert "Unknown tool: " + "True" == "Unknown tool: True";
      assert "Unknown tool: " + "False" == "Unknown tool: False";
      (match ScalarText(name)
       case Some(t) => Some("Unknown tool: " + t)
       case None => None)
    case ParamsNotObject(params) => Some("'" + PythonTypeName(params) + "' object has no attribute 'get'")
  }

  /** The capability descriptor returned by `initialize`. */
  const InitializeResult: Json :=
    Obj(map[
      "protocolVersion" := Str(ProtocolVersion),
      "capabilities" := Obj(map["tools" := Obj(map["listChanged" := Bool(true)])]),
      "serverInfo" := Obj(map["name" := Str(ServerName), "version" := Str(ServerVersion)])
    ])

  /** The registry entries as a list, in registry order. */
  function ToolJsons(registry: seq<ToolDef>): (r: seq<Json>)
    ensures |r| == |registry|
    ensures forall i :: 0 <= i < |registry| ==> r[i] == ToolJson(registry[i])
  {
    seq(|registry|, i requires 0 <= i < |registry| => ToolJson(registry[i]))
  }

  /** The result of `tools/list`: every registered tool, in registry order. */
  function ToolsListResult(registry: seq<ToolDef>): Json {
    Obj(map["tools" := Arr(ToolJsons(registry))])
  }

  /** The text of the ticket with the given number. */
  function TicketText(id: int): string {
    "Ticket generated: ID: " + Decimal.IntToString(id)
  }

  /** Reads the number back out of a ticket text. */
  function ParseTicketText(s: string): Option<int> {
    var prefix := "Ticket generated: ID: ";
    if |prefix| <= |s| && s[..|prefix|] == prefix then Decimal.ParseInt(s[|prefix|..]) else None
  }

  /** The result of a successful `generate_ticket` call: one text content block. */
  function TicketResult(id: int): Json {
    Obj(map["content" := Arr([Obj(map["type" := Str("text"), "text" := Str(TicketText(id))])])])
  }

  /** `params.get("name")`: a missing name and a JSON `null` are both Python's `None`. */
  function ToolName(params: map<string, Json>): Json {
    GetOr(params, "name", Null)
  }

  /** `data.get("params", {})`. */
  function ParamsOf(data: map<string, Json>): Json {
    GetOr(data, "params", EmptyObj)
  }

  class MCPServer {
    /** Number of the last ticket issued. */
    var ticketId: int
    /** The registry, in insertion order; fixed at construction. */
    const tools: seq<ToolDef>

    /**
     * The instance attribute set here (42) shadows the class attribute
     * declared beside `handle_tools_call` (0), which is never read.
     */
    constructor ()
      ensures ticketId == 42
      ensures tools == [GenerateTicket]
    {
      ticketId := 42;
      tools := [GenerateTicket];
    }

    /**
     * The fixed descriptor: protocol revision 2024-11-05, a tools capability
     * whose list may change, and the server's name and version.
     */
    function HandleInitialize(params: Json): (r: Json)
      ensures r.Obj? && r.fields.Keys == {"protocolVersion", "capabilities", "serverInfo"}
      ensures r.fields["protocolVersion"] == Str("2024-11-05")
      ensures r.fields["capabilities"] == Obj(map["tools" := Obj(map["listChanged" := Bool(true)])])
      ensures r.fields["serverInfo"] == Obj(map["name" := Str("auto-scale-ai"), "version" := Str("1.0.0")])
    {
      InitializeResult
    }

    /** Every registered tool's definition, in registry order. */
    function HandleToolsList(params: Json): (r: Json)
      ensures r.Obj? && r.fields.Keys == {"tools"} && r.fields["tools"].Arr?
      ensures |r.fields["tools"].items| == |tools|
      ensures forall i :: 0 <= i < |tools| ==>
        r.fields["tools"].items[i] == ToolJson(tools[i]) && r.fields["tools"].items[i].fields["name"] == Str(tools[i].name)
    {
      ToolsListResult(tools)
    }

    /**
     * Runs the tool named in `params`. Dispatch compares the name with
     * "generate_ticket" literally; the registry is not consulted, and the
     * bearer token is accepted but never used.
     */
    method HandleToolsCall(params: Json, bearerToken: Option<string>) returns (r: Result<Json, ServerError>)
      modifies this`ticketId
      ensures !params.Obj? ==> r == Err(ParamsNotObject(params)) && ticketId == old(ticketId)
      ensures params.Obj? && ToolName(params.fields) == Str(GenerateTicketName) ==>
        ticketId == old(ticketId) + 1 && r == Ok(TicketResult(ticketId))
      ensures params.Obj? && ToolName(params.fields) != Str(GenerateTicketName) ==>
        ticketId == old(ticketId) && r == Err(UnknownTool(ToolName(params.fields)))
    {
      if !params.Obj? {
        return Err(ParamsNotObject(params));
      }
      var toolName := ToolName(params.fields);
      if toolName == Str(GenerateTicketName) {
        ticketId := ticketId + 1;
        r := Ok(TicketResult(ticketId));
      } else {
        r := Err(UnknownTool(toolName));
      }
    }

    /** Routes a request by exact match on its method name. */
    method HandleRequest(methodName: string, data: map<string, Json>, bearerToken: Option<string>)
      returns (r: Result<Json, ServerError>)
      modifies this`ticketId
      ensures methodName == "initialize" ==>
        r == Ok(HandleInitialize(ParamsOf(data))) && ticketId == old(ticketId)
      ensures methodName == "tools/list" ==>
        r == Ok(HandleToolsList(ParamsOf(data))) && ticketId == old(ticketId)
      ensures methodName == "tools/call" ==>
        var params := ParamsOf(data);
        (!params.Obj? ==> r == Err(ParamsNotObject(params)) && ticketId == old(ticketId)) &&
        (params.Obj? && ToolName(params.fields) == Str(GenerateTicketName) ==>
          ticketId == old(ticketId) + 1 && r == Ok(TicketResult(ticketId))) &&
        (params.Obj? && ToolName(params.fields) != Str(GenerateTicketName) ==>
          ticketId == old(ticketId) && r == Err(UnknownTool(ToolName(params.fields))))
      ensures methodName !in {"initialize", "tools/list", "tools/call"} ==>
        r == Err(UnknownMethod(methodName)) && ticketId == old(ticketId)
    {
      if methodName == "initialize" {
        r := Ok(HandleInitialize(ParamsOf(data)));
      } else if methodName == "tools/list" {
        r := Ok(HandleToolsList(ParamsOf(data)));
      } else if methodName == "tools/call" {
        r := HandleToolsCall(ParamsOf(data), bearerToken);
      } else {
        r := Err(UnknownMethod(methodName));
      }
    }

    /**
     * `k` sequential `generate_ticket` calls: they return the tickets
     * numbered one past the old counter up to `k` past it, in order, no two
     * alike.
     */
    method GenerateTickets(k: nat, bearerToken: Option<string>) returns (results: seq<Result<Json, ServerError>>)
      modifies this`ticketId
      ensures ticketId == old(ticketId) + k
      ensures |results| == k
      ensures forall i :: 0 <= i < k ==> results[i] == Ok(TicketResult(old(ticketId) + i + 1))
      ensures forall i, j :: 0 <= i < j < k ==> results[i] != results[j]
    {
      ghost var start := ticketId;
      results := [];
      var params := Obj(map["name" := Str(GenerateTicketName), "arguments" := EmptyObj]);
      while |results| < k
        invariant |results| <= k
        invariant ticketId == old(ticketId) + |results|
        invariant forall i :: 0 <= i < |results| ==> results[i] == Ok(TicketResult(old(ticketId) + i + 1))
      {
        var r := HandleToolsCall(params, bearerToken);
        results := results + [r];
      }
      forall i, j | 0 <= i < j < k
        ensures results[i] != results[j]
      {
        TicketResultInjective(start + i + 1, start + j + 1);
      }
    }
  }

  /** The number can be read back out of a ticket text. */
  lemma TicketTextRoundTrip(id: int)
    ensures ParseTicketText(TicketText(id)) == Some(id)
  {
    var prefix := "Ticket generated: ID: ";
    assert TicketText(id)[..|prefix|] == prefix;
    assert TicketText(id)[|prefix|..] == Decimal.IntToString(id);
    Decimal.ParseIntToString(id);
  }

  /** Different ticket numbers give different ticket texts. */
  lemma TicketTextInjective(a: int, b: int)
    ensures TicketText(a) == TicketText(b) <==> a == b
  {
    if TicketText(a) == TicketText(b) {
      TicketTextRoundTrip(a);
      TicketTextRoundTrip(b);
    }
  }

  /** Different ticket numbers give different `generate_ticket` results. */
  lemma TicketResultInjective(a: int, b: int)
    ensures TicketResult(a) == TicketResult(b) <==> a == b
  {
    if TicketResult(a) == TicketResult(b) {
      assert TicketResult(a).fields["content"].items[0].fields["text"] == Str(TicketText(a));
      assert TicketResult(b).fields["content"].items[0].fields["text"] == Str(TicketText(b));
      TicketTextInjective(a, b);
    }
  }

  /**
   * An error text names its subject: after the fixed prefix comes the method
   * name, or Python's `str()` of the tool name.
   */
  lemma ErrorMessageNamesSubject(e: ServerError)
    ensures e.UnknownMethod? ==>
      var m := ErrorMessage(e).value;
      |m| >= 16 && m[..16] == "Unknown method: " && m[16..] == e.methodName
    ensures e.UnknownTool? && ErrorMessage(e).Some? ==>
      var m := ErrorMessage(e).value;
      |m| >= 14 && m[..14] == "Unknown tool: " && Some(m[14..]) == ScalarText(e.name)
    ensures e.UnknownTool? ==> (ErrorMessage(e).Some? <==> !e.name.Arr? && !e.name.Obj?)
  {
  }

  /** An unknown-tool text never reads as an unknown-method text. */
  lemma ErrorMessageKindsDiffer(name: Json, methodName: string)
    requires ErrorMessage(UnknownTool(name)).Some?
    ensures ErrorMessage(UnknownTool(name)) != ErrorMessage(UnknownMethod(methodName))
  {
    ErrorMessageNamesSubject(UnknownTool(name));
    ErrorMessageNamesSubject(UnknownMethod(methodName));
    var a := ErrorMessage(UnknownTool(name)).value;
    var b := ErrorMessage(UnknownMethod(methodName)).value;
    assert a[8] == a[..14][8] == 't';
    assert b[8] == b[..16][8] == 'm';
  }

  /**
   * The text does not tell a missing tool name (or a JSON `null`) from the
   * string "None": both read "Unknown tool: None".
   */
  lemma MissingNameReadsAsNone()
    ensures ErrorMessage(UnknownTool(Null)) == ErrorMessage(UnknownTool(Str("None"))) == Some("Unknown tool: None")
    ensures UnknownTool(Null) != UnknownTool(Str("None"))
  {
  }
}
