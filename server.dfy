/**
 * The tool side of the bridge (server.py, class `MCPServer`): routing a tool
 * call by name to discovery, listing or sending, the result envelopes, and
 * the routing of an MCP request by its `method`.
 */
module Server {
  import opened Wrappers
  import opened Json
  import opened AgentCards
  import opened Messages
  import opened Bridge
  import opened Tools

  /** The Python exceptions a tool call can let escape. */
  datatype PyException = KeyError(key: string) | TypeError(message: string)

  /** A tool call either returns a dict or raises. */
  datatype Outcome = Returned(body: Json) | Raised(exception: PyException)

  /** Tool arguments, with values of the declared (string) type. */
  type Arguments = map<string, string>

  /** One call's outcome and the registry after it. */
  datatype Step = Step(outcome: Outcome, after: Registry)

  /**
   * The `a2a_discover` result: `success` is true exactly when a card was
   * discovered, in which case the card and a message naming it are included.
   */
  function DiscoverEnvelope(agent: Option<AgentCard>): (j: Json)
    ensures j.JObj? && "success" in j.fields && j.fields["success"] == JBool(agent.Some?)
    ensures agent.Some? ==>
      && j.fields.Keys == {"success", "agent", "message"}
      && j.fields["agent"] == CardToJson(agent.value)
      && CardFromJson(j.fields["agent"]) == agent
      && j.fields["message"] == JStr("Discovered agent: " + agent.value.name)
    ensures agent.None? ==>
      && j.fields.Keys == {"success", "message"}
      && j.fields["message"] == JStr("Failed to discover agent")
  {
    match agent
    case Some(card) =>
      CardJsonRoundTrip(card);
      JObj(map[
        "success" := JBool(true),
        "agent" := CardToJson(card),
        "message" := JStr("Discovered agent: " + card.name)])
    case None =>
      JObj(map["success" := JBool(false), "message" := JStr("Failed to discover agent")])
  }

  /**
   * The `a2a_list_agents` result: success, every card in the given order, and
   * a count equal to the number of cards.
   */
  function ListEnvelope(cards: seq<AgentCard>): (j: Json)
    ensures j.JObj? && j.fields.Keys == {"success", "agents", "count"}
    ensures j.fields["success"] == JBool(true) && j.fields["count"] == JNum(|cards|)
    ensures j.fields["agents"].JArr? && |j.fields["agents"].items| == |cards|
    ensures forall i :: 0 <= i < |cards| ==> j.fields["agents"].items[i] == CardToJson(cards[i])
    ensures forall i :: 0 <= i < |cards| ==> CardFromJson(j.fields["agents"].items[i]) == Some(cards[i])
  {
    var agents := seq(|cards|, i requires 0 <= i < |cards| => CardToJson(cards[i]));
    assert forall i :: 0 <= i < |cards| ==> CardFromJson(agents[i]) == Some(cards[i]) by {
      forall i | 0 <= i < |cards| ensures CardFromJson(agents[i]) == Some(cards[i]) {
        CardJsonRoundTrip(cards[i]);
      }
    }
    JObj(map["success" := JBool(true), "agents" := JArr(agents), "count" := JNum(|agents|)])
  }

  /**
   * The `a2a_send` result: `success` is `"error" not in result`. For a dict
   * that is "no error key"; a list or string result is searched for "error";
   * for null, a number or a boolean Python raises TypeError.
   */
  function SendEnvelope(result: Json): (o: Outcome)
    ensures o.Raised? <==> result.JNull? || result.JBool? || result.JNum?
    ensures o.Raised? ==> o.exception == TypeError("argument of type '" + TypeName(result) + "' is not iterable")
    ensures result.JObj? ==>
      o == Returned(JObj(map["success" := JBool("error" !in result.fields), "response" := result]))
    ensures result.JArr? ==>
      o == Returned(JObj(map["success" := JBool(JStr("error") !in result.items), "response" := result]))
    ensures result.JStr? ==>
      o == Returned(JObj(map["success" := JBool(!exists i :: OccursAt("error", result.s, i)), "response" := result]))
    ensures o.Returned? ==>
      && o.body.JObj? && o.body.fields.Keys == {"success", "response"}
      && o.body.fields["response"] == result
  {
    match PyContains("error", result)
    case None => Raised(TypeError("argument of type '" + TypeName(result) + "' is not iterable"))
    case Some(hasError) => Returned(JObj(map["success" := JBool(!hasError), "response" := result]))
  }

  /** The unknown-tool result: only an error naming the tool, no `success` flag. */
  function UnknownToolEnvelope(toolName: string): (j: Json)
    ensures j.JObj? && j.fields.Keys == {"error"} && "success" !in j.fields
    ensures j.fields["error"] == JStr("Unknown tool: " + toolName)
  {
    ErrorObject("Unknown tool: " + toolName)
  }

  /**
   * `handle_tool_call(tool_name, arguments)` on a registry: a closed
   * three-way routing on the name, with the unknown-tool error for any other
   * name. A missing argument raises KeyError at the point the source reads it.
   */
  function ToolCall(reg: Registry, toolName: string, args: Arguments, net: Network, now: string): (s: Step)
    requires reg.Valid()
    ensures s.after.Valid()
    ensures toolName != "a2a_discover" ==> s.after == reg
  {
    if toolName == "a2a_discover" then
      if "endpoint" !in args then Step(Raised(KeyError("endpoint")), reg)
      else
        var d := Discover(reg, args["endpoint"], net, now);
        Step(Returned(DiscoverEnvelope(d.card)), d.after)
    else if toolName == "a2a_list_agents" then
      Step(Returned(ListEnvelope(reg.Values())), reg)
    else if toolName == "a2a_send" then
      if "message" !in args then Step(Raised(KeyError("message")), reg)
      else if "agent_name" !in args then Step(Raised(KeyError("agent_name")), reg)
      else
        var sent := Send(reg, args["agent_name"], WrapText(args["message"]), net);
        Step(SendEnvelope(sent.result), reg)
    else
      Step(Returned(UnknownToolEnvelope(toolName)), reg)
  }

  /** Any name outside the table gives the unknown-tool error and leaves the registry alone. */
  lemma UnknownToolRejected(reg: Registry, toolName: string, args: Arguments, net: Network, now: string)
    requires reg.Valid()
    requires Lookup(RegisterTools(), toolName).None?
    ensures ToolCall(reg, toolName, args, net, now) == Step(Returned(ErrorObject("Unknown tool: " + toolName)), reg)
  {
    RegisteredNames(toolName);
  }

  /** The unknown-tool error is given for exactly the names the table does not hold. */
  lemma DispatchCoversTable(reg: Registry, toolName: string, args: Arguments, net: Network, now: string)
    requires reg.Valid()
    ensures ToolCall(reg, toolName, args, net, now).outcome == Returned(UnknownToolEnvelope(toolName))
      <==> Lookup(RegisterTools(), toolName).None?
  {
    RegisteredNames(toolName);
    var o := ToolCall(reg, toolName, args, net, now).outcome;
    if toolName in ToolNames && o.Returned? {
      assert "success" in o.body.fields;
    }
  }

  /**
   * A registered tool raises KeyError exactly when an argument its schema
   * declares required is missing, and the key it names is one of those.
   */
  lemma KeyErrorIffRequiredMissing(reg: Registry, i: nat, args: Arguments, net: Network, now: string)
    requires reg.Valid() && i < |RegisterTools()|
    ensures var tool := RegisterTools()[i].1;
      var o := ToolCall(reg, tool.name, args, net, now).outcome;
      && ((o.Raised? && o.exception.KeyError?) <==> exists k :: k in RequiredArguments(tool) && k !in args)
      && (o.Raised? && o.exception.KeyError? ==> o.exception.key in RequiredArguments(tool) && o.exception.key !in args)
  {
    RequiredArgumentsOfTools();
  }

  /**
   * `a2a_discover` reports success exactly when discovery returned a card,
   * and then carries that card.
   */
  lemma DiscoverToolReportsCard(reg: Registry, endpoint: string, args: Arguments, net: Network, now: string)
    requires reg.Valid() && "endpoint" in args && args["endpoint"] == endpoint
    ensures var s := ToolCall(reg, "a2a_discover", args, net, now);
      var d := Discover(reg, endpoint, net, now);
      && s.outcome.Returned? && s.after == d.after
      && s.outcome.body.fields["success"] == JBool(d.card.Some?)
      && (d.card.Some? <==> "agent" in s.outcome.body.fields)
      && (d.card.Some? ==> CardFromJson(s.outcome.body.fields["agent"]) == d.card)
  {
  }

  /**
   * `a2a_list_agents` returns every record in registry order, and its count
   * is the number of registered agents.
   */
  lemma ListToolReportsRegistry(reg: Registry, args: Arguments, net: Network, now: string)
    requires reg.Valid()
    ensures var o := ToolCall(reg, "a2a_list_agents", args, net, now).outcome;
      && o.Returned?
      && o.body.fields["count"] == JNum(|reg.agents|)
      && |o.body.fields["agents"].items| == |reg.order|
      && forall i :: 0 <= i < |reg.order| ==>
           CardFromJson(o.body.fields["agents"].items[i]) == Some(reg.agents[reg.order[i]])
  {
    ValuesCountsRegistry(reg);
  }

  /**
   * `a2a_send` to an agent that was never discovered reports failure with the
   * not-discovered error, and no POST is made.
   */
  lemma SendToUnknownAgent(reg: Registry, args: Arguments, net: Network, now: string)
    requires reg.Valid() && "message" in args && "agent_name" in args && args["agent_name"] !in reg.agents
    ensures var name := args["agent_name"];
      && Send(reg, name, WrapText(args["message"]), net).posted.None?
      && ToolCall(reg, "a2a_send", args, net, now).outcome == Returned(JObj(map[
           "success" := JBool(false),
           "response" := ErrorObject("Agent " + name + " not discovered")]))
  {
  }

  /**
   * When the unwrapped reply is a dict, `a2a_send` reports success exactly
   * when that dict has no "error" key, and returns the dict as the response.
   */
  lemma SendToolSuccessIffNoError(reg: Registry, args: Arguments, net: Network, now: string)
    requires reg.Valid() && "message" in args && "agent_name" in args
    requires Send(reg, args["agent_name"], WrapText(args["message"]), net).result.JObj?
    ensures var result := Send(reg, args["agent_name"], WrapText(args["message"]), net).result;
      var o := ToolCall(reg, "a2a_send", args, net, now).outcome;
      && o.Returned?
      && o.body.fields["response"] == result
      && (o.body.fields["success"] == JBool(true) <==> "error" !in result.fields)
  {
  }

  /**
   * A discovered agent that answers 200 with `{"result": null}` makes
   * `a2a_send` raise TypeError: the source's `"error" not in result` is not
   * defined on None.
   */
  lemma SendRaisesOnNullResult(reg: Registry, args: Arguments, net: Network, now: string)
    requires reg.Valid() && "message" in args && "agent_name" in args && args["agent_name"] in reg.agents
    requires net.post(SendRequest(reg.agents[args["agent_name"]].endpoint, WrapText(args["message"])))
      == Replied(200, Parsed(JObj(map["result" := JNull])))
    ensures ToolCall(reg, "a2a_send", args, net, now).outcome
      == Raised(TypeError("argument of type 'NoneType' is not iterable"))
  {
    NullReplyResult(reg, args["agent_name"], WrapText(args["message"]), net);
    SendToolOutcome(reg, args, net, now);
    assert "argument of type '" + TypeName(JNull) + "' is not iterable" == "argument of type 'NoneType' is not iterable";
  }

  lemma NullReplyResult(reg: Registry, name: string, message: A2AMessage, net: Network)
    requires name in reg.agents
    requires net.post(SendRequest(reg.agents[name].endpoint, message)) == Replied(200, Parsed(JObj(map["result" := JNull])))
    ensures Send(reg, name, message, net).result == JNull
  {
    EchoReplyUnwrapped(JNull);
  }

  /** With both arguments present, `a2a_send` is the envelope of what sending returned. */
  lemma SendToolOutcome(reg: Registry, args: Arguments, net: Network, now: string)
    requires reg.Valid() && "message" in args && "agent_name" in args
    ensures ToolCall(reg, "a2a_send", args, net, now)
      == Step(SendEnvelope(Send(reg, args["agent_name"], WrapText(args["message"]), net).result), reg)
  {
  }

  /** The `params` of a `tools/call` request; both fields may be absent. */
  datatype CallParams = CallParams(name: Option<string>, arguments: Option<Arguments>)

  /** An MCP request after JSON decoding: its `method` (here `rpcMethod`) and `params`, both optional. */
  datatype McpRequest = McpRequest(rpcMethod: Option<string>, params: Option<CallParams>)

  /**
   * The routing of `handle_mcp_request`: `tools/list` lists the table,
   * `tools/call` dispatches the named tool, anything else is an unknown
   * method. A call without a name reaches `handle_tool_call` with None, which
   * answers exactly as for the name "None": the unknown-tool error naming None.
   */
  function McpRoute(reg: Registry, request: McpRequest, net: Network, now: string): (s: Step)
    requires reg.Valid()
    ensures s.after.Valid()
    ensures request.rpcMethod == Some("tools/list") ==> s == Step(Returned(ToolsListing(RegisterTools())), reg)
    ensures request.rpcMethod != Some("tools/list") && request.rpcMethod != Some("tools/call") ==>
      s == Step(Returned(ErrorObject("Unknown method")), reg)
  {
    if request.rpcMethod == Some("tools/list") then
      Step(Returned(ToolsListing(RegisterTools())), reg)
    else if request.rpcMethod == Some("tools/call") then
      var params := request.params.GetOr(CallParams(None, None));
      ToolCall(reg, params.name.GetOr("None"), params.arguments.GetOr(map[]), net, now)
    else
      Step(Returned(ErrorObject("Unknown method")), reg)
  }

  /** A `tools/call` is exactly the named tool call with the given arguments. */
  lemma McpCallDispatches(reg: Registry, name: string, args: Arguments, net: Network, now: string)
    requires reg.Valid()
    ensures McpRoute(reg, McpRequest(Some("tools/call"), Some(CallParams(Some(name), Some(args)))), net, now)
      == ToolCall(reg, name, args, net, now)
  {
  }

  /** A `tools/call` without a tool name is answered with the unknown-tool error for None. */
  lemma McpCallWithoutName(reg: Registry, params: Option<CallParams>, net: Network, now: string)
    requires reg.Valid()
    requires params.None? || params.value.name.None?
    ensures McpRoute(reg, McpRequest(Some("tools/call"), params), net, now)
      == Step(Returned(ErrorObject("Unknown tool: None")), reg)
  {
    var p := params.GetOr(CallParams(None, None));
    assert p.name.GetOr("None") == "None";
    RegisteredNames("None");
    UnknownToolRejected(reg, "None", p.arguments.GetOr(map[]), net, now);
    assert "Unknown tool: " + "None" == "Unknown tool: None";
    assert McpRoute(reg, McpRequest(Some("tools/call"), params), net, now)
      == ToolCall(reg, "None", p.arguments.GetOr(map[]), net, now);
  }

  /** The server object: the bridge it owns and its constant tool table. */
  class MCPServer {
    const bridge: A2ABridge
    const tools: seq<(string, MCPTool)>

    ghost predicate Valid()
      reads this, bridge
    {
      bridge.Valid() && tools == RegisterTools()
    }

    constructor ()
      ensures Valid() && fresh(bridge) && bridge.Snapshot() == EmptyRegistry
    {
      bridge := new A2ABridge();
      tools := RegisterTools();
    }

    method HandleToolCall(toolName: string, args: Arguments, net: Network, now: string) returns (outcome: Outcome)
      requires Valid()
      modifies bridge
      ensures Valid()
      ensures var s := ToolCall(old(bridge.Snapshot()), toolName, args, net, now);
        outcome == s.outcome && bridge.Snapshot() == s.after
    {
      if toolName == "a2a_discover" {
        if "endpoint" !in args {
          return Raised(KeyError("endpoint"));
        }
        var agent := bridge.DiscoverAgent(args["endpoint"], net, now);
        outcome := Returned(DiscoverEnvelope(agent));
      } else if toolName == "a2a_list_agents" {
        var agents := bridge.ListAgents();
        outcome := Returned(ListEnvelope(agents));
      } else if toolName == "a2a_send" {
        if "message" !in args {
          return Raised(KeyError("message"));
        }
        var message := WrapText(args["message"]);
        if "agent_name" !in args {
          return Raised(KeyError("agent_name"));
        }
        var result, _ := bridge.SendMessage(args["agent_name"], message, net);
        outcome := SendEnvelope(result);
      } else {
        outcome := Returned(UnknownToolEnvelope(toolName));
      }
    }

    method HandleMcpRequest(request: McpRequest, net: Network, now: string) returns (response: Outcome)
      requires Valid()
      modifies bridge
      ensures Valid()
      ensures var s := McpRoute(old(bridge.Snapshot()), request, net, now);
        response == s.outcome && bridge.Snapshot() == s.after
    {
      if request.rpcMethod == Some("tools/list") {
        response := Returned(ToolsListing(tools));
      } else if request.rpcMethod == Some("tools/call") {
        var params := request.params.GetOr(CallParams(None, None));
        response := HandleToolCall(params.name.GetOr("None"), params.arguments.GetOr(map[]), net, now);
      } else {
        response := Returned(ErrorObject("Unknown method"));
      }
    }
  }

  /**
   * Discovering http://a.test whose card document is
   * `{"name": "Echo", "capabilities": ["chat"]}` on an empty registry records
   * one agent "Echo" with capability "chat" and auth type "none".
   */
  lemma EchoDiscovered(net: Network)
    requires net.get("http://a.test/.well-known/agent-card.json")
      == Fetched(200, Some(CardDocument(Some("Echo"), Some(["chat"]), None)))
    ensures var card := AgentCard("Echo", "http://a.test", ["chat"], "none", Some("t0"));
      Discover(EmptyRegistry, "http://a.test", net, "t0")
        == Discovery(Some(card), Registry(map["Echo" := card], ["Echo"]))
  {
    assert "http://a.test" + WellKnownPath == "http://a.test/.well-known/agent-card.json";
    assert CardUrl("http://a.test") == "http://a.test" + WellKnownPath;
    EmptyRegistryValid();
    var card := AgentCard("Echo", "http://a.test", ["chat"], "none", Some("t0"));
    assert CardFromDocument("http://a.test", CardDocument(Some("Echo"), Some(["chat"]), None), "t0") == card;
  }

  /**
   * Discover an agent named "Echo" at http://a.test, then send it "hi" and
   * receive its reply, using only the contracts above.
   */
  method DiscoverAndSend()
  {
    var server := new MCPServer();
    var doc := CardDocument(Some("Echo"), Some(["chat"]), None);
    var reply := JObj(map["text" := JStr("hi back")]);
    var net := Network(
      url => if url == "http://a.test/.well-known/agent-card.json" then Fetched(200, Some(doc)) else FetchFailed("unreachable"),
      post => Replied(200, Parsed(JObj(map["result" := reply]))));

    var found := server.HandleToolCall("a2a_discover", map["endpoint" := "http://a.test"], net, "t0");
    EchoDiscovered(net);
    var card := AgentCard("Echo", "http://a.test", ["chat"], "none", Some("t0"));
    assert server.bridge.Snapshot() == Registry(map["Echo" := card], ["Echo"]);

    var sent := server.HandleToolCall("a2a_send", map["agent_name" := "Echo", "message" := "hi"], net, "t1");
    EchoReplyUnwrapped(reply);
    assert sent == Returned(JObj(map["success" := JBool(true), "response" := reply]));
  }
}
