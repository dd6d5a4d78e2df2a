/**
 * The tool table the server advertises (server.py, `MCPTool` and
 * `MCPServer._register_tools`): three fixed descriptors, in declaration order.
 */
module Tools {
  import opened Wrappers
  import opened Json

  /** A tool: its name, a description and a JSON-Schema object for its arguments. */
  datatype MCPTool = MCPTool(name: string, description: string, parameters: Json)

  /** The tool names, in the order the table declares them. */
  const ToolNames: seq<string> := ["a2a_discover", "a2a_list_agents", "a2a_send"]

  function StringProperty(description: string): Json {
    JObj(map["type" := JStr("string"), "description" := JStr(description)])
  }

  /**
   * `_register_tools()`: the table as an ordered list of (key, descriptor)
   * entries. Its keys are exactly the three tool names, in order, and each
   * key is its descriptor's name.
   */
  function RegisterTools(): (table: seq<(string, MCPTool)>)
    ensures |table| == |ToolNames|
    ensures forall i :: 0 <= i < |table| ==> table[i].0 == ToolNames[i] && table[i].1.name == ToolNames[i]
  {
    [ ("a2a_discover", MCPTool(
        "a2a_discover",
        "Discover an A2A agent at a given endpoint",
        JObj(map[
          "type" := JStr("object"),
          "properties" := JObj(map["endpoint" := StringProperty("The base URL of the A2A agent")]),
          "required" := JArr([JStr("endpoint")])]))),
      ("a2a_list_agents", MCPTool(
        "a2a_list_agents",
        "List all discovered A2A agents",
        JObj(map[
          "type" := JStr("object"),
          "properties" := JObj(map[])]))),
      ("a2a_send", MCPTool(
        "a2a_send",
        "Send a message to a discovered A2A agent",
        JObj(map[
          "type" := JStr("object"),
          "properties" := JObj(map[
            "agent_name" := StringProperty("Name of the discovered agent"),
            "message" := StringProperty("Message to send")]),
          "required" := JArr([JStr("agent_name"), JStr("message")])])))
    ]
  }

  /** The descriptor stored under `name`, if any. */
  function Lookup(table: seq<(string, MCPTool)>, name: string): (r: Option<MCPTool>)
    ensures r.Some? <==> exists i :: 0 <= i < |table| && table[i].0 == name
    ensures r.Some? ==> exists i :: 0 <= i < |table| && table[i].0 == name && table[i].1 == r.value
    decreases |table|
  {
    if table == [] then None
    else if table[0].0 == name then Some(table[0].1)
    else
      var r := Lookup(table[1..], name);
      assert forall i :: 1 <= i < |table| ==> table[1..][i - 1] == table[i];
      r
  }

  /** The argument keys a descriptor's schema declares as required (none if it declares none). */
  function RequiredArguments(t: MCPTool): seq<string> {
    if t.parameters.JObj? && "required" in t.parameters.fields && t.parameters.fields["required"].JArr?
    then StringsFromJson(t.parameters.fields["required"].items).GetOr([])
    else []
  }

  /** A name is in the table exactly when it is one of the three tool names. */
  lemma RegisteredNames(name: string)
    ensures Lookup(RegisterTools(), name).Some? <==> name in ToolNames
    ensures Lookup(RegisterTools(), name).Some? ==> Lookup(RegisterTools(), name).value.name == name
  {
    var t := RegisterTools();
    if name in ToolNames {
      var i :| 0 <= i < |ToolNames| && ToolNames[i] == name;
      assert t[i].0 == name;
    }
  }

  /** What each schema declares required. */
  lemma RequiredArgumentsOfTools()
    ensures RequiredArguments(RegisterTools()[0].1) == ["endpoint"]
    ensures RequiredArguments(RegisterTools()[1].1) == []
    ensures RequiredArguments(RegisterTools()[2].1) == ["agent_name", "message"]
  {
    StringsRoundTrip(["endpoint"]);
    StringsRoundTrip(["agent_name", "message"]);
  }

  /** `asdict(tool)`. */
  function ToolToJson(t: MCPTool): (j: Json)
    ensures j.JObj? && j.fields.Keys == {"name", "description", "parameters"}
    ensures j.fields["name"] == JStr(t.name) && j.fields["parameters"] == t.parameters
    ensures j.fields["description"] == JStr(t.description)
  {
    JObj(map["name" := JStr(t.name), "description" := JStr(t.description), "parameters" := t.parameters])
  }

  /** The `tools/list` response: every descriptor of the table, in table order. */
  function ToolsListing(table: seq<(string, MCPTool)>): (j: Json)
    ensures j.JObj? && j.fields.Keys == {"tools"} && j.fields["tools"].JArr?
    ensures |j.fields["tools"].items| == |table|
    ensures forall i :: 0 <= i < |table| ==> j.fields["tools"].items[i] == ToolToJson(table[i].1)
  {
    JObj(map["tools" := JArr(seq(|table|, i requires 0 <= i < |table| => ToolToJson(table[i].1)))])
  }

  /** Listing the table gives exactly three descriptors, named in declaration order. */
  lemma ListingNamesThreeTools()
    ensures var items := ToolsListing(RegisterTools()).fields["tools"].items;
      && |items| == 3
      && forall i :: 0 <= i < 3 ==> items[i].JObj? && items[i].fields["name"] == JStr(ToolNames[i])
  {
  }
}
