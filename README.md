# MCP–A2A bridge: a verified model of the bridge core

This project models the bridge logic of `server.py` in Dafny. The server
exposes three MCP tools (`a2a_discover`, `a2a_list_agents`, `a2a_send`). It
turns calls to them into requests against remote A2A agents, and turns the
replies back into tool results.

The model covers:

- **the agent registry**: `A2ABridge.discovered_agents`, a dict from agent
  name to `AgentCard`. Here it is a class with a map field and the keys'
  insertion order. A re-discovered name keeps its position, as in a Python
  dict.
- **discovery**: the well-known URL, building a card from a 200 response
  with its defaults ("Unknown", `[]`, "none"), the upsert, and `None` for
  every other outcome.
- **message translation and send**: wrapping a string as a one-part user
  message, the JSON-RPC `message/send` payload, the POST to
  `<endpoint>/api/a2a`, and unwrapping the reply.
- **tool dispatch**: the constant tool table, the three-way routing of
  `handle_tool_call` with its result envelopes, and the `method` routing of
  `handle_mcp_request`.

The network, the clock and JSON decoding are inputs:

- A `Network` value gives the outcome of a GET of a URL and of a POST of a
  request.
- `now` is the discovery timestamp.
- Documents and requests arrive already decoded: the JSON datatype
  `Json.Json`, typed card documents, and typed MCP requests.

`A2ABridge.SendMessage` also returns the POST it issued, if any. This makes
"no network call for an unknown agent" observable.

Modules, one file each:

- `Wrappers` (`wrappers.dfy`)
- `Json` (`json.dfy`): decoded values, plus Python's `in` on them
- `Decimal` (`decimal.dfy`): `str(int)` for status codes
- `AgentCards` (`agent_card.dfy`)
- `Messages` (`message.dfy`)
- `Bridge` (`bridge.dfy`): the registry and class `A2ABridge`
- `Tools` (`tools.dfy`): the tool table
- `Server` (`server.dfy`): dispatch, routing and class `MCPServer`

Each method of the two classes is specified by a pure function of the
registry. `Bridge.Discover`, `Server.ToolCall` and `Server.McpRoute`
specify the state-changing `DiscoverAgent`, `HandleToolCall` and
`HandleMcpRequest` on the old registry. `Bridge.Send` specifies the
read-only `SendMessage`, which changes nothing. The lemmas state the
source's promises about those functions.

`Server.DiscoverAndSend` is a client of these contracts. It builds a
server, discovers an agent "Echo" at http://a.test, and sends it "hi". It
then asserts that the reply `{"text": "hi back"}` comes back with
`success` true. It has no contract of its own, so it has no row below.

Behaviour of the code that the model keeps as written:

- **A tool call can raise.** `handle_tool_call` neither checks its arguments
  before reading them nor guards the `success` test:
  - A missing `endpoint`, `message` or `agent_name` raises KeyError.
    Modelled as `Raised(KeyError(..))` (`Server.KeyErrorIffRequiredMissing`).
  - `"error" not in result` raises TypeError when the remote's `result` is
    null, a number or a boolean (`Server.SendRaisesOnNullResult`).
  - For a list or string result, the same test searches for an element or a
    substring "error".
- **Default auth type.** The dataclass default `auth_type = "api_key"` is
  never used: discovery always passes `auth_type`, defaulting to "none". The
  model has only the discovery path.
- **Unknown tool.** The unknown-tool result is `{"error": ...}` without a
  `success` flag, as in the code.
- **Name collisions.** Records are keyed by the agent's declared name, so
  two endpoints that declare the same name overwrite each other. The last
  one discovered wins (`Bridge.Registry.Upsert`).

## Model

| member | source | states |
|---|---|---|
| `AgentCards.CardUrl` | server.py:62 | the discovery URL is the endpoint followed by exactly `/.well-known/agent-card.json` |
| `AgentCards.CardUrlRoundTrip` | server.py:62 | the endpoint can be recovered from its discovery URL |
| `AgentCards.CardFromDocument` | server.py:67-73 | the card built from a 200 document: each field is the document's value when present, else "Unknown", `[]`, "none"; the endpoint is the argument; the stamp is `now` |
| `AgentCards.CardToJson` | server.py:177 | `asdict(card)` has exactly the five dataclass keys; `CardJsonRoundTrip` shows it loses nothing |
| `AgentCards.CardFromFetch` | server.py:64-78 | a card results exactly when the status is 200 and the body is a card document; that card is `CardFromDocument` of the document, so its name, capabilities and auth type are the document's (or their defaults), with the given endpoint and the `now` stamp; otherwise `None` |
| `AgentCards.RediscoverPublishedCard` | server.py:67-73 | a card rebuilt from the document describing it is the same card: no field is lost or rewritten |
| `AgentCards.CardJsonRoundTrip` | server.py:177 | `asdict(card)` loses nothing: the card reads back from its JSON form |
| `Json.PyContains` | server.py:203 | Python's `"error" in v`: key for a dict, element for a list, substring for a string, TypeError otherwise |
| `Json.IsSubstring` | server.py:203 | `p in s` for strings holds exactly when `p` occurs at some index of `s` |
| `Json.StringsRoundTrip` | server.py:70 | a list of strings survives its JSON form |
| `Decimal.NatToString` | server.py:107 | `str(status)`: non-empty, digits only, no leading zero |
| `Decimal.DigitsValueOfNatToString` | server.py:107 | reading the formatted status back gives the status |
| `Decimal.ParseNatToString` | server.py:107 | parsing the formatted status gives the status |
| `Decimal.NatToStringInjective` | server.py:107 | distinct statuses produce distinct error texts |
| `Messages.WrapText` | server.py:192-195 | the wrapped message has role "user" and exactly one part, a text part holding the argument |
| `Messages.WrapTextRoundTrip` | server.py:192-195 | the text can be read back from the wrapped message |
| `Messages.PartsToJson` | server.py:93 | one JSON part per part, in order, each `asdict` of that part |
| `Messages.MessageToJson` | server.py:93 | `asdict(message)` has exactly keys role and parts; `MessageRoundTrip` shows it loses nothing |
| `Messages.PartsRoundTrip` | server.py:93 | the parts list survives `asdict` |
| `Messages.MessageRoundTrip` | server.py:93 | a message survives `asdict` |
| `Messages.SendPayload` | server.py:88-95 | the payload has exactly keys jsonrpc="2.0", id=1, method="message/send" and params={"message": asdict(message)} |
| `Messages.PayloadDeliversText` | server.py:88-95 | a receiver reading the payload recovers the single-part user message and its text |
| `Messages.SendRequest` | server.py:88-101 | the POST goes to `<endpoint>/api/a2a` with content type application/json; its body is exactly the `message/send` payload of `SendPayload` (id 1, no other keys), from which a receiver reads the message back |
| `Messages.UnwrapReply` | server.py:102-109 | 200 with an object body gives `result`, or `{}` when absent; other statuses give `{"error": "A2A call failed: <status>"}`; exceptions give `{"error": <text>}` |
| `Messages.FailedCallText` | server.py:107 | the non-200 error text is "A2A call failed: " followed by `str(status)`: digits only, no leading zero, parsing back to the status |
| `Messages.NoGetText` | server.py:104-109 | the AttributeError text for `.get` on a non-dict 200 body names the value's Python type and ends "' object has no attribute 'get'" |
| `Messages.FailedStatusReported` | server.py:106-107 | the error for a non-200 reply names exactly that status |
| `Messages.EchoReplyUnwrapped` | server.py:103-105 | a reply `{"result": r}` yields `r` unchanged |
| `Bridge.Registry.Upsert` | server.py:74 | the card is stored under its name; last discovery wins; other names keep their records; existing names keep their positions; the registry invariant holds |
| `Bridge.Registry.Get` | server.py:82-85 | a record is found exactly for a registered name; it is the one stored under that name and, in a valid registry, carries that name and a discovery stamp |
| `Bridge.Registry.Values` | server.py:183 | the listing has one record per name in insertion order, each the record stored under that name |
| `Bridge.Project` | server.py:183 | the records for a list of keys, position by position |
| `Bridge.EmptyRegistryValid` | server.py:50 | a new registry is valid and lists nothing |
| `Bridge.DistinctSize` | server.py:183 | a list of distinct names has as many elements as its set |
| `Bridge.ValuesCountsRegistry` | server.py:183-187 | the listing length equals the number of registered agents |
| `Bridge.ValuesListsEveryRecord` | server.py:183 | every registered record appears in the listing |
| `Bridge.ValuesAfterUpsert` | server.py:74 | after an upsert, a new name's card is appended; a re-discovered name's card is replaced in place |
| `Bridge.ValuesAfterInsert` | server.py:74 | inserting a new name appends its card to the listing |
| `Bridge.ValuesAfterReplace` | server.py:74 | re-discovering a name replaces its card at its old position and changes nothing else |
| `Bridge.Discover` | server.py:58-78 | on success the card is upserted and returned; on any other outcome `None` comes back and the registry is exactly unchanged |
| `Bridge.RediscoveryIdempotent` | server.py:58-78 | discovering again with an unchanged document at the same time changes nothing |
| `Bridge.RediscoveryRefreshesStamp` | server.py:72-74 | discovering again later only refreshes `discovered_at`; names, order and other fields stay |
| `Bridge.Send` | server.py:80-109 | an unknown name gives `{"error": "Agent <name> not discovered"}` and no POST; otherwise the message is posted to the agent and the reply unwrapped |
| `Bridge.SendToDiscoveredAgent` | server.py:85-101 | after discovering an agent, sending to it posts to `<endpoint>/api/a2a` a payload carrying the wrapped text |
| `Bridge.A2ABridge.constructor` | server.py:49-50 | the bridge starts with an empty registry |
| `Bridge.A2ABridge.DiscoverAgent` | server.py:58-78 | in place: the result and the new registry are those of `Discover` on the old registry; the invariant holds |
| `Bridge.A2ABridge.SendMessage` | server.py:80-109 | the result and the POST issued are those of `Send`; no POST and the not-discovered error for an unknown name |
| `Bridge.A2ABridge.ListAgents` | server.py:183 | the loop collects the registry's records in insertion order |
| `Tools.RegisterTools` | server.py:124-167 | the table has exactly the entries a2a_discover, a2a_list_agents, a2a_send, in that order; each key equals its descriptor's name |
| `Tools.Lookup` | server.py:124-167 | a name has a descriptor exactly when it is a key of the table, and the descriptor found is one stored under that key |
| `Tools.RegisteredNames` | server.py:126-167 | a name is in the table exactly when it is one of the three tool names, and its descriptor carries that name |
| `Tools.RequiredArgumentsOfTools` | server.py:126-167 | the schemas require `endpoint`; nothing; `agent_name` and `message` |
| `Tools.ToolToJson` | server.py:224 | `asdict(tool)` has exactly keys name, description and parameters, carrying the tool's name, description and schema |
| `Tools.ToolsListing` | server.py:222-225 | `tools/list` returns every descriptor of the table, in table order |
| `Tools.ListingNamesThreeTools` | server.py:222-225 | the listing has exactly three descriptors, named a2a_discover, a2a_list_agents, a2a_send |
| `Server.DiscoverEnvelope` | server.py:172-180 | `success` is true exactly when a card was discovered; the result then carries exactly `asdict(card)` (five keys, readable back) and "Discovered agent: <name>"; otherwise "Failed to discover agent" |
| `Server.ListEnvelope` | server.py:182-188 | success is true; `agents` holds exactly `asdict` of every card, in the given order, each readable back; `count` is their number |
| `Server.SendEnvelope` | server.py:202-205 | `success` is `"error" not in result`: no error key for a dict, no "error" element for a list, no "error" substring for a string; null, numbers and booleans raise TypeError |
| `Server.UnknownToolEnvelope` | server.py:207-208 | the unknown-tool result has only an `error` key, reading "Unknown tool: <name>", and no `success` flag |
| `Server.ToolCall` | server.py:169-208 | the routing keeps the registry valid; only `a2a_discover` can change it |
| `Server.UnknownToolRejected` | server.py:207-208 | any name outside the table gives `{"error": "Unknown tool: <name>"}` and leaves the registry unchanged |
| `Server.DispatchCoversTable` | server.py:169-208 | the unknown-tool error is returned exactly for the names the tool table does not hold |
| `Server.KeyErrorIffRequiredMissing` | server.py:172-200 | a registered tool raises KeyError exactly when an argument its schema requires is missing, naming such an argument |
| `Server.DiscoverToolReportsCard` | server.py:172-180 | `a2a_discover` reports success exactly when discovery returned a card, and then carries that card; the registry is discovery's |
| `Server.ListToolReportsRegistry` | server.py:182-188 | `a2a_list_agents` returns every record in registry order; count equals the number of agents |
| `Server.SendToUnknownAgent` | server.py:82-83 | sending to an undiscovered name reports failure with the not-discovered error, and nothing is posted |
| `Server.SendToolSuccessIffNoError` | server.py:202-205 | for a dict result, `success` holds exactly when it has no "error" key, and the dict is the response |
| `Server.SendToolOutcome` | server.py:190-205 | with both arguments present, `a2a_send` is the envelope of what sending returned |
| `Server.NullReplyResult` | server.py:104-105 | a 200 reply `{"result": null}` makes sending return null |
| `Server.SendRaisesOnNullResult` | server.py:203 | a 200 reply `{"result": null}` makes `a2a_send` raise TypeError |
| `Server.McpRoute` | server.py:222-233 | `tools/list` returns the tool listing; any method other than `tools/list` or `tools/call` gives `{"error": "Unknown method"}`; the registry stays valid |
| `Server.McpCallDispatches` | server.py:227-231 | `tools/call` runs the named tool with the given arguments |
| `Server.McpCallWithoutName` | server.py:228 | `tools/call` without a name gives the unknown-tool error naming None |
| `Server.EchoDiscovered` | server.py:65-75 | discovering a document `{"name": "Echo", "capabilities": ["chat"]}` on an empty registry records one agent "Echo", capability "chat", auth type "none" |
| `Server.MCPServer.constructor` | server.py:119-122 | the server owns a fresh bridge with an empty registry and the constant tool table |
| `Server.MCPServer.HandleToolCall` | server.py:169-208 | in place: the outcome and the new registry are those of `ToolCall` on the old registry |
| `Server.MCPServer.HandleMcpRequest` | server.py:218-233 | in place: the response and the new registry are those of `McpRoute` on the old registry |

## Left out

- HTTP transport:
  - The aiohttp session lifecycle (`initialize`, `cleanup`) is not modelled.
  - The GET and POST themselves are not modelled. Their outcomes, including
    any exception text, are the `Network` parameter.
  - Outbound headers other than the content type are not modelled.
- JSON decoding:
  - Reply bodies (`resp.json()`) arrive already decoded. A reply body that
    cannot be decoded is an input case (`Undecodable`, or a card document of
    `None`).
  - The MCP request body (`request.json()`, server.py:220) arrives as a typed
    `McpRequest`, which has no undecodable case. An undecodable request
    makes the source raise JSONDecodeError out of the handler; the model
    does not represent it.
  - JSON numbers are integers; floats are not modelled.
  - The key order inside JSON objects is not modelled (objects are maps);
    list order is.
- Ill-typed values. Card documents, tool arguments and MCP requests are
  typed records, so some inputs cannot be written down:
  - A card `name` that is null, a number or a boolean is stored as given by
    the source.
  - A card `auth.type` that is null, a number, a boolean, a list or an object
    is stored as given by the source.
  - A card `capabilities` that is null or not a list is stored as given by
    the source.
  - A card `name` that is a list or an object is unhashable. Storing the card
    raises TypeError, the source catches it, and discovery returns None with
    the registry unchanged. The model can only express this as a document of
    `None`.
  - A non-string tool argument cannot be written down.
  - `"arguments"` that is null, a list, a string, a number or a boolean
    makes the source raise TypeError when a tool reads an argument
    (`a2a_discover`, `a2a_send`). The model's arguments are always a map, and
    a missing key gives KeyError instead.
  - A request body that is not an object makes the source raise
    AttributeError at the first `data.get`.
  - Under `tools/call` only, a `params` that is not an object makes the
    source raise AttributeError. The other methods never read `params`:
    `tools/list` returns the listing and an unknown method returns
    `{"error": "Unknown method"}` whatever `params` holds.
- `datetime.now().isoformat()`: the timestamp is the `now` parameter.
- Hosting:
  - `start()`, i.e. the aiohttp application, the TCP site and the wait, is
    not modelled; only its method routing is.
  - aiohttp's conversion of a raised exception into an HTTP 500 is not
    modelled: the model stops at `Raised`.
  - `main()` and logging are not modelled; logging does not affect results.
- asyncio concurrency: each call is one sequential step.
- Message parts of kinds other than text: the bridge never builds them.
- `test_client.py` is not part of this model. It is a demonstration client
  that only sends HTTP requests and prints the answers.
