/**
 * The message translator: a plain text message becomes an A2A message, the
 * message becomes a JSON-RPC `message/send` request, and the reply becomes
 * the result the tool returns (server.py, `A2AMessage`,
 * `A2ABridge.send_message` and the wrapping in `MCPServer.handle_tool_call`).
 */
module Messages {
  import opened Wrappers
  import opened Json
  import opened Decimal

  /** One content part of a message; the bridge only ever builds text parts. */
  datatype Part = TextPart(text: string)

  /** An A2A message: a role ("user" or "agent") and its ordered parts. */
  datatype A2AMessage = A2AMessage(role: string, parts: seq<Part>)

  /** An HTTP POST as the bridge issues it. */
  datatype HttpPost = HttpPost(url: string, contentType: string, payload: Json)

  /** The body of a reply, or the reason it could not be decoded as JSON. */
  datatype Decoded = Parsed(value: Json) | Undecodable(reason: string)

  /** What a POST produced: a reply with a status, or an exception with its text. */
  datatype PostOutcome =
    | Replied(status: nat, body: Decoded)
    | PostFailed(reason: string)

  const A2APath: string := "/api/a2a"
  const JsonContentType: string := "application/json"
  const FailedCallPrefix: string := "A2A call failed: "
  const NoGetSuffix: string := "' object has no attribute 'get'"

  /** A plain string as the user's message: role "user", one text part. */
  function WrapText(text: string): (m: A2AMessage)
    ensures m.role == "user" && |m.parts| == 1 && m.parts[0] == TextPart(text)
  {
    A2AMessage("user", [TextPart(text)])
  }

  /** The text of a message that is a single text part from the user. */
  function TextOf(m: A2AMessage): Option<string> {
    if m.role == "user" && |m.parts| == 1 then Some(m.parts[0].text) else None
  }

  lemma WrapTextRoundTrip(text: string)
    ensures TextOf(WrapText(text)) == Some(text)
  {
  }

  function PartToJson(p: Part): (j: Json)
    ensures j.JObj? && j.fields.Keys == {"kind", "text"}
  {
    JObj(map["kind" := JStr("text"), "text" := JStr(p.text)])
  }

  function PartFromJson(j: Json): Option<Part> {
    if j.JObj? && "kind" in j.fields && j.fields["kind"] == JStr("text")
      && "text" in j.fields && j.fields["text"].JStr?
    then Some(TextPart(j.fields["text"].s))
    else None
  }

  function PartsToJson(ps: seq<Part>): (r: seq<Json>)
    ensures |r| == |ps| && forall i :: 0 <= i < |ps| ==> r[i] == PartToJson(ps[i])
  {
    seq(|ps|, i requires 0 <= i < |ps| => PartToJson(ps[i]))
  }

  function PartsFromJson(items: seq<Json>): Option<seq<Part>>
    decreases |items|
  {
    if items == [] then Some([])
    else
      match PartFromJson(items[0])
      case None => None
      case Some(p) =>
        match PartsFromJson(items[1..])
        case None => None
        case Some(rest) => Some([p] + rest)
  }

  /** `asdict(message)`. */
  function MessageToJson(m: A2AMessage): (j: Json)
    ensures j.JObj? && j.fields.Keys == {"role", "parts"}
  {
    JObj(map["role" := JStr(m.role), "parts" := JArr(PartsToJson(m.parts))])
  }

  /** How a receiving agent reads a message object back. */
  function MessageFromJson(j: Json): Option<A2AMessage> {
    if j.JObj? && "role" in j.fields && j.fields["role"].JStr? && "parts" in j.fields && j.fields["parts"].JArr? then
      match PartsFromJson(j.fields["parts"].items)
      case None => None
      case Some(ps) => Some(A2AMessage(j.fields["role"].s, ps))
    else None
  }

  lemma {:induction false} PartsRoundTrip(ps: seq<Part>)
    ensures PartsFromJson(PartsToJson(ps)) == Some(ps)
    decreases |ps|
  {
    if ps != [] {
      PartsRoundTrip(ps[1..]);
      assert PartsToJson(ps)[1..] == PartsToJson(ps[1..]);
      assert [ps[0]] + ps[1..] == ps;
    }
  }

  /** A message survives its JSON encoding. */
  lemma MessageRoundTrip(m: A2AMessage)
    ensures MessageFromJson(MessageToJson(m)) == Some(m)
  {
    PartsRoundTrip(m.parts);
  }

  /** The JSON-RPC request that carries a message to a remote agent. */
  function SendPayload(m: A2AMessage): (j: Json)
    ensures j.JObj? && j.fields.Keys == {"jsonrpc", "id", "method", "params"}
    ensures j.fields["jsonrpc"] == JStr("2.0") && j.fields["id"] == JNum(1)
    ensures j.fields["method"] == JStr("message/send")
    ensures j.fields["params"] == JObj(map["message" := MessageToJson(m)])
  {
    JObj(map[
      "jsonrpc" := JStr("2.0"),
      "id" := JNum(1),
      "method" := JStr("message/send"),
      "params" := JObj(map["message" := MessageToJson(m)])])
  }

  /** How a receiving agent reads a `message/send` request: the message, or `None`. */
  function ReadSendRequest(j: Json): Option<A2AMessage> {
    if j.JObj? && "jsonrpc" in j.fields && j.fields["jsonrpc"] == JStr("2.0")
      && "method" in j.fields && j.fields["method"] == JStr("message/send")
      && "params" in j.fields && j.fields["params"].JObj? && "message" in j.fields["params"].fields
    then MessageFromJson(j.fields["params"].fields["message"])
    else None
  }

  /**
   * The text handed to `a2a_send` reaches the remote agent intact: reading the
   * payload back yields a single-part user message with that text.
   */
  lemma PayloadDeliversText(text: string)
    ensures var m := ReadSendRequest(SendPayload(WrapText(text)));
      m == Some(WrapText(text)) && TextOf(m.value) == Some(text)
  {
    MessageRoundTrip(WrapText(text));
  }

  /** The POST for a message to an agent at `endpoint`. */
  function SendRequest(endpoint: string, m: A2AMessage): (p: HttpPost)
    ensures p.url == endpoint + "/api/a2a" && p.contentType == "application/json"
    ensures p.payload == SendPayload(m)
    ensures ReadSendRequest(p.payload) == Some(m)
  {
    MessageRoundTrip(m);
    HttpPost(endpoint + A2APath, JsonContentType, SendPayload(m))
  }

  /** The error a non-200 reply turns into. */
  function FailedCallText(status: nat): (s: string)
    ensures |s| > |FailedCallPrefix| && s[..|FailedCallPrefix|] == "A2A call failed: "
    ensures ParseDecimal(s[|FailedCallPrefix|..]) == Some(status)
    ensures forall i :: |FailedCallPrefix| <= i < |s| ==> IsDigit(s[i])
    ensures |s| > |FailedCallPrefix| + 1 ==> s[|FailedCallPrefix|] != '0'
  {
    var s := FailedCallPrefix + NatToString(status);
    assert s[|FailedCallPrefix|..] == NatToString(status);
    ParseNatToString(status);
    s
  }

  /** The error text Python gives for `.get` on a decoded value that is not a dict. */
  function NoGetText(v: Json): (s: string)
    ensures |s| == 1 + |TypeName(v)| + |NoGetSuffix|
    ensures s[0] == '\'' && OccursAt(TypeName(v), s, 1)
    ensures s[1 + |TypeName(v)|..] == "' object has no attribute 'get'"
  {
    var s := "'" + TypeName(v) + NoGetSuffix;
    assert s[1..1 + |TypeName(v)|] == TypeName(v);
    assert s[1 + |TypeName(v)|..] == NoGetSuffix;
    s
  }

  /**
   * The reply as `send_message` returns it: for status 200 the reply's
   * `result` (an empty object when absent), for any other status an error
   * carrying the status, and for an exception an error carrying its text.
   */
  function UnwrapReply(o: PostOutcome): (r: Json)
    ensures o.Replied? && o.status != 200 ==> r == ErrorObject("A2A call failed: " + NatToString(o.status))
    ensures o.PostFailed? ==> r == ErrorObject(o.reason)
    ensures o.Replied? && o.status == 200 && o.body.Undecodable? ==> r == ErrorObject(o.body.reason)
    ensures o.Replied? && o.status == 200 && o.body.Parsed? && o.body.value.JObj? ==>
      var m := o.body.value.fields;
      r == if "result" in m then m["result"] else JObj(map[])
    ensures o.Replied? && o.status == 200 && o.body.Parsed? && !o.body.value.JObj? ==>
      r == ErrorObject(NoGetText(o.body.value))
  {
    match o
    case PostFailed(reason) => ErrorObject(reason)
    case Replied(status, body) =>
      if status != 200 then ErrorObject(FailedCallText(status))
      else
        match body
        case Undecodable(reason) => ErrorObject(reason)
        case Parsed(v) =>
          if !v.JObj? then ErrorObject(NoGetText(v))
          else if "result" in v.fields then v.fields["result"]
          else JObj(map[])
  }

  /** The status a failed-call error reports, read back from its text; `None` for any other value. */
  function FailedStatus(r: Json): Option<nat> {
    if r.JObj? && "error" in r.fields && r.fields["error"].JStr? then
      var e := r.fields["error"].s;
      if |e| >= |FailedCallPrefix| && e[..|FailedCallPrefix|] == FailedCallPrefix
      then ParseDecimal(e[|FailedCallPrefix|..])
      else None
    else None
  }

  /** A non-200 reply is reported with exactly its status code. */
  lemma FailedStatusReported(status: nat, body: Decoded)
    requires status != 200
    ensures FailedStatus(UnwrapReply(Replied(status, body))) == Some(status)
  {
    var e := FailedCallText(status);
    assert e[..|FailedCallPrefix|] == FailedCallPrefix;
    assert e[|FailedCallPrefix|..] == NatToString(status);
    ParseNatToString(status);
  }

  /**
   * An agent that answers a message with `{"result": r}` hands `r` back
   * unchanged, whatever the message.
   */
  lemma EchoReplyUnwrapped(r: Json)
    ensures UnwrapReply(Replied(200, Parsed(JObj(map["result" := r])))) == r
  {
  }
}
