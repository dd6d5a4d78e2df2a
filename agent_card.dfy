/**
 * Agent cards: the record the bridge keeps per remote agent, the
 * well-known document it is read from, and how a discovery response
 * becomes a card (server.py, `AgentCard` and `A2ABridge.discover_agent`).
 */
module AgentCards {
  import opened Wrappers
  import opened Json

  /**
   * One remote agent as the bridge records it. The dataclass declares
   * `auth_type` defaulting to "api_key" and `discovered_at` to None; discovery
   * always supplies both, so those defaults are never observed.
   */
  datatype AgentCard = AgentCard(
    name: string,
    endpoint: string,
    capabilities: seq<string>,
    authType: string,
    discoveredAt: Option<string>)

  /** The `auth` object of an agent-card document; `type` may be absent. */
  datatype AuthDocument = AuthDocument(authType: Option<string>)

  /** A decoded agent-card document: every field is optional. */
  datatype CardDocument = CardDocument(
    name: Option<string>,
    capabilities: Option<seq<string>>,
    auth: Option<AuthDocument>)

  /**
   * What the GET of the well-known URL produced. `document` is `None` when
   * the body could not be turned into a card: not JSON, not an object, an
   * `auth` that is not an object, or a `name` that is a list or an object
   * (unhashable, so storing the card raises). Every such case raises inside
   * the source's `try` block, so discovery returns None and stores nothing.
   */
  datatype FetchOutcome =
    | Fetched(status: nat, document: Option<CardDocument>)
    | FetchFailed(reason: string)

  const WellKnownPath: string := "/.well-known/agent-card.json"
  const UnknownName: string := "Unknown"
  const NoAuth: string := "none"

  /** The URL discovery fetches: the endpoint followed by the fixed well-known path. */
  function CardUrl(endpoint: string): (url: string)
    ensures |url| == |endpoint| + |WellKnownPath|
    ensures url[..|endpoint|] == endpoint && url[|endpoint|..] == WellKnownPath
  {
    endpoint + WellKnownPath
  }

  /** Recovers the endpoint from a well-known URL; `None` for any other URL. */
  function EndpointOfCardUrl(url: string): (r: Option<string>)
    ensures r.Some? ==> CardUrl(r.value) == url
  {
    if |url| >= |WellKnownPath| && url[|url| - |WellKnownPath|..] == WellKnownPath then
      var e := url[..|url| - |WellKnownPath|];
      assert e + WellKnownPath == url;
      Some(e)
    else None
  }

  lemma CardUrlRoundTrip(endpoint: string)
    ensures EndpointOfCardUrl(CardUrl(endpoint)) == Some(endpoint)
  {
    var url := CardUrl(endpoint);
    assert url[|url| - |WellKnownPath|..] == WellKnownPath;
    assert url[..|url| - |WellKnownPath|] == endpoint;
  }

  /** The card built from a document served with status 200, stamped `now`. */
  function CardFromDocument(endpoint: string, doc: CardDocument, now: string): (card: AgentCard)
    ensures card.endpoint == endpoint && card.discoveredAt == Some(now)
    ensures card.name == if doc.name.Some? then doc.name.value else "Unknown"
    ensures card.capabilities == if doc.capabilities.Some? then doc.capabilities.value else []
    ensures doc.auth.Some? && doc.auth.value.authType.Some? ==> card.authType == doc.auth.value.authType.value
    ensures doc.auth.None? || doc.auth.value.authType.None? ==> card.authType == "none"
  {
    AgentCard(
      doc.name.GetOr(UnknownName),
      endpoint,
      doc.capabilities.GetOr([]),
      match doc.auth
      case None => NoAuth
      case Some(a) => a.authType.GetOr(NoAuth),
      Some(now))
  }

  /**
   * The outcome of one discovery GET: a card exactly when the status is 200
   * and the body is a card document; `None` for any other status and for any
   * failure.
   */
  function CardFromFetch(endpoint: string, outcome: FetchOutcome, now: string): (r: Option<AgentCard>)
    ensures r.Some? <==> outcome.Fetched? && outcome.status == 200 && outcome.document.Some?
    ensures r.Some? ==> r.value.endpoint == endpoint && r.value.discoveredAt == Some(now)
    ensures r.Some? ==> r.value == CardFromDocument(endpoint, outcome.document.value, now)
  {
    if outcome.Fetched? && outcome.status == 200 && outcome.document.Some? then
      Some(CardFromDocument(endpoint, outcome.document.value, now))
    else None
  }

  /** The document an agent publishes for a card: every field present. */
  function DocumentOf(card: AgentCard): (doc: CardDocument)
  {
    CardDocument(Some(card.name), Some(card.capabilities), Some(AuthDocument(Some(card.authType))))
  }

  /**
   * Re-discovering a card from the document that describes it gives the same
   * card back, at the same endpoint and time: no field is lost or rewritten.
   */
  lemma RediscoverPublishedCard(card: AgentCard)
    requires card.discoveredAt.Some?
    ensures CardFromDocument(card.endpoint, DocumentOf(card), card.discoveredAt.value) == card
  {
  }

  /** `asdict(card)`: the card as the JSON object tool results carry. */
  function CardToJson(card: AgentCard): (j: Json)
    ensures j.JObj? && j.fields.Keys == {"name", "endpoint", "capabilities", "auth_type", "discovered_at"}
  {
    JObj(map[
      "name" := JStr(card.name),
      "endpoint" := JStr(card.endpoint),
      "capabilities" := JArr(StringsToJson(card.capabilities)),
      "auth_type" := JStr(card.authType),
      "discovered_at" := match card.discoveredAt case None => JNull case Some(t) => JStr(t)])
  }

  /** Reads a card back from its JSON form; `None` for anything of another shape. */
  function CardFromJson(j: Json): (r: Option<AgentCard>)
  {
    if !j.JObj? then None
    else
      var m := j.fields;
      if "name" in m && m["name"].JStr? && "endpoint" in m && m["endpoint"].JStr?
        && "capabilities" in m && m["capabilities"].JArr? && "auth_type" in m && m["auth_type"].JStr?
        && "discovered_at" in m && (m["discovered_at"].JNull? || m["discovered_at"].JStr?)
      then
        match StringsFromJson(m["capabilities"].items)
        case None => None
        case Some(caps) =>
          Some(AgentCard(m["name"].s, m["endpoint"].s, caps, m["auth_type"].s,
            if m["discovered_at"].JNull? then None else Some(m["discovered_at"].s)))
      else None
  }

  /** The JSON form of a card (what `a2a_discover` and `a2a_list_agents` return) loses nothing. */
  lemma CardJsonRoundTrip(card: AgentCard)
    ensures CardFromJson(CardToJson(card)) == Some(card)
  {
    StringsRoundTrip(card.capabilities);
  }
}
