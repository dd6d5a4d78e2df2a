/**
 * The A2A side of the bridge (server.py, class `A2ABridge`): the registry of
 * discovered agents, discovery, and sending a message to a discovered agent.
 * The network is a parameter: `get` is the outcome of a GET of a URL, `post`
 * the outcome of a POST.
 */
module Bridge {
  import opened Wrappers
  import opened Json
  import opened AgentCards
  import opened Messages

  /** The remote side as seen by one call. */
  datatype Network = Network(get: string -> FetchOutcome, post: HttpPost -> PostOutcome)

  /**
   * The registry: cards by name, and the names in the order they were first
   * inserted (the order of a Python dict, which keeps a key's position when
   * its value is reassigned).
   */
  datatype Registry = Registry(agents: map<string, AgentCard>, order: seq<string>) {

    /**
     * Every key appears exactly once in `order`, every record is stored under
     * its own name, and every record carries the stamp of the discovery that
     * produced it.
     */
    ghost predicate Valid() {
      && (forall k :: k in agents <==> k in order)
      && (forall i, j :: 0 <= i < j < |order| ==> order[i] != order[j])
      && (forall k :: k in agents ==> agents[k].name == k && agents[k].discoveredAt.Some?)
    }

    /** `discovered_agents.get(name)`: the record stored under `name`, if any. */
    function Get(name: string): (r: Option<AgentCard>)
      ensures r.Some? <==> name in agents
      ensures r.Some? ==> r.value == agents[name]
      ensures Valid() && r.Some? ==> r.value.name == name && r.value.discoveredAt.Some?
    {
      if name in agents then Some(agents[name]) else None
    }

    /**
     * `discovered_agents[card.name] = card`: the card is stored under its
     * name, replacing any earlier record of that name (last discovery wins);
     * every other name keeps its record, and every existing name keeps its
     * position.
     */
    function Upsert(card: AgentCard): (r: Registry)
      requires Valid() && card.discoveredAt.Some?
      ensures r.Valid()
      ensures r.Get(card.name) == Some(card)
      ensures forall k :: k != card.name ==> r.Get(k) == Get(k)
      ensures r.agents.Keys == agents.Keys + {card.name}
      ensures |r.order| == |order| + (if card.name in agents then 0 else 1)
      ensures r.order[..|order|] == order
    {
      Registry(agents[card.name := card], if card.name in agents then order else order + [card.name])
    }

    /** `discovered_agents.values()`: the records in registry order. */
    function Values(): (r: seq<AgentCard>)
      requires Valid()
      ensures |r| == |order| && forall i :: 0 <= i < |order| ==> r[i] == agents[order[i]]
    {
      Project(agents, order)
    }
  }

  const EmptyRegistry: Registry := Registry(map[], [])

  function Project(agents: map<string, AgentCard>, keys: seq<string>): (r: seq<AgentCard>)
    requires forall k :: k in keys ==> k in agents
    ensures |r| == |keys| && forall i :: 0 <= i < |keys| ==> r[i] == agents[keys[i]]
    decreases |keys|
  {
    if keys == [] then [] else [agents[keys[0]]] + Project(agents, keys[1..])
  }

  lemma EmptyRegistryValid()
    ensures EmptyRegistry.Valid() && EmptyRegistry.Values() == []
  {
  }

  lemma {:induction false} DistinctSize(s: seq<string>)
    requires forall i, j :: 0 <= i < j < |s| ==> s[i] != s[j]
    ensures |set x | x in s| == |s|
    decreases |s|
  {
    if s != [] {
      DistinctSize(s[1..]);
      assert (set x | x in s) == {s[0]} + (set x | x in s[1..]);
      assert s[0] !in s[1..];
    }
  }

  /** The listing holds one record per registered name. */
  lemma ValuesCountsRegistry(reg: Registry)
    requires reg.Valid()
    ensures |reg.Values()| == |reg.agents|
  {
    DistinctSize(reg.order);
    assert reg.agents.Keys == set x | x in reg.order;
  }

  /** Every registered record appears in the listing. */
  lemma ValuesListsEveryRecord(reg: Registry, name: string)
    requires reg.Valid() && name in reg.agents
    ensures exists i :: 0 <= i < |reg.Values()| && reg.Values()[i] == reg.agents[name]
  {
    var i :| 0 <= i < |reg.order| && reg.order[i] == name;
    assert reg.Values()[i] == reg.agents[name];
  }

  /**
   * The listing after an upsert: a new name adds its card at the end; a
   * re-discovered name has its card replaced in place, every other entry
   * unchanged.
   */
  lemma ValuesAfterUpsert(reg: Registry, card: AgentCard)
    requires reg.Valid() && card.discoveredAt.Some?
    ensures card.name !in reg.agents ==> reg.Upsert(card).Values() == reg.Values() + [card]
    ensures card.name in reg.agents ==>
      exists i :: 0 <= i < |reg.order| && reg.order[i] == card.name
        && reg.Upsert(card).Values() == reg.Values()[i := card]
  {
    if card.name !in reg.agents {
      ValuesAfterInsert(reg, card);
    } else {
      var i :| 0 <= i < |reg.order| && reg.order[i] == card.name;
      ValuesAfterReplace(reg, card, i);
    }
  }

  lemma ValuesAfterInsert(reg: Registry, card: AgentCard)
    requires reg.Valid() && card.discoveredAt.Some? && card.name !in reg.agents
    ensures reg.Upsert(card).Values() == reg.Values() + [card]
  {
    var agents', order' := reg.agents[card.name := card], reg.order + [card.name];
    assert reg.Upsert(card) == Registry(agents', order');
    ProjectAppend(reg.agents, reg.order, card);
  }

  lemma ProjectAppend(agents: map<string, AgentCard>, keys: seq<string>, card: AgentCard)
    requires forall k :: k in keys ==> k in agents
    requires card.name !in keys
    ensures Project(agents[card.name := card], keys + [card.name]) == Project(agents, keys) + [card]
  {
    var a := agents[card.name := card];
    var l, r := Project(a, keys + [card.name]), Project(agents, keys) + [card];
    forall j | 0 <= j < |l|
      ensures l[j] == r[j]
    {
      if j < |keys| {
        assert (keys + [card.name])[j] == keys[j];
      }
    }
  }

  lemma ValuesAfterReplace(reg: Registry, card: AgentCard, i: int)
    requires reg.Valid() && card.discoveredAt.Some?
    requires 0 <= i < |reg.order| && reg.order[i] == card.name
    ensures reg.Upsert(card).Values() == reg.Values()[i := card]
  {
    var r := reg.Upsert(card);
    var old_, new_ := reg.Values(), r.Values();
    assert r.order == reg.order;
    forall j | 0 <= j < |new_|
      ensures new_[j] == old_[i := card][j]
    {
      if j != i {
        assert reg.order[j] != card.name;
      }
    }
  }

  /** The result of one discovery: the card, if any, and the registry afterwards. */
  datatype Discovery = Discovery(card: Option<AgentCard>, after: Registry)

  /**
   * `discover_agent(endpoint)`: fetch the well-known card; on success store
   * the card and return it, otherwise return `None` and leave the registry
   * exactly as it was.
   */
  function Discover(reg: Registry, endpoint: string, net: Network, now: string): (d: Discovery)
    requires reg.Valid()
    ensures d.after.Valid()
    ensures d.card == CardFromFetch(endpoint, net.get(CardUrl(endpoint)), now)
    ensures d.card.Some? ==> d.after == reg.Upsert(d.card.value)
    ensures d.card.None? ==> d.after == reg
  {
    match CardFromFetch(endpoint, net.get(CardUrl(endpoint)), now)
    case None => Discovery(None, reg)
    case Some(card) => Discovery(Some(card), reg.Upsert(card))
  }

  /**
   * Discovering again against an unchanged remote document at the same time
   * changes nothing: discovery is idempotent.
   */
  lemma RediscoveryIdempotent(reg: Registry, endpoint: string, net: Network, now: string)
    requires reg.Valid()
    ensures var d := Discover(reg, endpoint, net, now);
      Discover(d.after, endpoint, net, now) == d
  {
    var d := Discover(reg, endpoint, net, now);
    if d.card.Some? {
      var card := d.card.value;
      assert d.after.agents[card.name := card] == d.after.agents;
    }
  }

  /**
   * Discovering again later against an unchanged document only refreshes the
   * record's stamp: the names, their order and every other field stay.
   */
  lemma RediscoveryRefreshesStamp(reg: Registry, endpoint: string, net: Network, now: string, later: string)
    requires reg.Valid()
    requires Discover(reg, endpoint, net, now).card.Some?
    ensures var d1 := Discover(reg, endpoint, net, now);
      var d2 := Discover(d1.after, endpoint, net, later);
      var name := d1.card.value.name;
      && d2.card == Some(d1.card.value.(discoveredAt := Some(later)))
      && d2.after.order == d1.after.order
      && d2.after.agents == d1.after.agents[name := d1.card.value.(discoveredAt := Some(later))]
  {
  }

  /** What one send produced: the result, and the POST issued if any. */
  datatype Sent = Sent(result: Json, posted: Option<HttpPost>)

  /**
   * `send_message(agent_name, message)`: an undiscovered name is an error and
   * nothing is posted; otherwise the message is posted to the agent's
   * endpoint and the reply unwrapped.
   */
  function Send(reg: Registry, agentName: string, message: A2AMessage, net: Network): (s: Sent)
    ensures agentName !in reg.agents <==> s.posted.None?
    ensures agentName !in reg.agents ==> s.result == ErrorObject("Agent " + agentName + " not discovered")
    ensures agentName in reg.agents ==>
      && s.posted == Some(SendRequest(reg.agents[agentName].endpoint, message))
      && s.result == UnwrapReply(net.post(s.posted.value))
  {
    if agentName !in reg.agents then Sent(ErrorObject("Agent " + agentName + " not discovered"), None)
    else
      var request := SendRequest(reg.agents[agentName].endpoint, message);
      Sent(UnwrapReply(net.post(request)), Some(request))
  }

  /**
   * After an agent is discovered, sending it a text posts to the agent's
   * `<endpoint>/api/a2a`, and the payload reads back as the wrapped text.
   */
  lemma SendToDiscoveredAgent(reg: Registry, endpoint: string, net: Network, now: string, text: string)
    requires reg.Valid()
    requires Discover(reg, endpoint, net, now).card.Some?
    ensures var d := Discover(reg, endpoint, net, now);
      var s := Send(d.after, d.card.value.name, WrapText(text), net);
      && s.posted.Some?
      && s.posted.value.url == endpoint + "/api/a2a"
      && ReadSendRequest(s.posted.value.payload) == Some(WrapText(text))
  {
  }

  /** The bridge object: its mutable registry, updated in place by discovery. */
  class A2ABridge {
    var discoveredAgents: map<string, AgentCard>
    var order: seq<string>

    function Snapshot(): Registry
      reads this
    {
      Registry(discoveredAgents, order)
    }

    ghost predicate Valid()
      reads this
    {
      Snapshot().Valid()
    }

    constructor ()
      ensures Valid() && Snapshot() == EmptyRegistry
    {
      discoveredAgents := map[];
      order := [];
    }

    method DiscoverAgent(endpoint: string, net: Network, now: string) returns (agent: Option<AgentCard>)
      requires Valid()
      modifies this
      ensures Valid()
      ensures agent == Discover(old(Snapshot()), endpoint, net, now).card
      ensures Snapshot() == Discover(old(Snapshot()), endpoint, net, now).after
    {
      var outcome := net.get(CardUrl(endpoint));
      if outcome.Fetched? && outcome.status == 200 && outcome.document.Some? {
        var card := CardFromDocument(endpoint, outcome.document.value, now);
        if card.name !in discoveredAgents {
          order := order + [card.name];
        }
        discoveredAgents := discoveredAgents[card.name := card];
        agent := Some(card);
      } else {
        agent := None;
      }
    }

    method SendMessage(agentName: string, message: A2AMessage, net: Network) returns (result: Json, posted: Option<HttpPost>)
      ensures agentName !in discoveredAgents ==>
        result == ErrorObject("Agent " + agentName + " not discovered") && posted == None
      ensures Sent(result, posted) == Send(Snapshot(), agentName, message, net)
    {
      if agentName !in discoveredAgents {
        return ErrorObject("Agent " + agentName + " not discovered"), None;
      }
      var agent := discoveredAgents[agentName];
      var request := SendRequest(agent.endpoint, message);
      var reply := net.post(request);
      result := UnwrapReply(reply);
      posted := Some(request);
    }

    /** `[asdict(a) for a in discovered_agents.values()]`, before the `asdict`. */
    method ListAgents() returns (cards: seq<AgentCard>)
      requires Valid()
      ensures cards == Snapshot().Values()
    {
      cards := [];
      var i := 0;
      while i < |order|
        invariant 0 <= i <= |order|
        invariant |cards| == i
        invariant forall j :: 0 <= j < i ==> cards[j] == discoveredAgents[order[j]]
      {
        cards := cards + [discoveredAgents[order[i]]];
        i := i + 1;
      }
    }
  }
}
