// Online agents and their capacity counters (cloud/internal/registry/registry.go).
module Registry {
  import opened Options
  import opened JobModel

  // Times are in milliseconds.
  const WINDOW := 60000

  // What is known of one agent.
  datatype Info = Info(hostname: string, max: int, paused: bool, running: int, lastHeartbeat: int, connectedAt: int)

  type Agents = map<AgentId, Info>

  function Registered(m: Agents, id: AgentId, hostname: string, max: int, now: int): Agents {
    if id in m
    then m[id := m[id].(hostname := hostname, max := max, lastHeartbeat := now)]
    else m[id := Info(hostname, max, false, 0, now, now)]
  }

  function Beaten(m: Agents, id: AgentId, paused: bool, running: int, now: int): Agents {
    if id in m then m[id := m[id].(lastHeartbeat := now, paused := paused, running := running)] else m
  }

  // Some(info) when the agent is registered and was heard from within the window.
  function Lookup(m: Agents, id: AgentId, now: int): Option<Info> {
    if id !in m || now - m[id].lastHeartbeat >= WINDOW then None else Some(m[id])
  }

  // An agent that registers is seen with what it said for one minute; one that was known keeps
  // its mood and its counter, a new one is ready and has no jobs. Nobody else is affected.
  lemma RegisteredIsSeen(m: Agents, id: AgentId, hostname: string, max: int, now: int, later: int, other: AgentId)
    ensures var info := Lookup(Registered(m, id, hostname, max, now), id, later);
      && (info.Some? <==> later - now < 60_000)
      && (info.Some? ==>
            && info.value.hostname == hostname && info.value.max == max && info.value.lastHeartbeat == now
            && (info.value.paused <==> id in m && m[id].paused)
            && info.value.running == (if id in m then m[id].running else 0)
            && info.value.connectedAt == (if id in m then m[id].connectedAt else now))
    ensures other != id ==>
              Lookup(Registered(m, id, hostname, max, now), other, later) == Lookup(m, other, later)
  {}

  // A heartbeat keeps a known agent in sight for one minute, with the mood and the count it
  // gives and nothing else changed; it makes nobody known.
  lemma BeatenIsSeen(m: Agents, id: AgentId, paused: bool, running: int, now: int, later: int, other: AgentId)
    ensures Lookup(Beaten(m, id, paused, running, now), id, later)
         == if id in m && later - now < 60_000
            then Some(Info(m[id].hostname, m[id].max, paused, running, now, m[id].connectedAt)) else None
    ensures other != id ==> Lookup(Beaten(m, id, paused, running, now), other, later) == Lookup(m, other, later)
  {}

  // One record of the registry; callers keep pointers to it.
  class AgentInfo {
    var hostname: string
    var max: int
    var paused: bool
    var running: int
    var lastHeartbeat: int
    var connectedAt: int

    constructor (hostname: string, max: int, now: int)
      ensures View() == Info(hostname, max, false, 0, now, now)
    {
      this.hostname, this.max := hostname, max;
      paused, running := false, 0;
      lastHeartbeat, connectedAt := now, now;
    }

    ghost function View(): Info
      reads this
    {
      Info(hostname, max, paused, running, lastHeartbeat, connectedAt)
    }
  }

  class AgentRegistry {
    var agents: map<AgentId, AgentInfo>

    constructor ()
      ensures Valid() && View() == map[]
    {
      agents := map[];
    }

    ghost function Records(): set<AgentInfo>
      reads this
    {
      agents.Values
    }

    // No two agents share a record.
    ghost predicate Valid()
      reads this
    {
      forall a, b | a in agents && b in agents && a != b :: agents[a] != agents[b]
    }

    ghost function View(): Agents
      reads this, Records()
    {
      map a | a in agents :: agents[a].View()
    }

    method Register(id: AgentId, hostname: string, max: int, now: int)
      requires Valid()
      modifies this, Records()
      ensures Valid() && fresh(Records() - old(Records()))
      ensures View() == Registered(old(View()), id, hostname, max, now)
    {
      if id in agents {
        var agent := agents[id];
        agent.hostname := hostname;
        agent.max := max;
        agent.lastHeartbeat := now;
      } else {
        var agent := new AgentInfo(hostname, max, now);
        agents := agents[id := agent];
      }
    }

    method UpdateHeartbeat(id: AgentId, paused: bool, running: int, now: int)
      requires Valid()
      modifies Records()
      ensures View() == Beaten(old(View()), id, paused, running, now)
    {
      if id in agents {
        var agent := agents[id];
        agent.lastHeartbeat := now;
        agent.paused := paused;
        agent.running := running;
      }
    }

    method Unregister(id: AgentId)
      requires Valid()
      modifies this
      ensures Valid() && Records() <= old(Records())
      ensures View() == old(View()) - {id}
    {
      agents := agents - {id};
    }

    method GetAgent(id: AgentId, now: int) returns (agent: AgentInfo?, online: bool)
      requires Valid()
      ensures online <==> agent != null
      ensures Lookup(View(), id, now) == if agent == null then None else Some(agent.View())
      ensures online ==> id in agents && agent == agents[id]
    {
      if id !in agents || now - agents[id].lastHeartbeat >= WINDOW {
        return null, false;
      }
      return agents[id], true;
    }
  }
}
