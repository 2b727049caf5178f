/** The broker's two tables and their critical sections, on objects. Each method is what broker.go does
    between one `b.mu.Lock` and its `Unlock`, or, for CloseSession, between two of them; its contract
    ties the tables to the functions of BrokerTables.dfy that the network uses. */
module Broker {
  import opened Protocol
  import T = BrokerTables

  /** A registered agent's control session; `id` tells one `*agentConn` from another. */
  class AgentConn {
    const id: ConnId
    const device: DeviceId
    var closed: bool

    constructor (id: ConnId, device: DeviceId)
      ensures this.id == id && this.device == device && !closed
    {
      this.id := id;
      this.device := device;
      closed := false;
    }

    method Close()
      modifies this
      ensures closed
    {
      closed := true;
    }
  }

  /** A browser's websocket: what was written to it, whether it was closed, and whether a write to it has
      failed; a failed write stays failed. */
  class Browser {
    var shown: seq<Bytes>
    var closed: bool
    var broken: bool

    constructor ()
      ensures shown == [] && !closed && !broken
    {
      shown, closed, broken := [], false, false;
    }

    /** `up` tells whether the socket still takes data. */
    method WriteMessage(data: Bytes, up: bool) returns (ok: bool)
      modifies this`shown, this`broken
      ensures ok <==> up && !closed && !old(broken)
      ensures shown == (if ok then old(shown) + [data] else old(shown)) && broken == !ok
    {
      ok := up && !closed && !broken;
      if ok { shown := shown + [data]; } else { broken := true; }
    }

    method Close()
      modifies this`closed
      ensures closed
    {
      closed := true;
    }
  }

  datatype SessionPipe = SessionPipe(browser: Browser, agent: AgentConn)

  function Ids(agents: map<DeviceId, AgentConn>): map<DeviceId, ConnId> {
    map d | d in agents :: agents[d].id
  }

  function Owners(sessions: map<SessionId, SessionPipe>): map<SessionId, ConnId> {
    map s | s in sessions :: sessions[s].agent.id
  }

  class Broker {
    var agents: map<DeviceId, AgentConn>
    var sessions: map<SessionId, SessionPipe>

    constructor ()
      ensures agents == map[] && sessions == map[]
    {
      agents := map[];
      sessions := map[];
    }

    /** Identifiers tell the attached connections apart from `ac`. */
    ghost predicate Distinct(ac: AgentConn)
      reads this
    {
      forall d | d in agents :: agents[d].id == ac.id ==> agents[d] == ac
    }

    /** broker.go:124-129. */
    method Attach(ac: AgentConn)
      modifies this`agents, agents.Values
      ensures agents == old(agents)[ac.device := ac]
      ensures Ids(agents) == T.Attach(Ids(old(agents)), ac.device, ac.id)
      ensures ac.device in old(agents) ==> old(agents)[ac.device].closed
      ensures forall d | d in old(agents) && (ac.device !in old(agents) || old(agents)[d] != old(agents)[ac.device]) ::
                old(agents)[d].closed == old(agents[d].closed)
    {
      if ac.device in agents {
        agents[ac.device].Close();
      }
      agents := agents[ac.device := ac];
    }

    /** broker.go:159-163. */
    method Detach(ac: AgentConn)
      requires Distinct(ac)
      modifies this`agents
      ensures agents == if ac.device in old(agents) && old(agents)[ac.device] == ac
                        then old(agents) - {ac.device} else old(agents)
      ensures Ids(agents) == T.Detach(Ids(old(agents)), ac.device, ac.id)
    {
      if ac.device in agents && agents[ac.device] == ac {
        agents := agents - {ac.device};
      }
    }

    /** broker.go:176-178. */
    method Lookup(device: DeviceId) returns (ac: AgentConn?)
      ensures ac != null <==> device in agents
      ensures ac != null ==> ac == agents[device]
    {
      if device in agents { ac := agents[device]; } else { ac := null; }
    }

    /** broker.go:188-190. */
    method Insert(session: SessionId, browser: Browser, ac: AgentConn)
      modifies this`sessions
      ensures sessions == old(sessions)[session := SessionPipe(browser, ac)]
      ensures Owners(sessions) == T.Insert(Owners(old(sessions)), session, ac.id)
    {
      sessions := sessions[session := SessionPipe(browser, ac)];
    }

    /** broker.go:147-153: one `out` frame; the outcome of the write is ignored. */
    method Output(session: SessionId, data: Bytes, up: bool)
      modifies if session in sessions then {sessions[session].browser} else {}
      ensures session in sessions ==>
                var browser, ok := sessions[session].browser,
                                   up && !old(sessions[session].browser.closed) && !old(sessions[session].browser.broken);
                && browser.shown == (if ok then old(sessions[session].browser.shown) + [data]
                                     else old(sessions[session].browser.shown))
                && browser.broken == !ok && browser.closed == old(sessions[session].browser.closed)
    {
      if session in sessions {
        var _ := sessions[session].browser.WriteMessage(data, up);
      }
    }

    /** broker.go:214-222. */
    method CloseSession(session: SessionId)
      modifies this`sessions, if session in sessions then {sessions[session].browser} else {}
      ensures sessions == old(sessions) - {session}
      ensures Owners(sessions) == T.Drop(Owners(old(sessions)), session)
      ensures session in old(sessions) ==> old(sessions)[session].browser.closed
    {
      if session in sessions {
        var browser := sessions[session].browser;
        sessions := sessions - {session};
        browser.Close();
      } else {
        sessions := sessions - {session};
      }
    }
  }
}
