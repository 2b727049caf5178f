/** The critical sections of broker.go and registry.go, as functions on the tables they guard. */
module BrokerTables {
  import opened Protocol

  /** broker.go:125. */
  function Attached(agents: map<DeviceId, ConnId>, d: DeviceId): Option<ConnId> {
    if d in agents then Some(agents[d]) else None
  }

  /** broker.go:128. */
  function Attach(agents: map<DeviceId, ConnId>, d: DeviceId, k: ConnId): map<DeviceId, ConnId> {
    agents[d := k]
  }

  /** broker.go:160-162: only the connection that is still attached removes itself. */
  function Detach(agents: map<DeviceId, ConnId>, d: DeviceId, k: ConnId): map<DeviceId, ConnId> {
    if d in agents && agents[d] == k then agents - {d} else agents
  }

  /** broker.go:189. */
  function Insert(sessions: map<SessionId, ConnId>, s: SessionId, k: ConnId): map<SessionId, ConnId> {
    sessions[s := k]
  }

  /** broker.go:217. */
  function Drop(sessions: map<SessionId, ConnId>, s: SessionId): map<SessionId, ConnId> {
    sessions - {s}
  }

  /** registry.go:35. */
  function Add(registry: map<DeviceId, ConnId>, d: DeviceId, k: ConnId): map<DeviceId, ConnId> {
    registry[d := k]
  }

  /** registry.go:41; not guarded by identity. */
  function Remove(registry: map<DeviceId, ConnId>, d: DeviceId): map<DeviceId, ConnId> {
    registry - {d}
  }
}
