/** The states of the asynchronous Central and its two records: a charging
    point (CP) and a supply session. Timestamps are opaque instants. */
module CentralData {
  import opened Wrappers

  type Time = int

  /** High-level state of a charging point; `Value` is the wire text. */
  datatype CPStatus = Disconnected | Available | PendingAuth | Supplying | Stopped | Fault
  {
    function Value(): string {
      match this
      case Disconnected => "DESCONECTADO"
      case Available => "ACTIVADO"
      case PendingAuth => "PENDIENTE_AUTORIZACION"
      case Supplying => "SUMINISTRANDO"
      case Stopped => "FUERA_DE_SERVICIO"
      case Fault => "AVERIA"
    }
  }

  /** Health reported by the CP monitor. */
  datatype HealthStatus = Ok | Fault
  {
    function Value(): string {
      match this
      case Ok => "OK"
      case Fault => "AVERIA"
    }
  }

  /** State of a supply session. */
  datatype SessionState = Pending | Authorized | Denied | InProgress | Finished | Aborted
  {
    function Value(): string {
      match this
      case Pending => "PENDIENTE"
      case Authorized => "AUTORIZADA"
      case Denied => "DENEGADA"
      case InProgress => "EN_CURSO"
      case Finished => "FINALIZADA"
      case Aborted => "CANCELADA"
    }
  }

  /** Distinct states have distinct wire texts, so a receiver can tell them apart. */
  lemma WireValuesDistinct(a: CPStatus, b: CPStatus, x: SessionState, y: SessionState)
    ensures a.Value() == b.Value() ==> a == b
    ensures x.Value() == y.Value() ==> x == y
  {
  }

  datatype ChargingPoint = ChargingPoint(
    cpId: string,
    location: string,
    status: CPStatus,
    health: HealthStatus,
    currentSessionId: Option<string>,
    lastSeen: Option<Time>)

  /** A freshly created charging point: disconnected, healthy, idle, never seen. */
  function NewChargingPoint(cpId: string, location: string): (cp: ChargingPoint)
    ensures cp.cpId == cpId && cp.location == location
    ensures cp.status == Disconnected && cp.health == HealthStatus.Ok
    ensures cp.currentSessionId == None && cp.lastSeen == None
  {
    ChargingPoint(cpId, location, Disconnected, HealthStatus.Ok, None, None)
  }

  /** The persisted form of a charging point. */
  datatype StoredCp = StoredCp(cpId: string, location: string)

  /** `to_storage`: only the identity fields are written. */
  function ToStorage(cp: ChargingPoint): (s: StoredCp)
    ensures s.cpId == cp.cpId && s.location == cp.location
  {
    StoredCp(cp.cpId, cp.location)
  }

  /** Runtime fields are not persisted: two CPs that differ only in status,
      health, session or last contact store identically, and a stored CP
      loads back as a fresh one. */
  lemma StorageForgetsRuntime(cp: ChargingPoint, status: CPStatus, health: HealthStatus,
                              sid: Option<string>, seen: Option<Time>)
    ensures ToStorage(cp.(status := status, health := health, currentSessionId := sid, lastSeen := seen))
         == ToStorage(cp)
    ensures NewChargingPoint(ToStorage(cp).cpId, ToStorage(cp).location)
         == cp.(status := Disconnected, health := HealthStatus.Ok, currentSessionId := None, lastSeen := None)
  {
  }

  datatype SupplySession = SupplySession(
    sessionId: string,
    cpId: string,
    driverId: string,
    requestedKwh: Option<real>,
    state: SessionState,
    energyDelivered: real,
    amountDue: real,
    createdAt: Time,
    startedAt: Option<Time>,
    finishedAt: Option<Time>,
    reason: Option<string>)

  /** A new session: pending, nothing delivered or owed, not started, not
      finished, no reason. */
  function NewSession(sessionId: string, cpId: string, driverId: string,
                      requestedKwh: Option<real>, now: Time): (s: SupplySession)
    ensures s.sessionId == sessionId && s.cpId == cpId && s.driverId == driverId
    ensures s.requestedKwh == requestedKwh && s.createdAt == now
    ensures s.state == Pending && s.energyDelivered == 0.0 && s.amountDue == 0.0
    ensures s.startedAt == None && s.finishedAt == None && s.reason == None
  {
    SupplySession(sessionId, cpId, driverId, requestedKwh, Pending, 0.0, 0.0, now, None, None, None)
  }

  /** The dictionary `to_public_dict` builds for drivers and UIs. */
  datatype PublicSession = PublicSession(
    sessionId: string,
    cpId: string,
    driverId: string,
    requestedKwh: Option<real>,
    state: string,
    energyDelivered: real,
    amountDue: real,
    createdAt: Time,
    startedAt: Option<Time>,
    finishedAt: Option<Time>,
    reason: Option<string>)

  /** `to_public_dict`: every field copied, the state as its wire text, and
      no value for an unset start or finish time. */
  function ToPublic(s: SupplySession): (d: PublicSession)
    ensures d.sessionId == s.sessionId && d.cpId == s.cpId && d.driverId == s.driverId
    ensures d.state == s.state.Value()
    ensures d.energyDelivered == s.energyDelivered && d.amountDue == s.amountDue
    ensures d.startedAt == s.startedAt && d.finishedAt == s.finishedAt
    ensures d.requestedKwh == s.requestedKwh && d.createdAt == s.createdAt && d.reason == s.reason
  {
    PublicSession(s.sessionId, s.cpId, s.driverId, s.requestedKwh, s.state.Value(),
                  s.energyDelivered, s.amountDue, s.createdAt,
                  if s.startedAt.Some? then s.startedAt else None,
                  if s.finishedAt.Some? then s.finishedAt else None,
                  s.reason)
  }

  /** The public form loses nothing: it determines the session it came from. */
  lemma ToPublicInjective(a: SupplySession, b: SupplySession)
    requires ToPublic(a) == ToPublic(b)
    ensures a == b
  {
    WireValuesDistinct(Disconnected, Disconnected, a.state, b.state);
  }
}
