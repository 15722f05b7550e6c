/** The asynchronous Central's state machine as pure functions over one
    value holding its four identity-keyed maps. Each function gives the state
    one operation of `CentralCore` leaves behind, including the messages it
    appends to the outbound channels; the class in module `Coordinator`
    performs the same steps in place and is proved equal to these. */
module CoreSpec {
  import opened Wrappers
  import opened CentralData

  /** What a `cp_state` broadcast and a snapshot say about one CP. */
  datatype CpView = CpView(cpId: string, location: string, status: string, health: string,
                           currentSessionId: Option<string>)

  function View(cp: ChargingPoint): CpView {
    CpView(cp.cpId, cp.location, cp.status.Value(), cp.health.Value(), cp.currentSessionId)
  }

  /** The extra key a health report adds to its `cp_state` broadcast. */
  datatype Extra = NoExtra | HealthMessage(message: Option<string>)

  /** The messages the Central sends over outbound channels. */
  datatype Message =
    | SupplyStatus(session: Option<PublicSession>, state: string, message: Option<string>)
    | AuthorizeSupply(sessionId: string, driverId: string, requestedKwh: Option<real>)
    | SupplyUpdate(update: PublicSession)
    | CpState(cp: CpView, extra: Extra)
    | Snapshot(chargingPoints: map<string, CpView>)
    | RemoteCommand(command: string)

  /** An outbound channel, seen as the list of messages sent on it. */
  type Log = seq<Message>

  /** The coordinator's state: CPs, live sessions, and the registered CP and
      driver channels. */
  datatype Core = Core(
    cps: map<string, ChargingPoint>,
    sessions: map<string, SupplySession>,
    cpChannels: map<string, Log>,
    driverChannels: map<string, Log>)

  /** `channel.send(m)` on the channel registered for `id`; nothing when there is none. */
  function SendTo(logs: map<string, Log>, id: string, m: Message): (r: map<string, Log>)
    ensures r.Keys == logs.Keys
    ensures forall k :: k in logs ==> r[k] == (if k == id then logs[k] + [m] else logs[k])
  {
    if id in logs then logs[id := logs[id] + [m]] else logs
  }

  /** One message to every registered channel. */
  function Broadcast(logs: map<string, Log>, m: Message): (r: map<string, Log>)
    ensures r.Keys == logs.Keys
    ensures forall k :: k in logs ==> r[k] == logs[k] + [m]
  {
    map k | k in logs :: logs[k] + [m]
  }

  /** `_broadcast_cp_state`: the CP's view to every connected driver. */
  function BroadcastCp(c: Core, cp: ChargingPoint, extra: Extra): Core {
    c.(driverChannels := Broadcast(c.driverChannels, CpState(View(cp), extra)))
  }

  // ---------------------------------------------------------------------
  // Start-up

  /** The CPs loaded from storage, later entries replacing earlier ones with the same id. */
  function LoadAll(stored: seq<StoredCp>): map<string, ChargingPoint>
  {
    if stored == [] then map[]
    else
      var last := stored[|stored| - 1];
      LoadAll(stored[..|stored| - 1])[last.cpId := NewChargingPoint(last.cpId, last.location)]
  }

  function Init(stored: seq<StoredCp>): Core {
    Core(LoadAll(stored), map[], map[], map[])
  }

  // ---------------------------------------------------------------------
  // Registration and channels

  /** `register_cp`: creates the CP, or renames its location when a
      non-empty different one is given. */
  function RegisterCp(c: Core, cpId: string, location: string): Core {
    if cpId !in c.cps then c.(cps := c.cps[cpId := NewChargingPoint(cpId, location)])
    else if location != "" && location != c.cps[cpId].location
    then c.(cps := c.cps[cpId := c.cps[cpId].(location := location)])
    else c
  }

  /** The status a CP takes on (re)connection: available when healthy, fault otherwise. */
  function ConnectedStatus(health: HealthStatus): CPStatus {
    if health == HealthStatus.Ok then Available else CPStatus.Fault
  }

  /** `attach_cp_channel`: creates an unknown CP with an empty location,
      registers the channel (replacing any earlier one), sets the status
      from the health, records the contact and broadcasts. */
  function AttachCp(c: Core, cpId: string, channel: Log, now: Time): Core {
    var base := if cpId in c.cps then c.cps[cpId] else NewChargingPoint(cpId, "");
    var cp := base.(status := ConnectedStatus(base.health), lastSeen := Some(now));
    BroadcastCp(c.(cps := c.cps[cpId := cp], cpChannels := c.cpChannels[cpId := channel]), cp, NoExtra)
  }

  /** `detach_cp`: for a known CP drops its channel, marks it disconnected
      and forgets its session id (the session itself stays), then broadcasts. */
  function DetachCp(c: Core, cpId: string, now: Time): Core {
    if cpId !in c.cps then c
    else
      var cp := c.cps[cpId].(status := Disconnected, currentSessionId := None, lastSeen := Some(now));
      BroadcastCp(c.(cps := c.cps[cpId := cp], cpChannels := c.cpChannels - {cpId}), cp, NoExtra)
  }

  /** `_send_driver_snapshot`: every CP's view to one driver. */
  function DriverSnapshot(c: Core, driverId: string): Core {
    c.(driverChannels := SendTo(c.driverChannels, driverId, Snapshot(map id | id in c.cps :: View(c.cps[id]))))
  }

  /** `attach_driver_channel`: registers the channel, then sends the snapshot. */
  function AttachDriver(c: Core, driverId: string, channel: Log): Core {
    DriverSnapshot(c.(driverChannels := c.driverChannels[driverId := channel]), driverId)
  }

  /** `detach_driver` */
  function DetachDriver(c: Core, driverId: string): Core {
    c.(driverChannels := c.driverChannels - {driverId})
  }

  // ---------------------------------------------------------------------
  // Sessions

  const DeniedByCp := "Denegado por el punto"
  const FaultReason := "Aver\U{00ED}a en el punto"

  /** Python's `text or default` for an optional string. */
  function OrDefault(text: Option<string>, default: string): string {
    if text.None? || text.value == "" then default else text.value
  }

  /** The result of `request_supply`: the exception raised for a driver with
      no channel, or the new state. */
  datatype RequestResult = DriverNotConnected | Handled(next: Core)

  function DeniedStatus(text: string): Message {
    SupplyStatus(None, Denied.Value(), Some(text))
  }

  /** The reasons `request_supply` gives a driver it turns down. */
  function UnknownCpText(cpId: string): string {
    "El punto " + cpId + " no existe"
  }

  function UnavailableText(cpId: string, status: CPStatus): string {
    "El punto " + cpId + " no est\U{00E1} disponible (" + status.Value() + ")"
  }

  function NotConnectedText(cpId: string): string {
    "El punto " + cpId + " no est\U{00E1} conectado a CENTRAL"
  }

  /** `request_supply`. `freshId` is the token the source draws at random. */
  function RequestSupply(c: Core, driverId: string, cpId: string, requestedKwh: Option<real>,
                         freshId: string, now: Time): RequestResult
  {
    if driverId !in c.driverChannels then DriverNotConnected
    else if cpId !in c.cps then
      Handled(c.(driverChannels := SendTo(c.driverChannels, driverId,
                                          DeniedStatus(UnknownCpText(cpId)))))
    else
      var cp := c.cps[cpId].(lastSeen := Some(now));
      if cp.status != Available then
        Handled(c.(cps := c.cps[cpId := cp],
                   driverChannels := SendTo(c.driverChannels, driverId,
                     DeniedStatus(UnavailableText(cpId, cp.status)))))
      else if cpId !in c.cpChannels then
        var cp' := cp.(status := Disconnected);
        Handled(BroadcastCp(
          c.(cps := c.cps[cpId := cp'],
             driverChannels := SendTo(c.driverChannels, driverId,
               DeniedStatus(NotConnectedText(cpId)))),
          cp', NoExtra))
      else
        var session := NewSession(freshId, cpId, driverId, requestedKwh, now);
        var cp' := cp.(status := PendingAuth, currentSessionId := Some(freshId));
        Handled(BroadcastCp(
          Core(c.cps[cpId := cp'],
               c.sessions[freshId := session],
               SendTo(c.cpChannels, cpId, AuthorizeSupply(freshId, driverId, requestedKwh)),
               SendTo(c.driverChannels, driverId,
                 SupplyStatus(Some(ToPublic(session)), Pending.Value(), Some("Solicitud enviada a CENTRAL")))),
          cp', NoExtra))
  }

  /** `cp_authorization_response` */
  function AuthorizationResponse(c: Core, sessionId: string, accepted: bool, reason: Option<string>,
                                 now: Time): Core
  {
    if sessionId !in c.sessions then c
    else
      var s := c.sessions[sessionId];
      if s.cpId !in c.cps || s.driverId !in c.driverChannels then c
      else if !accepted then
        var why := OrDefault(reason, DeniedByCp);
        var s' := s.(state := Denied, reason := Some(why));
        var cp' := c.cps[s.cpId].(status := Available, currentSessionId := None);
        BroadcastCp(
          Core(c.cps[s.cpId := cp'], c.sessions - {sessionId}, c.cpChannels,
               SendTo(c.driverChannels, s.driverId, SupplyStatus(Some(ToPublic(s')), Denied.Value(), Some(why)))),
          cp', NoExtra)
      else
        var s' := s.(state := Authorized, reason := Some("Autorizado"), startedAt := Some(now));
        var cp' := c.cps[s.cpId].(status := Supplying);
        BroadcastCp(
          Core(c.cps[s.cpId := cp'], c.sessions[sessionId := s'], c.cpChannels,
               SendTo(c.driverChannels, s.driverId,
                 SupplyStatus(Some(ToPublic(s')), Authorized.Value(), Some("Conecta el veh\U{00ED}culo al punto")))),
          cp', NoExtra)
  }

  /** Broadcast of the session's CP when it exists (the `if cp:` guards). */
  function BroadcastIfCp(c: Core, cpId: string): Core {
    if cpId in c.cps then BroadcastCp(c, c.cps[cpId], NoExtra) else c
  }

  /** `supply_started`: in progress, keeping an earlier start time. */
  function SupplyStarted(c: Core, sessionId: string, now: Time): Core {
    if sessionId !in c.sessions then c
    else
      var s := c.sessions[sessionId];
      var s' := s.(state := InProgress, startedAt := if s.startedAt.Some? then s.startedAt else Some(now));
      BroadcastIfCp(
        c.(sessions := c.sessions[sessionId := s'],
           driverChannels := SendTo(c.driverChannels, s.driverId,
             SupplyStatus(Some(ToPublic(s')), InProgress.Value(), Some("Suministro en curso")))),
        s.cpId)
  }

  /** The amount a progress report sets: the explicit one when given,
      otherwise energy times the price. */
  function AmountDue(energy: real, amount: Option<real>, pricePerKwh: real): real {
    if amount.Some? then amount.value else energy * pricePerKwh
  }

  /** `supply_progress` */
  function SupplyProgress(c: Core, sessionId: string, energy: real, amount: Option<real>,
                          pricePerKwh: real): Core
  {
    if sessionId !in c.sessions then c
    else
      var s := c.sessions[sessionId];
      var s' := s.(energyDelivered := energy, amountDue := AmountDue(energy, amount, pricePerKwh));
      BroadcastIfCp(
        c.(sessions := c.sessions[sessionId := s'],
           driverChannels := SendTo(c.driverChannels, s.driverId, SupplyUpdate(ToPublic(s')))),
        s.cpId)
  }

  /** `finalize_session`: the session ends (finished or aborted) and leaves
      the map; its CP, when present, is released according to its health. */
  function FinalizeSession(c: Core, sessionId: string, success: bool, message: Option<string>,
                           now: Time): Core
  {
    if sessionId !in c.sessions then c
    else
      var s := c.sessions[sessionId];
      var s' := s.(finishedAt := Some(now), state := if success then Finished else Aborted, reason := message);
      var cps' := if s.cpId in c.cps
                  then c.cps[s.cpId := c.cps[s.cpId].(currentSessionId := None,
                                                      status := ConnectedStatus(c.cps[s.cpId].health))]
                  else c.cps;
      BroadcastIfCp(
        Core(cps', c.sessions - {sessionId}, c.cpChannels,
             SendTo(c.driverChannels, s.driverId, SupplyStatus(Some(ToPublic(s')), s'.state.Value(), message))),
        s.cpId)
  }

  /** The status a health report leaves: FAULT forces fault, OK lifts a fault
      and leaves every other status alone. */
  function StatusAfterHealth(status: CPStatus, health: HealthStatus): CPStatus {
    if health == HealthStatus.Fault then CPStatus.Fault
    else if status == CPStatus.Fault then Available
    else status
  }

  /** `update_health`, with the abort of the hosted session that a FAULT report
      triggers taken as part of the same operation. */
  function UpdateHealth(c: Core, cpId: string, health: HealthStatus, message: Option<string>,
                        now: Time): Core
  {
    if cpId !in c.cps then c
    else
      var old_ := c.cps[cpId];
      var cp := old_.(health := health, lastSeen := Some(now), status := StatusAfterHealth(old_.status, health));
      var c1 := BroadcastCp(c.(cps := c.cps[cpId := cp]), cp, HealthMessage(message));
      if health == HealthStatus.Fault && cp.currentSessionId.Some? && cp.currentSessionId.value != "" then
        FinalizeSession(c1, cp.currentSessionId.value, false, Some(OrDefault(message, FaultReason)), now)
      else c1
  }

  /** `remote_command`: to every CP channel, or to the one named; nothing when
      the named CP has no channel. The CP's status is not touched. */
  function RemoteCommandTo(c: Core, command: string, cpId: Option<string>): Core {
    if cpId.None? then c.(cpChannels := Broadcast(c.cpChannels, RemoteCommand(command)))
    else c.(cpChannels := SendTo(c.cpChannels, cpId.value, RemoteCommand(command)))
  }

  // ---------------------------------------------------------------------
  // The two lock re-entries as written

  /** How an operation that holds the coordinator's lock ends: it releases
      the lock, or it waits forever to take the same lock again, which an
      asyncio lock never grants to the coroutine already holding it. Nothing later
      that needs the lock proceeds from a `Deadlocked` state. */
  datatype LockRun = Released(next: Core) | Deadlocked(stuck: Core)

  /** `request_supply` as written: the branch for a CP with no channel calls
      `_broadcast_cp_state` while still holding the lock, so it stops after
      the driver's denial and before the broadcast. The other branches end as
      in `RequestSupply`. */
  function RequestSupplyAsWritten(c: Core, driverId: string, cpId: string, requestedKwh: Option<real>,
                                  freshId: string, now: Time): Option<LockRun>
  {
    if driverId !in c.driverChannels then None
    else if cpId in c.cps && c.cps[cpId].status == Available && cpId !in c.cpChannels then
      var cp' := c.cps[cpId].(lastSeen := Some(now), status := Disconnected);
      Some(Deadlocked(c.(cps := c.cps[cpId := cp'],
                         driverChannels := SendTo(c.driverChannels, driverId,
                           DeniedStatus(NotConnectedText(cpId))))))
    else Some(Released(RequestSupply(c, driverId, cpId, requestedKwh, freshId, now).next))
  }

  /** `cp_authorization_response` as written: the rejection branch
      broadcasts while holding the lock, so it stops after the driver's
      message, before the session is removed. */
  function AuthorizationResponseAsWritten(c: Core, sessionId: string, accepted: bool,
                                          reason: Option<string>, now: Time): LockRun
  {
    if sessionId in c.sessions && c.sessions[sessionId].cpId in c.cps
       && c.sessions[sessionId].driverId in c.driverChannels && !accepted
    then
      var s := c.sessions[sessionId];
      var why := OrDefault(reason, DeniedByCp);
      var s' := s.(state := Denied, reason := Some(why));
      var cp' := c.cps[s.cpId].(status := Available, currentSessionId := None);
      Deadlocked(Core(c.cps[s.cpId := cp'], c.sessions[sessionId := s'], c.cpChannels,
                      SendTo(c.driverChannels, s.driverId,
                        SupplyStatus(Some(ToPublic(s')), Denied.Value(), Some(why)))))
    else Released(AuthorizationResponse(c, sessionId, accepted, reason, now))
  }
}
