/** `CentralCore`: the asynchronous Central's coordinator. It owns the CP and
    session tables and the outbound channels of connected CPs and drivers,
    and updates them in place. Each method performs the source's steps in
    order and is proved to leave exactly the state the matching function of
    `CoreSpec` describes; the properties of those functions are proved in
    `CoreProperties`. The lock is not modelled: every method runs to
    completion before the next starts. */
module Coordinator {
  import opened Wrappers
  import opened CentralData
  import opened CoreSpec

  class CentralCore {
    const pricePerKwh: real
    var cps: map<string, ChargingPoint>
    var sessions: map<string, SupplySession>
    var cpChannels: map<string, Log>
    var driverChannels: map<string, Log>

    /** The whole coordinator state as one value. */
    function State(): Core
      reads this
    {
      Core(cps, sessions, cpChannels, driverChannels)
    }

    /** Loads the stored CPs, one at a time, into an otherwise empty coordinator. */
    constructor (stored: seq<StoredCp>, pricePerKwh: real)
      ensures State() == Init(stored) && this.pricePerKwh == pricePerKwh
    {
      var loaded: map<string, ChargingPoint> := map[];
      for i := 0 to |stored|
        invariant loaded == LoadAll(stored[..i])
      {
        assert stored[..i + 1][..i] == stored[..i];
        loaded := loaded[stored[i].cpId := NewChargingPoint(stored[i].cpId, stored[i].location)];
      }
      assert stored[..|stored|] == stored;
      this.pricePerKwh := pricePerKwh;
      cps := loaded;
      sessions := map[];
      cpChannels := map[];
      driverChannels := map[];
    }

    /** `charging_points`: every known CP. */
    function ChargingPoints(): (r: set<ChargingPoint>)
      reads this
      ensures forall id :: id in cps ==> cps[id] in r
      ensures forall cp :: cp in r ==> exists id :: id in cps && cps[id] == cp
    {
      cps.Values
    }

    /** `sessions`: every live session. */
    function Sessions(): (r: set<SupplySession>)
      reads this
      ensures forall id :: id in sessions ==> sessions[id] in r
      ensures forall s :: s in r ==> exists id :: id in sessions && sessions[id] == s
    {
      sessions.Values
    }

    /** `_broadcast_cp_state` */
    method BroadcastCpState(cp: ChargingPoint, extra: Extra)
      modifies this
      ensures State() == BroadcastCp(old(State()), cp, extra)
    {
      driverChannels := Broadcast(driverChannels, CpState(View(cp), extra));
    }

    /** `register_cp` */
    method RegisterCp(cpId: string, location: string) returns (cp: ChargingPoint)
      modifies this
      ensures State() == CoreSpec.RegisterCp(old(State()), cpId, location)
      ensures cpId in cps && cp == cps[cpId]
    {
      if cpId !in cps {
        cp := NewChargingPoint(cpId, location);
        cps := cps[cpId := cp];
      } else {
        cp := cps[cpId];
        if location != "" && location != cp.location {
          cp := cp.(location := location);
          cps := cps[cpId := cp];
        }
      }
    }

    /** `attach_cp_channel` */
    method AttachCpChannel(cpId: string, channel: Log, now: Time) returns (cp: ChargingPoint)
      modifies this
      ensures State() == AttachCp(old(State()), cpId, channel, now)
      ensures cpId in cps && cp == cps[cpId]
      ensures cpChannels == old(cpChannels)[cpId := channel] && sessions == old(sessions)
      ensures cp.status == (if cp.health == HealthStatus.Ok then Available else CPStatus.Fault)
      ensures cp.lastSeen == Some(now)
      ensures forall id :: id in old(cps) && id != cpId ==> cps[id] == old(cps)[id]
    {
      cp := if cpId in cps then cps[cpId] else NewChargingPoint(cpId, "");
      cp := cp.(status := ConnectedStatus(cp.health));
      cp := cp.(lastSeen := Some(now));
      cps := cps[cpId := cp];
      cpChannels := cpChannels[cpId := channel];
      BroadcastCpState(cp, NoExtra);
    }

    /** `detach_cp` */
    method DetachCp(cpId: string, now: Time)
      modifies this
      ensures State() == CoreSpec.DetachCp(old(State()), cpId, now)
      ensures cpId !in old(cps) ==> State() == old(State())
    {
      if cpId !in cps {
        return;
      }
      cpChannels := cpChannels - {cpId};
      var cp := cps[cpId].(status := Disconnected);
      cp := cp.(currentSessionId := None);
      cp := cp.(lastSeen := Some(now));
      cps := cps[cpId := cp];
      BroadcastCpState(cp, NoExtra);
    }

    /** `_send_driver_snapshot` */
    method SendDriverSnapshot(driverId: string)
      modifies this
      ensures State() == DriverSnapshot(old(State()), driverId)
    {
      if driverId !in driverChannels {
        return;
      }
      var views := map id | id in cps :: View(cps[id]);
      driverChannels := SendTo(driverChannels, driverId, Snapshot(views));
    }

    /** `attach_driver_channel` */
    method AttachDriverChannel(driverId: string, channel: Log)
      modifies this
      ensures State() == AttachDriver(old(State()), driverId, channel)
    {
      driverChannels := driverChannels[driverId := channel];
      SendDriverSnapshot(driverId);
    }

    /** `detach_driver` */
    method DetachDriver(driverId: string)
      modifies this
      ensures State() == CoreSpec.DetachDriver(old(State()), driverId)
    {
      driverChannels := driverChannels - {driverId};
    }

    /** `update_health`: the FAULT branch ends with `_abort_session`. */
    method UpdateHealth(cpId: string, health: HealthStatus, message: Option<string>, now: Time)
      modifies this
      ensures State() == CoreSpec.UpdateHealth(old(State()), cpId, health, message, now)
      ensures cpId !in old(cps) ==> State() == old(State())
    {
      if cpId !in cps {
        return;
      }
      var cp := cps[cpId].(health := health, lastSeen := Some(now));
      if health == HealthStatus.Fault {
        cp := cp.(status := CPStatus.Fault);
      } else if cp.status == CPStatus.Fault {
        cp := cp.(status := Available);
      }
      cps := cps[cpId := cp];
      BroadcastCpState(cp, HealthMessage(message));
      if health == HealthStatus.Fault && cp.currentSessionId.Some? && cp.currentSessionId.value != "" {
        AbortSession(cp.currentSessionId.value, OrDefault(message, FaultReason), now);
      }
    }

    /** `request_supply`. `raised` stands for the exception raised when the
        driver has no channel; `freshId` is the generated session token. */
    method RequestSupply(driverId: string, cpId: string, requestedKwh: Option<real>,
                         freshId: string, now: Time) returns (raised: bool)
      modifies this
      ensures raised <==> CoreSpec.RequestSupply(old(State()), driverId, cpId, requestedKwh, freshId, now).DriverNotConnected?
      ensures raised ==> State() == old(State())
      ensures !raised ==> State() == CoreSpec.RequestSupply(old(State()), driverId, cpId, requestedKwh, freshId, now).next
    {
      if driverId !in driverChannels {
        return true;
      }
      if cpId !in cps {
        driverChannels := SendTo(driverChannels, driverId, DeniedStatus(UnknownCpText(cpId)));
        return false;
      }
      ExamineCp(driverId, cpId, requestedKwh, freshId, now);
      raised := false;
    }

    /** The part of `request_supply` for a connected driver and a known CP:
        the three outcomes that depend on the CP's status and channel. */
    method ExamineCp(driverId: string, cpId: string, requestedKwh: Option<real>, freshId: string, now: Time)
      requires driverId in driverChannels && cpId in cps
      modifies this
      ensures State() == CoreSpec.RequestSupply(old(State()), driverId, cpId, requestedKwh, freshId, now).next
    {
      var cp := cps[cpId].(lastSeen := Some(now));
      cps := cps[cpId := cp];
      if cp.status != Available {
        driverChannels := SendTo(driverChannels, driverId, DeniedStatus(UnavailableText(cpId, cp.status)));
      } else if cpId !in cpChannels {
        cp := cp.(status := Disconnected);
        cps := cps[cpId := cp];
        driverChannels := SendTo(driverChannels, driverId, DeniedStatus(NotConnectedText(cpId)));
        BroadcastCpState(cp, NoExtra);
      } else {
        OpenSession(driverId, cpId, cp, requestedKwh, freshId, now);
      }
    }

    /** The granting end of `request_supply`: the new pending session, the
        CP waiting on it, the driver and the CP told, the state broadcast. */
    method OpenSession(driverId: string, cpId: string, cp: ChargingPoint, requestedKwh: Option<real>,
                       freshId: string, now: Time)
      modifies this
      ensures var session := NewSession(freshId, cpId, driverId, requestedKwh, now);
        var cp' := cp.(status := PendingAuth, currentSessionId := Some(freshId));
        State() == BroadcastCp(
          Core(old(cps)[cpId := cp'],
               old(sessions)[freshId := session],
               SendTo(old(cpChannels), cpId, AuthorizeSupply(freshId, driverId, requestedKwh)),
               SendTo(old(driverChannels), driverId,
                 SupplyStatus(Some(ToPublic(session)), Pending.Value(), Some("Solicitud enviada a CENTRAL")))),
          cp', NoExtra)
    {
      var session := NewSession(freshId, cpId, driverId, requestedKwh, now);
      var pending := cp.(status := PendingAuth, currentSessionId := Some(freshId));
      cps := cps[cpId := pending];
      sessions := sessions[freshId := session];
      driverChannels := SendTo(driverChannels, driverId,
        SupplyStatus(Some(ToPublic(session)), Pending.Value(), Some("Solicitud enviada a CENTRAL")));
      cpChannels := SendTo(cpChannels, cpId, AuthorizeSupply(freshId, driverId, requestedKwh));
      BroadcastCpState(pending, NoExtra);
    }

    /** `cp_authorization_response` */
    method CpAuthorizationResponse(sessionId: string, accepted: bool, reason: Option<string>, now: Time)
      modifies this
      ensures State() == AuthorizationResponse(old(State()), sessionId, accepted, reason, now)
    {
      if sessionId !in sessions {
        return;
      }
      var session := sessions[sessionId];
      if session.cpId !in cps || session.driverId !in driverChannels {
        return;
      }
      var cp := cps[session.cpId];
      if !accepted {
        session := session.(state := Denied, reason := Some(OrDefault(reason, DeniedByCp)));
        cp := cp.(status := Available, currentSessionId := None);
        cps := cps[session.cpId := cp];
        driverChannels := SendTo(driverChannels, session.driverId,
          SupplyStatus(Some(ToPublic(session)), session.state.Value(), session.reason));
        BroadcastCpState(cp, NoExtra);
        sessions := sessions - {sessionId};
        return;
      }
      session := session.(state := Authorized, reason := Some("Autorizado"), startedAt := Some(now));
      sessions := sessions[sessionId := session];
      cp := cp.(status := Supplying);
      cps := cps[session.cpId := cp];
      driverChannels := SendTo(driverChannels, session.driverId,
        SupplyStatus(Some(ToPublic(session)), Authorized.Value(), Some("Conecta el veh\U{00ED}culo al punto")));
      BroadcastCpState(cp, NoExtra);
    }

    /** `supply_started` */
    method SupplyStarted(sessionId: string, now: Time)
      modifies this
      ensures State() == CoreSpec.SupplyStarted(old(State()), sessionId, now)
      ensures sessionId !in old(sessions) ==> State() == old(State())
    {
      if sessionId !in sessions {
        return;
      }
      var session := sessions[sessionId].(state := InProgress);
      if session.startedAt.None? {
        session := session.(startedAt := Some(now));
      }
      sessions := sessions[sessionId := session];
      driverChannels := SendTo(driverChannels, session.driverId,
        SupplyStatus(Some(ToPublic(session)), InProgress.Value(), Some("Suministro en curso")));
      if session.cpId in cps {
        BroadcastCpState(cps[session.cpId], NoExtra);
      }
    }

    /** `supply_progress` */
    method SupplyProgress(sessionId: string, energy: real, amount: Option<real>)
      modifies this
      ensures State() == CoreSpec.SupplyProgress(old(State()), sessionId, energy, amount, pricePerKwh)
      ensures sessionId !in old(sessions) ==> State() == old(State())
    {
      if sessionId !in sessions {
        return;
      }
      var session := sessions[sessionId].(energyDelivered := energy);
      session := session.(amountDue := AmountDue(energy, amount, pricePerKwh));
      sessions := sessions[sessionId := session];
      driverChannels := SendTo(driverChannels, session.driverId, SupplyUpdate(ToPublic(session)));
      if session.cpId in cps {
        BroadcastCpState(cps[session.cpId], NoExtra);
      }
    }

    /** `finalize_session` */
    method FinalizeSession(sessionId: string, success: bool, message: Option<string>, now: Time)
      modifies this
      ensures State() == CoreSpec.FinalizeSession(old(State()), sessionId, success, message, now)
    {
      if sessionId !in sessions {
        return;
      }
      var session := sessions[sessionId];
      session := session.(finishedAt := Some(now));
      session := session.(state := if success then Finished else Aborted);
      session := session.(reason := message);
      if session.cpId in cps {
        var cp := cps[session.cpId].(currentSessionId := None);
        cp := cp.(status := ConnectedStatus(cp.health));
        cps := cps[session.cpId := cp];
      }
      sessions := sessions - {sessionId};
      driverChannels := SendTo(driverChannels, session.driverId,
        SupplyStatus(Some(ToPublic(session)), session.state.Value(), message));
      if session.cpId in cps {
        BroadcastCpState(cps[session.cpId], NoExtra);
      }
    }

    /** `_abort_session` */
    method AbortSession(sessionId: string, reason: string, now: Time)
      modifies this
      ensures State() == CoreSpec.FinalizeSession(old(State()), sessionId, false, Some(reason), now)
    {
      FinalizeSession(sessionId, false, Some(reason), now);
    }

    /** `remote_command` */
    method RemoteCommand(command: string, cpId: Option<string>)
      modifies this
      ensures State() == RemoteCommandTo(old(State()), command, cpId)
    {
      var message := CoreSpec.RemoteCommand(command);
      if cpId.None? {
        cpChannels := Broadcast(cpChannels, message);
      } else {
        if cpId.value !in cpChannels {
          return;
        }
        cpChannels := SendTo(cpChannels, cpId.value, message);
      }
    }
  }
}
