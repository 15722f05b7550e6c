/** What the coordinator keeps true, what each operation promises, the
    scenarios of the unit tests, and the traces where a promised invariant
    fails. */
module CoreProperties {
  import opened Wrappers
  import opened CentralData
  import opened CoreSpec

  // ---------------------------------------------------------------------
  // Invariants

  /** A session the map still holds has not ended. */
  predicate Live(state: SessionState) {
    state == Pending || state == Authorized || state == InProgress
  }

  /** Maps are keyed by the ids they hold; every session is live, has a
      non-empty id, and belongs to a known CP. */
  predicate WellKeyed(c: Core) {
    && (forall id :: id in c.cps ==> c.cps[id].cpId == id)
    && (forall sid :: sid in c.sessions ==>
          sid != "" && c.sessions[sid].sessionId == sid && c.sessions[sid].cpId in c.cps
          && Live(c.sessions[sid].state))
  }

  /** A CP carries a session id exactly while it is pending authorisation or supplying. */
  predicate LinkedAt(c: Core, id: string)
    requires id in c.cps
  {
    c.cps[id].currentSessionId.Some? <==> (c.cps[id].status == PendingAuth || c.cps[id].status == Supplying)
  }

  predicate SessionLinked(c: Core) {
    forall id :: id in c.cps ==> LinkedAt(c, id)
  }

  /** The session a CP names is live and belongs to that CP. */
  predicate HostedAt(c: Core, id: string)
    requires id in c.cps
  {
    c.cps[id].currentSessionId.Some? ==>
      c.cps[id].currentSessionId.value in c.sessions
      && c.sessions[c.cps[id].currentSessionId.value].cpId == id
  }

  predicate SessionsHosted(c: Core) {
    forall id :: id in c.cps ==> HostedAt(c, id)
  }

  predicate Consistent(c: Core) {
    WellKeyed(c) && SessionLinked(c) && SessionsHosted(c)
  }

  // ---------------------------------------------------------------------
  // Start-up

  /** Loading keeps every stored id, and each loaded CP is a fresh one under
      its own id. */
  lemma {:induction false} LoadAllFresh(stored: seq<StoredCp>)
    ensures forall i :: 0 <= i < |stored| ==> stored[i].cpId in LoadAll(stored)
    ensures forall id :: id in LoadAll(stored) ==> exists i :: 0 <= i < |stored| && stored[i].cpId == id
    ensures forall id :: id in LoadAll(stored) ==>
              LoadAll(stored)[id] == NewChargingPoint(id, LoadAll(stored)[id].location)
  {
    if stored != [] {
      var init := stored[..|stored| - 1];
      LoadAllFresh(init);
      forall i | 0 <= i < |init| ensures stored[i] == init[i] { }
    }
  }

  /** A freshly started coordinator is consistent: no sessions, no channels,
      every stored CP disconnected and idle. */
  lemma InitConsistent(stored: seq<StoredCp>)
    ensures Consistent(Init(stored))
    ensures forall id :: id in Init(stored).cps ==>
              Init(stored).cps[id].status == Disconnected && Init(stored).cps[id].currentSessionId == None
  {
    LoadAllFresh(stored);
  }

  // ---------------------------------------------------------------------
  // Building blocks: the invariant under the elementary changes

  /** The invariant speaks only of the CP and session tables. */
  lemma ChannelsIrrelevant(a: Core, b: Core)
    requires a.cps == b.cps && a.sessions == b.sessions
    ensures Consistent(a) <==> Consistent(b)
  {
    assert SessionLinked(a) <==> SessionLinked(b) by {
      assert forall id :: id in a.cps ==> (LinkedAt(a, id) <==> LinkedAt(b, id));
    }
    assert SessionsHosted(a) <==> SessionsHosted(b) by {
      assert forall id :: id in a.cps ==> (HostedAt(a, id) <==> HostedAt(b, id));
    }
  }

  /** Replacing a CP by one with the same id and session, whose status still
      agrees with carrying that session, keeps the invariant. */
  lemma ReplaceCpKeeps(c: Core, cpId: string, cp: ChargingPoint)
    requires Consistent(c) && cpId in c.cps
    requires cp.cpId == cpId && cp.currentSessionId == c.cps[cpId].currentSessionId
    requires cp.currentSessionId.Some? <==> (cp.status == PendingAuth || cp.status == Supplying)
    ensures Consistent(c.(cps := c.cps[cpId := cp]))
  {
    var c' := c.(cps := c.cps[cpId := cp]);
    forall id | id in c'.cps ensures LinkedAt(c', id) && HostedAt(c', id) {
      assert LinkedAt(c, id) && HostedAt(c, id);
    }
  }

  /** Adding a CP under a new id, with no session and a status that carries
      none, keeps the invariant. */
  lemma AddCpKeeps(c: Core, cp: ChargingPoint)
    requires Consistent(c) && cp.cpId !in c.cps
    requires cp.currentSessionId == None && cp.status != PendingAuth && cp.status != Supplying
    ensures Consistent(c.(cps := c.cps[cp.cpId := cp]))
  {
    var c' := c.(cps := c.cps[cp.cpId := cp]);
    forall id | id in c'.cps ensures LinkedAt(c', id) && HostedAt(c', id) {
      if id != cp.cpId { assert LinkedAt(c, id) && HostedAt(c, id); }
    }
  }

  /** Opening a fresh live session on an idle CP that now carries it keeps
      the invariant. */
  lemma OpenSessionKeeps(c: Core, cp: ChargingPoint, session: SupplySession)
    requires Consistent(c) && session.cpId in c.cps && c.cps[session.cpId].currentSessionId == None
    requires session.sessionId != "" && session.sessionId !in c.sessions && Live(session.state)
    requires cp.cpId == session.cpId && cp.currentSessionId == Some(session.sessionId) && cp.status == PendingAuth
    ensures Consistent(c.(cps := c.cps[session.cpId := cp], sessions := c.sessions[session.sessionId := session]))
  {
    var c' := c.(cps := c.cps[session.cpId := cp], sessions := c.sessions[session.sessionId := session]);
    forall id | id in c'.cps ensures LinkedAt(c', id) && HostedAt(c', id) {
      assert LinkedAt(c, id) && HostedAt(c, id);
    }
    forall sid | sid in c'.sessions
      ensures sid != "" && c'.sessions[sid].sessionId == sid && c'.sessions[sid].cpId in c'.cps
      ensures Live(c'.sessions[sid].state)
    {
      if sid != session.sessionId { assert sid in c.sessions; }
    }
  }

  /** Replacing a session by a live one with the same id and CP keeps the invariant. */
  lemma UpdateSessionKeeps(c: Core, session: SupplySession)
    requires Consistent(c) && session.sessionId in c.sessions
    requires session.cpId == c.sessions[session.sessionId].cpId && Live(session.state)
    ensures Consistent(c.(sessions := c.sessions[session.sessionId := session]))
  {
    var c' := c.(sessions := c.sessions[session.sessionId := session]);
    forall id | id in c'.cps ensures LinkedAt(c', id) && HostedAt(c', id) {
      assert LinkedAt(c, id) && HostedAt(c, id);
    }
    forall sid | sid in c'.sessions
      ensures sid != "" && c'.sessions[sid].sessionId == sid && c'.sessions[sid].cpId in c'.cps
      ensures Live(c'.sessions[sid].state)
    {
      assert sid in c.sessions;
    }
  }

  /** Dropping a session while its CP, replaced by one without a session
      and in a status that carries none, keeps the invariant. */
  lemma CloseSessionKeeps(c: Core, sessionId: string, cp: ChargingPoint)
    requires Consistent(c) && sessionId in c.sessions
    requires cp.cpId == c.sessions[sessionId].cpId && cp.currentSessionId == None
    requires cp.status != PendingAuth && cp.status != Supplying
    ensures Consistent(c.(cps := c.cps[cp.cpId := cp], sessions := c.sessions - {sessionId}))
  {
    var c' := c.(cps := c.cps[cp.cpId := cp], sessions := c.sessions - {sessionId});
    forall id | id in c'.cps ensures LinkedAt(c', id) && HostedAt(c', id) {
      assert LinkedAt(c, id) && HostedAt(c, id);
    }
    forall sid | sid in c'.sessions
      ensures sid != "" && c'.sessions[sid].sessionId == sid && c'.sessions[sid].cpId in c'.cps
      ensures Live(c'.sessions[sid].state)
    {
      assert sid in c.sessions;
    }
  }

  // ---------------------------------------------------------------------
  // Preservation, operation by operation

  lemma RegisterCpPreserves(c: Core, cpId: string, location: string)
    requires Consistent(c)
    ensures Consistent(RegisterCp(c, cpId, location))
  {
    if cpId !in c.cps {
      AddCpKeeps(c, NewChargingPoint(cpId, location));
    } else if location != "" && location != c.cps[cpId].location {
      assert LinkedAt(c, cpId);
      ReplaceCpKeeps(c, cpId, c.cps[cpId].(location := location));
    }
  }

  /** Reconnecting keeps the maps well keyed and the session ids hosted; the
      link between status and session id survives only when the CP had no
      session (see `ReattachBreaksLink` for the case where it had one). */
  lemma AttachCpPreserves(c: Core, cpId: string, channel: Log, now: Time)
    requires Consistent(c)
    ensures WellKeyed(AttachCp(c, cpId, channel, now)) && SessionsHosted(AttachCp(c, cpId, channel, now))
    ensures cpId !in c.cps || c.cps[cpId].currentSessionId.None? ==> SessionLinked(AttachCp(c, cpId, channel, now))
  {
    var c' := AttachCp(c, cpId, channel, now);
    forall id | id in c'.cps
      ensures HostedAt(c', id)
      ensures (cpId !in c.cps || c.cps[cpId].currentSessionId.None?) ==> LinkedAt(c', id)
    {
      assert id in c.cps ==> LinkedAt(c, id) && HostedAt(c, id);
    }
  }

  lemma DetachCpPreserves(c: Core, cpId: string, now: Time)
    requires Consistent(c)
    ensures Consistent(DetachCp(c, cpId, now))
  {
    var c' := DetachCp(c, cpId, now);
    forall id | id in c'.cps ensures LinkedAt(c', id) && HostedAt(c', id) {
      assert LinkedAt(c, id) && HostedAt(c, id);
    }
  }

  lemma DriverChannelsPreserve(c: Core, driverId: string, channel: Log)
    requires Consistent(c)
    ensures Consistent(AttachDriver(c, driverId, channel))
    ensures Consistent(DetachDriver(c, driverId))
  {
  }

  /** With a fresh, non-empty session id, `request_supply` keeps every invariant. */
  lemma RequestSupplyPreserves(c: Core, driverId: string, cpId: string, requestedKwh: Option<real>,
                               freshId: string, now: Time)
    requires Consistent(c)
    requires freshId != "" && freshId !in c.sessions
    requires RequestSupply(c, driverId, cpId, requestedKwh, freshId, now).Handled?
    ensures Consistent(RequestSupply(c, driverId, cpId, requestedKwh, freshId, now).next)
  {
    if cpId in c.cps && c.cps[cpId].status == Available && cpId in c.cpChannels {
      GrantPreserves(c, driverId, cpId, requestedKwh, freshId, now);
    } else {
      DenialPreserves(c, driverId, cpId, requestedKwh, freshId, now);
    }
  }

  /** The granting branch of `request_supply`. */
  lemma GrantPreserves(c: Core, driverId: string, cpId: string, requestedKwh: Option<real>,
                       freshId: string, now: Time)
    requires Consistent(c) && driverId in c.driverChannels
    requires freshId != "" && freshId !in c.sessions
    requires cpId in c.cps && c.cps[cpId].status == Available && cpId in c.cpChannels
    ensures Consistent(RequestSupply(c, driverId, cpId, requestedKwh, freshId, now).next)
  {
    assert LinkedAt(c, cpId);
    var session := NewSession(freshId, cpId, driverId, requestedKwh, now);
    var cp' := c.cps[cpId].(lastSeen := Some(now), status := PendingAuth, currentSessionId := Some(freshId));
    OpenSessionKeeps(c, cp', session);
    ChannelsIrrelevant(c.(cps := c.cps[cpId := cp'], sessions := c.sessions[freshId := session]),
                       RequestSupply(c, driverId, cpId, requestedKwh, freshId, now).next);
  }

  /** The denying branches of `request_supply`. */
  lemma DenialPreserves(c: Core, driverId: string, cpId: string, requestedKwh: Option<real>,
                        freshId: string, now: Time)
    requires Consistent(c) && driverId in c.driverChannels
    requires !(cpId in c.cps && c.cps[cpId].status == Available && cpId in c.cpChannels)
    ensures Consistent(RequestSupply(c, driverId, cpId, requestedKwh, freshId, now).next)
  {
    var c' := RequestSupply(c, driverId, cpId, requestedKwh, freshId, now).next;
    if cpId in c.cps {
      assert LinkedAt(c, cpId);
      var cp := c.cps[cpId].(lastSeen := Some(now));
      var cp' := if cp.status != Available then cp else cp.(status := Disconnected);
      ReplaceCpKeeps(c, cpId, cp');
      ChannelsIrrelevant(c.(cps := c.cps[cpId := cp']), c');
    } else {
      ChannelsIrrelevant(c, c');
    }
  }

  /** A rejection always keeps the invariants; an acceptance keeps them when
      the session is the one its CP is waiting on (see `LateAcceptBreaksLink`). */
  lemma AuthorizationResponsePreserves(c: Core, sessionId: string, accepted: bool,
                                       reason: Option<string>, now: Time)
    requires Consistent(c)
    requires accepted && sessionId in c.sessions ==>
               c.cps[c.sessions[sessionId].cpId].currentSessionId == Some(sessionId)
    ensures Consistent(AuthorizationResponse(c, sessionId, accepted, reason, now))
  {
    var c' := AuthorizationResponse(c, sessionId, accepted, reason, now);
    if sessionId in c.sessions && c.sessions[sessionId].cpId in c.cps
       && c.sessions[sessionId].driverId in c.driverChannels {
      var s := c.sessions[sessionId];
      if !accepted {
        var cp' := c.cps[s.cpId].(status := Available, currentSessionId := None);
        CloseSessionKeeps(c, sessionId, cp');
        ChannelsIrrelevant(c.(cps := c.cps[s.cpId := cp'], sessions := c.sessions - {sessionId}), c');
      } else {
        var s' := s.(state := Authorized, reason := Some("Autorizado"), startedAt := Some(now));
        var cp' := c.cps[s.cpId].(status := Supplying);
        UpdateSessionKeeps(c, s');
        var c1 := c.(sessions := c.sessions[sessionId := s']);
        ReplaceCpKeeps(c1, s.cpId, cp');
        ChannelsIrrelevant(c1.(cps := c1.cps[s.cpId := cp']), c');
      }
    }
  }

  lemma SupplyStartedPreserves(c: Core, sessionId: string, now: Time)
    requires Consistent(c)
    ensures Consistent(SupplyStarted(c, sessionId, now))
  {
    var c' := SupplyStarted(c, sessionId, now);
    forall id | id in c'.cps ensures LinkedAt(c', id) && HostedAt(c', id) {
      assert LinkedAt(c, id) && HostedAt(c, id);
    }
  }

  lemma SupplyProgressPreserves(c: Core, sessionId: string, energy: real, amount: Option<real>, price: real)
    requires Consistent(c)
    ensures Consistent(SupplyProgress(c, sessionId, energy, amount, price))
  {
    var c' := SupplyProgress(c, sessionId, energy, amount, price);
    forall id | id in c'.cps ensures LinkedAt(c', id) && HostedAt(c', id) {
      assert LinkedAt(c, id) && HostedAt(c, id);
    }
  }

  /** Finalising restores the link at the session's CP even when that CP is
      the one place where it is broken: the abort after a FAULT report relies
      on this. */
  lemma FinalizeRestores(c: Core, sessionId: string, success: bool, message: Option<string>,
                         now: Time, broken: Option<string>)
    requires WellKeyed(c) && SessionsHosted(c)
    requires forall id :: id in c.cps && Some(id) != broken ==> LinkedAt(c, id)
    requires broken.Some? ==> broken.value in c.cps && c.cps[broken.value].currentSessionId == Some(sessionId)
    ensures Consistent(FinalizeSession(c, sessionId, success, message, now))
  {
    var c' := FinalizeSession(c, sessionId, success, message, now);
    if sessionId in c.sessions {
      forall id | id in c'.cps ensures LinkedAt(c', id) && HostedAt(c', id) {
        assert HostedAt(c, id);
      }
      forall sid | sid in c'.sessions
        ensures sid != "" && c'.sessions[sid].sessionId == sid && c'.sessions[sid].cpId in c'.cps
        ensures Live(c'.sessions[sid].state)
      {
        assert sid in c.sessions;
      }
    }
  }

  lemma FinalizePreserves(c: Core, sessionId: string, success: bool, message: Option<string>, now: Time)
    requires Consistent(c)
    ensures Consistent(FinalizeSession(c, sessionId, success, message, now))
  {
    FinalizeRestores(c, sessionId, success, message, now, None);
  }

  lemma UpdateHealthPreserves(c: Core, cpId: string, health: HealthStatus, message: Option<string>, now: Time)
    requires Consistent(c)
    ensures Consistent(UpdateHealth(c, cpId, health, message, now))
  {
    if cpId in c.cps {
      var old_ := c.cps[cpId];
      var cp := old_.(health := health, lastSeen := Some(now), status := StatusAfterHealth(old_.status, health));
      var c1 := BroadcastCp(c.(cps := c.cps[cpId := cp]), cp, HealthMessage(message));
      assert LinkedAt(c, cpId) && HostedAt(c, cpId);
      forall id | id in c1.cps
        ensures HostedAt(c1, id)
        ensures id != cpId || health == HealthStatus.Ok || cp.currentSessionId.None? ==> LinkedAt(c1, id)
      {
        assert LinkedAt(c, id) && HostedAt(c, id);
      }
      assert cp.currentSessionId.Some? ==> cp.currentSessionId.value != "";
      if health == HealthStatus.Fault && cp.currentSessionId.Some? {
        FinalizeRestores(c1, cp.currentSessionId.value, false, Some(OrDefault(message, FaultReason)), now, Some(cpId));
      }
    }
  }

  lemma RemoteCommandPreserves(c: Core, command: string, cpId: Option<string>)
    requires Consistent(c)
    ensures Consistent(RemoteCommandTo(c, command, cpId))
  {
  }

  // ---------------------------------------------------------------------
  // What the operations promise

  /** `request_supply` grants exactly when the CP exists, is available and
      has a channel. A grant records one new pending session, marks the CP
      pending with that session, asks the CP for authorisation and tells the
      driver; a denial creates no session, tells the driver it was denied,
      and sends nothing to any CP. An unknown or unavailable CP is turned
      down with one message to the requester alone, and no broadcast. */
  lemma RequestSupplyOutcome(c: Core, driverId: string, cpId: string, requestedKwh: Option<real>,
                             freshId: string, now: Time)
    requires driverId in c.driverChannels
    ensures RequestSupply(c, driverId, cpId, requestedKwh, freshId, now).Handled?
    ensures var n := RequestSupply(c, driverId, cpId, requestedKwh, freshId, now).next;
      var granted := cpId in c.cps && c.cps[cpId].status == Available && cpId in c.cpChannels;
      && n.driverChannels.Keys == c.driverChannels.Keys
      && |n.driverChannels[driverId]| > |c.driverChannels[driverId]|
      && n.driverChannels[driverId][|c.driverChannels[driverId]|].SupplyStatus?
      && n.driverChannels[driverId][|c.driverChannels[driverId]|].state
           == (if granted then Pending.Value() else Denied.Value())
      && (granted ==>
            && n.sessions == c.sessions[freshId := NewSession(freshId, cpId, driverId, requestedKwh, now)]
            && n.cps[cpId].status == PendingAuth && n.cps[cpId].currentSessionId == Some(freshId)
            && n.cpChannels == c.cpChannels[cpId := c.cpChannels[cpId] + [AuthorizeSupply(freshId, driverId, requestedKwh)]])
      && (!granted ==> n.sessions == c.sessions && n.cpChannels == c.cpChannels)
    ensures var n := RequestSupply(c, driverId, cpId, requestedKwh, freshId, now).next;
      cpId !in c.cps ==>
        && n.cps == c.cps
        && n.driverChannels.Keys == c.driverChannels.Keys
        && (forall d :: d in c.driverChannels ==>
              n.driverChannels[d] == (if d == driverId then c.driverChannels[d] + [DeniedStatus(UnknownCpText(cpId))]
                                      else c.driverChannels[d]))
    ensures var n := RequestSupply(c, driverId, cpId, requestedKwh, freshId, now).next;
      cpId in c.cps && c.cps[cpId].status != Available ==>
        && n.cps == c.cps[cpId := c.cps[cpId].(lastSeen := Some(now))]
        && n.driverChannels.Keys == c.driverChannels.Keys
        && (forall d :: d in c.driverChannels ==>
              n.driverChannels[d] == (if d == driverId
                                      then c.driverChannels[d] + [DeniedStatus(UnavailableText(cpId, c.cps[cpId].status))]
                                      else c.driverChannels[d]))
  {
  }

  /** What `request_supply` does to the CP table: nothing for an unknown CP;
      only the contact time for a CP that is not available; the contact time
      and the DISCONNECTED mark for an available CP with no channel; and for
      a grant, the contact time, PENDING_AUTH and the new session id. */
  lemma RequestSupplyCpFrame(c: Core, driverId: string, cpId: string, requestedKwh: Option<real>,
                             freshId: string, now: Time)
    requires driverId in c.driverChannels
    ensures var n := RequestSupply(c, driverId, cpId, requestedKwh, freshId, now).next;
      && (cpId !in c.cps ==> n.cps == c.cps)
      && (cpId in c.cps && c.cps[cpId].status != Available ==>
            n.cps == c.cps[cpId := c.cps[cpId].(lastSeen := Some(now))])
      && (cpId in c.cps && c.cps[cpId].status == Available && cpId !in c.cpChannels ==>
            n.cps == c.cps[cpId := c.cps[cpId].(lastSeen := Some(now), status := Disconnected)])
      && (cpId in c.cps && c.cps[cpId].status == Available && cpId in c.cpChannels ==>
            n.cps == c.cps[cpId := c.cps[cpId].(lastSeen := Some(now), status := PendingAuth,
                                                currentSessionId := Some(freshId))])
  {
  }

  /** A driver with no channel is refused with an exception and nothing changes. */
  lemma RequestSupplyNeedsDriver(c: Core, driverId: string, cpId: string, requestedKwh: Option<real>,
                                 freshId: string, now: Time)
    requires driverId !in c.driverChannels
    ensures RequestSupply(c, driverId, cpId, requestedKwh, freshId, now) == DriverNotConnected
  {
  }

  /** A CP with no channel is found disconnected: no session is created, the
      requesting driver is told DENIED because the CP is not connected, the
      CP is marked disconnected, and every connected driver then hears of it. */
  lemma RequestSupplyMarksDisconnected(c: Core, driverId: string, cpId: string, requestedKwh: Option<real>,
                                       freshId: string, now: Time)
    requires driverId in c.driverChannels && cpId in c.cps && c.cps[cpId].status == Available
    requires cpId !in c.cpChannels
    ensures var n := RequestSupply(c, driverId, cpId, requestedKwh, freshId, now).next;
      && n.sessions == c.sessions && n.cpChannels == c.cpChannels
      && n.cps[cpId].status == Disconnected
      && |n.driverChannels[driverId]| == |c.driverChannels[driverId]| + 2
      && n.driverChannels[driverId][|c.driverChannels[driverId]|] == DeniedStatus(NotConnectedText(cpId))
      && DeniedStatus(NotConnectedText(cpId)).state == Denied.Value()
      && forall d :: d in n.driverChannels ==>
           |n.driverChannels[d]| > 0 && n.driverChannels[d][|n.driverChannels[d]| - 1] == CpState(View(n.cps[cpId]), NoExtra)
  {
  }

  /** A rejection removes the session, frees the CP, and tells the driver
      DENIED with the reason, falling back to the default for a missing or
      empty one; the notice carries the session as denied with that reason. */
  lemma RejectionFreesCp(c: Core, sessionId: string, reason: Option<string>, now: Time)
    requires sessionId in c.sessions
    requires c.sessions[sessionId].cpId in c.cps && c.sessions[sessionId].driverId in c.driverChannels
    ensures var n := AuthorizationResponse(c, sessionId, false, reason, now);
      var s := c.sessions[sessionId];
      var why := if reason.Some? && reason.value != "" then reason.value else "Denegado por el punto";
      && sessionId !in n.sessions
      && n.cps[s.cpId].status == Available && n.cps[s.cpId].currentSessionId == None
      && |n.driverChannels[s.driverId]| > |c.driverChannels[s.driverId]|
      && n.driverChannels[s.driverId][|c.driverChannels[s.driverId]|]
           == SupplyStatus(Some(ToPublic(s.(state := Denied, reason := Some(why)))), "DENEGADA", Some(why))
  {
  }

  /** An acceptance authorises the session, starts its clock now and puts the
      CP in supply. A response for an unknown session, or whose CP or driver
      is gone, changes nothing. */
  lemma AcceptanceAuthorizes(c: Core, sessionId: string, accepted: bool, reason: Option<string>, now: Time)
    ensures var n := AuthorizationResponse(c, sessionId, accepted, reason, now);
      if sessionId !in c.sessions || c.sessions[sessionId].cpId !in c.cps
         || c.sessions[sessionId].driverId !in c.driverChannels then n == c
      else accepted ==>
        var s := c.sessions[sessionId];
        && n.sessions == c.sessions[sessionId := s.(state := Authorized, reason := Some("Autorizado"),
                                                    startedAt := Some(now))]
        && n.cps[s.cpId].status == Supplying
  {
  }

  /** A start keeps a start time already recorded. */
  lemma StartKeepsFirstTime(c: Core, sessionId: string, now: Time)
    requires sessionId in c.sessions
    ensures var n := SupplyStarted(c, sessionId, now);
      && n.sessions[sessionId].state == InProgress
      && n.sessions[sessionId].startedAt.Some?
      && (c.sessions[sessionId].startedAt.Some? ==> n.sessions[sessionId].startedAt == c.sessions[sessionId].startedAt)
  {
  }

  /** The amount owed is the reported amount when there is one, otherwise
      the energy at the coordinator's price; the session's other fields are
      untouched. */
  lemma ProgressPricing(c: Core, sessionId: string, energy: real, amount: Option<real>, price: real)
    requires sessionId in c.sessions
    ensures var n := SupplyProgress(c, sessionId, energy, amount, price);
      && n.sessions[sessionId] == c.sessions[sessionId].(energyDelivered := energy,
           amountDue := if amount.Some? then amount.value else energy * price)
  {
  }

  /** Finalising ends the session (finished on success, aborted otherwise),
      removes it, and releases its CP to available or fault according to its health. */
  lemma FinalizeReleases(c: Core, sessionId: string, success: bool, message: Option<string>, now: Time)
    requires sessionId in c.sessions && c.sessions[sessionId].cpId in c.cps
    ensures var n := FinalizeSession(c, sessionId, success, message, now);
      var s := c.sessions[sessionId];
      && sessionId !in n.sessions
      && n.cps[s.cpId].currentSessionId == None
      && n.cps[s.cpId].status == (if c.cps[s.cpId].health == HealthStatus.Ok then Available else CPStatus.Fault)
      && (s.driverId in c.driverChannels ==>
            n.driverChannels[s.driverId][|c.driverChannels[s.driverId]|]
              == SupplyStatus(Some(ToPublic(s.(finishedAt := Some(now), reason := message,
                                                state := if success then Finished else Aborted))),
                              (if success then "FINALIZADA" else "CANCELADA"), message))
  {
  }

  /** A FAULT report on a CP that carries a session aborts that session: the
      session leaves the map, the CP is left in fault with no session, and
      the driver, after the fault broadcast, is told CANCELADA with the
      report's message or, failing one, the default fault reason. */
  lemma FaultAbortsSession(c: Core, cpId: string, message: Option<string>, now: Time)
    requires Consistent(c) && cpId in c.cps
    requires c.cps[cpId].currentSessionId.Some?
    ensures var n := UpdateHealth(c, cpId, HealthStatus.Fault, message, now);
      && c.cps[cpId].currentSessionId.value !in n.sessions
      && n.cps[cpId].status == CPStatus.Fault && n.cps[cpId].currentSessionId == None
    ensures var n := UpdateHealth(c, cpId, HealthStatus.Fault, message, now);
      var s := c.sessions[c.cps[cpId].currentSessionId.value];
      var why := if message.Some? && message.value != "" then message.value else "Aver\U{00ED}a en el punto";
      s.driverId in c.driverChannels ==>
        && |n.driverChannels[s.driverId]| > |c.driverChannels[s.driverId]| + 1
        && n.driverChannels[s.driverId][|c.driverChannels[s.driverId]| + 1]
             == SupplyStatus(Some(ToPublic(s.(finishedAt := Some(now), state := Aborted, reason := Some(why)))),
                             "CANCELADA", Some(why))
  {
    assert HostedAt(c, cpId);
    var sid := c.cps[cpId].currentSessionId.value;
    assert c.sessions[sid].sessionId == sid;
    FaultAbortNotice(c, cpId, message, now);
  }

  /** The driver's notice of an abort after a FAULT report. */
  lemma FaultAbortNotice(c: Core, cpId: string, message: Option<string>, now: Time)
    requires cpId in c.cps && c.cps[cpId].currentSessionId.Some?
    requires c.cps[cpId].currentSessionId.value != "" && c.cps[cpId].currentSessionId.value in c.sessions
    ensures var n := UpdateHealth(c, cpId, HealthStatus.Fault, message, now);
      var s := c.sessions[c.cps[cpId].currentSessionId.value];
      var why := if message.Some? && message.value != "" then message.value else "Aver\U{00ED}a en el punto";
      s.driverId in c.driverChannels ==>
        && |n.driverChannels[s.driverId]| > |c.driverChannels[s.driverId]| + 1
        && n.driverChannels[s.driverId][|c.driverChannels[s.driverId]| + 1]
             == SupplyStatus(Some(ToPublic(s.(finishedAt := Some(now), state := Aborted, reason := Some(why)))),
                             "CANCELADA", Some(why))
  {
    var sid := c.cps[cpId].currentSessionId.value;
    var s := c.sessions[sid];
    var old_ := c.cps[cpId];
    var cp := old_.(health := HealthStatus.Fault, lastSeen := Some(now), status := CPStatus.Fault);
    var c1 := BroadcastCp(c.(cps := c.cps[cpId := cp]), cp, HealthMessage(message));
    var why := OrDefault(message, FaultReason);
    assert UpdateHealth(c, cpId, HealthStatus.Fault, message, now) == FinalizeSession(c1, sid, false, Some(why), now);
    if s.driverId in c.driverChannels {
      FinalizeNotice(c1, sid, false, Some(why), now);
    }
  }

  /** The driver's notice of a finalisation, appended to its channel. */
  lemma FinalizeNotice(c: Core, sessionId: string, success: bool, message: Option<string>, now: Time)
    requires sessionId in c.sessions && c.sessions[sessionId].driverId in c.driverChannels
    ensures var n := FinalizeSession(c, sessionId, success, message, now);
      var s := c.sessions[sessionId];
      && |n.driverChannels[s.driverId]| > |c.driverChannels[s.driverId]|
      && n.driverChannels[s.driverId][|c.driverChannels[s.driverId]|]
           == SupplyStatus(Some(ToPublic(s.(finishedAt := Some(now), reason := message,
                                             state := if success then Finished else Aborted))),
                           (if success then "FINALIZADA" else "CANCELADA"), message)
  {
  }

  /** Every health report on a known CP stores the reported health and the
      contact time, and a FAULT report leaves the CP in fault whether or not
      it hosted a session. A report that aborts nothing (an OK report, or a
      CP hosting no session) changes only that CP's health, contact time and
      status, and tells every driver the CP's new state with the report's
      message. */
  lemma HealthReportStored(c: Core, cpId: string, health: HealthStatus, message: Option<string>, now: Time)
    requires cpId in c.cps
    ensures var n := UpdateHealth(c, cpId, health, message, now);
      && n.cps.Keys == c.cps.Keys
      && n.cps[cpId].health == health && n.cps[cpId].lastSeen == Some(now)
      && (health == HealthStatus.Fault ==> n.cps[cpId].status == CPStatus.Fault)
    ensures var n := UpdateHealth(c, cpId, health, message, now);
      var cp := c.cps[cpId].(health := health, lastSeen := Some(now),
                             status := if health == HealthStatus.Fault then CPStatus.Fault
                                       else if c.cps[cpId].status == CPStatus.Fault then Available
                                       else c.cps[cpId].status);
      health == HealthStatus.Ok || c.cps[cpId].currentSessionId.None? ==>
        && n.cps == c.cps[cpId := cp]
        && n.sessions == c.sessions && n.cpChannels == c.cpChannels
        && n.driverChannels.Keys == c.driverChannels.Keys
        && (forall d :: d in c.driverChannels ==>
              n.driverChannels[d] == c.driverChannels[d] + [CpState(View(cp), HealthMessage(message))])
  {
  }

  /** An OK report lifts a fault and leaves every other status as it was. */
  lemma OkReportLiftsFault(c: Core, cpId: string, message: Option<string>, now: Time)
    requires cpId in c.cps
    ensures var n := UpdateHealth(c, cpId, HealthStatus.Ok, message, now);
      && n.sessions == c.sessions
      && n.cps[cpId].health == HealthStatus.Ok
      && n.cps[cpId].status == (if c.cps[cpId].status == CPStatus.Fault then Available else c.cps[cpId].status)
  {
  }

  /** `attach_cp_channel` registers the channel in place of any earlier one,
      creates an unknown CP with an empty location, makes the CP available
      when its health is OK and in fault otherwise, records the contact, and
      broadcasts the CP to every driver; sessions and other CPs are untouched. */
  lemma AttachCpOutcome(c: Core, cpId: string, channel: Log, now: Time)
    ensures var n := AttachCp(c, cpId, channel, now);
      var health := if cpId in c.cps then c.cps[cpId].health else HealthStatus.Ok;
      && n.cpChannels == c.cpChannels[cpId := channel]
      && n.sessions == c.sessions
      && n.cps.Keys == c.cps.Keys + {cpId}
      && (forall id :: id in c.cps && id != cpId ==> n.cps[id] == c.cps[id])
      && n.cps[cpId].status == (if health == HealthStatus.Ok then Available else CPStatus.Fault)
      && n.cps[cpId].lastSeen == Some(now)
      && (cpId in c.cps ==> n.cps[cpId] == c.cps[cpId].(status := n.cps[cpId].status, lastSeen := Some(now)))
      && (cpId !in c.cps ==> n.cps[cpId].location == "" && n.cps[cpId].currentSessionId == None)
      && n.driverChannels.Keys == c.driverChannels.Keys
      && (forall d :: d in c.driverChannels ==>
            n.driverChannels[d] == c.driverChannels[d] + [CpState(View(n.cps[cpId]), NoExtra)])
  {
  }

  /** A report or detach for an unknown CP, and a start, progress,
      finalisation or authorisation response for an unknown session, change
      nothing. */
  lemma UnknownIdsNoOp(c: Core, cpId: string, sessionId: string, health: HealthStatus,
                       message: Option<string>, success: bool, accepted: bool,
                       energy: real, amount: Option<real>, price: real, now: Time)
    ensures cpId !in c.cps ==> UpdateHealth(c, cpId, health, message, now) == c
    ensures cpId !in c.cps ==> DetachCp(c, cpId, now) == c
    ensures sessionId !in c.sessions ==> SupplyStarted(c, sessionId, now) == c
    ensures sessionId !in c.sessions ==> SupplyProgress(c, sessionId, energy, amount, price) == c
    ensures sessionId !in c.sessions ==> FinalizeSession(c, sessionId, success, message, now) == c
    ensures sessionId !in c.sessions ==> AuthorizationResponse(c, sessionId, accepted, message, now) == c
  {
  }

  /** Disconnecting a CP forgets its session id but not the session itself. */
  lemma DetachKeepsSession(c: Core, cpId: string, now: Time)
    requires cpId in c.cps
    ensures var n := DetachCp(c, cpId, now);
      n.sessions == c.sessions && cpId !in n.cpChannels
      && n.cps[cpId].status == Disconnected && n.cps[cpId].currentSessionId == None
  {
  }

  /** `register_cp` creates an unknown CP at the given location and
      otherwise changes only the location, and only to a non-empty different
      one; channels, sessions and other CPs are untouched and nobody is told. */
  lemma RegisterCpOutcome(c: Core, cpId: string, location: string)
    ensures var n := RegisterCp(c, cpId, location);
      && n.cps.Keys == c.cps.Keys + {cpId}
      && n.sessions == c.sessions && n.cpChannels == c.cpChannels && n.driverChannels == c.driverChannels
      && (forall id :: id in c.cps && id != cpId ==> n.cps[id] == c.cps[id])
      && (cpId !in c.cps ==> n.cps[cpId] == NewChargingPoint(cpId, location))
      && (cpId in c.cps ==>
            n.cps[cpId] == c.cps[cpId].(location := if location != "" then location else c.cps[cpId].location))
  {
  }

  /** Detaching a driver forgets its channel alone; other drivers' channels
      and the rest of the state are untouched. Attaching one changes no CP,
      session or CP channel and no other driver's channel. */
  lemma DriverChannelsOutcome(c: Core, driverId: string, channel: Log)
    ensures var n := DetachDriver(c, driverId);
      && n.driverChannels.Keys == c.driverChannels.Keys - {driverId}
      && (forall d :: d in n.driverChannels ==> n.driverChannels[d] == c.driverChannels[d])
      && n.cps == c.cps && n.sessions == c.sessions && n.cpChannels == c.cpChannels
    ensures var n := AttachDriver(c, driverId, channel);
      && n.driverChannels.Keys == c.driverChannels.Keys + {driverId}
      && (forall d :: d in c.driverChannels && d != driverId ==> n.driverChannels[d] == c.driverChannels[d])
      && n.cps == c.cps && n.sessions == c.sessions && n.cpChannels == c.cpChannels
  {
  }

  /** A new driver channel receives exactly one message: the snapshot of every CP. */
  lemma AttachDriverSnapshot(c: Core, driverId: string, channel: Log)
    ensures AttachDriver(c, driverId, channel).driverChannels[driverId]
         == channel + [Snapshot(map id | id in c.cps :: View(c.cps[id]))]
  {
  }

  /** A remote command to a named CP reaches that CP only; to no CP in
      particular it reaches every CP. No CP status changes. */
  lemma RemoteCommandReach(c: Core, command: string, cpId: Option<string>)
    ensures var n := RemoteCommandTo(c, command, cpId);
      && n.cps == c.cps && n.cpChannels.Keys == c.cpChannels.Keys
      && forall id :: id in c.cpChannels ==>
           n.cpChannels[id] == c.cpChannels[id] +
             (if cpId.None? || cpId.value == id then [RemoteCommand(command)] else [])
  {
  }

  // ---------------------------------------------------------------------
  // The unit-test scenarios

  /** One CP registered at `location` and connected, and one driver connected,
      both with fresh channels. */
  function Connected(cpId: string, location: string, driverId: string): Core {
    AttachDriver(AttachCp(RegisterCp(Init([]), cpId, location), cpId, [], 1), driverId, [])
  }

  lemma ConnectedState(cpId: string, location: string, driverId: string)
    ensures Connected(cpId, location, driverId)
         == Core(map[cpId := ChargingPoint(cpId, location, Available, HealthStatus.Ok, None, Some(1))],
                 map[], map[cpId := []],
                 map[driverId := [Snapshot(map[cpId := CpView(cpId, location, "ACTIVADO", "OK", None)])]])
  {
    var m := CpState(CpView(cpId, location, "ACTIVADO", "OK", None), NoExtra);
    assert Broadcast(map[], m) == map[];
    var cp := ChargingPoint(cpId, location, Available, HealthStatus.Ok, None, Some(1));
    var registered := RegisterCp(Init([]), cpId, location);
    assert registered == Core(map[cpId := NewChargingPoint(cpId, location)], map[], map[], map[]);
    var attached := Core(map[cpId := cp], map[], map[cpId := []], map[]);
    assert AttachCp(registered, cpId, [], 1) == attached;
    var snap := map id | id in attached.cps :: View(attached.cps[id]);
    assert snap == map[cpId := CpView(cpId, location, "ACTIVADO", "OK", None)];
    var withDriver := attached.(driverChannels := map[driverId := []]);
    assert withDriver.cps == attached.cps;
    assert [] + [Snapshot(snap)] == [Snapshot(snap)];
    assert SendTo(map[driverId := []], driverId, Snapshot(snap)) == map[driverId := [Snapshot(snap)]];
  }

  lemma ConnectedConsistent(cpId: string, location: string, driverId: string)
    ensures Consistent(Connected(cpId, location, driverId))
  {
    ConnectedState(cpId, location, driverId);
    var c := Connected(cpId, location, driverId);
    assert LinkedAt(c, cpId) && HostedAt(c, cpId);
  }

  /** Register, attach and detach: the CP keeps its location and goes
      available, then disconnected. */
  lemma RegisterAttachDetach(ch: Log)
    ensures var c1 := RegisterCp(Init([]), "CP-01", "Campus Norte");
      var c2 := AttachCp(c1, "CP-01", ch, 1);
      var c3 := DetachCp(c2, "CP-01", 2);
      && c1.cps["CP-01"].location == "Campus Norte"
      && c2.cps["CP-01"].status == Available
      && c3.cps["CP-01"].status == Disconnected
  {
  }

  /** A state with one connected driver `d` and a live session `sid` of
      `d` at the known CP `cpId`. */
  predicate OneDriverSession(c: Core, cpId: string, d: string, sid: string) {
    && c.driverChannels.Keys == {d} && cpId in c.cps
    && sid in c.sessions && c.sessions[sid].cpId == cpId && c.sessions[sid].driverId == d
  }

  /** With a single driver, an acceptance sends it the AUTORIZADA status and then the CP's state. */
  lemma AcceptStep(c: Core, cpId: string, d: string, sid: string, now: Time)
    requires OneDriverSession(c, cpId, d, sid)
    ensures var n := AuthorizationResponse(c, sid, true, None, now);
      && OneDriverSession(n, cpId, d, sid)
      && n.cps[cpId].health == c.cps[cpId].health
      && n.driverChannels[d] == c.driverChannels[d]
           + [SupplyStatus(Some(ToPublic(n.sessions[sid])), "AUTORIZADA", Some("Conecta el veh\U{00ED}culo al punto")),
              CpState(View(n.cps[cpId]), NoExtra)]
  {
  }

  /** With a single driver, a start sends it the EN_CURSO status and then the CP's state. */
  lemma StartStep(c: Core, cpId: string, d: string, sid: string, now: Time)
    requires OneDriverSession(c, cpId, d, sid)
    ensures var n := SupplyStarted(c, sid, now);
      && OneDriverSession(n, cpId, d, sid) && n.cps == c.cps
      && n.driverChannels[d] == c.driverChannels[d]
           + [SupplyStatus(Some(ToPublic(n.sessions[sid])), "EN_CURSO", Some("Suministro en curso")),
              CpState(View(n.cps[cpId]), NoExtra)]
  {
  }

  /** With a single driver, a progress report sends it the priced update and then the CP's state. */
  lemma ProgressStep(c: Core, cpId: string, d: string, sid: string, energy: real, price: real)
    requires OneDriverSession(c, cpId, d, sid)
    ensures var n := SupplyProgress(c, sid, energy, None, price);
      && OneDriverSession(n, cpId, d, sid) && n.cps == c.cps
      && n.sessions[sid].amountDue == energy * price
      && n.driverChannels[d] == c.driverChannels[d]
           + [SupplyUpdate(ToPublic(n.sessions[sid])), CpState(View(n.cps[cpId]), NoExtra)]
  {
  }

  /** With a single driver, a successful finish sends it FINALIZADA and then
      the CP's state, and releases a healthy CP. */
  lemma FinishStep(c: Core, cpId: string, d: string, sid: string, message: Option<string>, now: Time)
    requires OneDriverSession(c, cpId, d, sid) && c.cps[cpId].health == HealthStatus.Ok
    ensures var n := FinalizeSession(c, sid, true, message, now);
      && sid !in n.sessions && cpId in n.cps && n.cps[cpId].status == Available
      && n.driverChannels.Keys == {d}
      && Extends(n.driverChannels[d], c.driverChannels[d], 2)
      && StatusAt(n.driverChannels[d], |c.driverChannels[d]|, "FINALIZADA")
  {
  }

  /** A connected, healthy, available CP with an empty channel, no sessions,
    and one connected driver `d` that has received one message. */
  predicate ReadyFor(c: Core, cpId: string, d: string) {
    && c.driverChannels.Keys == {d} && |c.driverChannels[d]| == 1
    && cpId in c.cps && c.cps[cpId].status == Available && c.cps[cpId].health == HealthStatus.Ok
    && c.cpChannels == map[cpId := []] && c.sessions == map[]
  }

  /** The state the unit tests start from is ready. */
  lemma ConnectedReady(cpId: string, location: string, d: string)
    ensures ReadyFor(Connected(cpId, location, d), cpId, d)
  {
    ConnectedState(cpId, location, d);
  }

  /** The request of the happy path: granted, the CP asked once, the driver
      told PENDIENTE. */
  lemma HappyRequest(c0: Core, cpId: string, d: string, sid: string, kwh: Option<real>)
    requires ReadyFor(c0, cpId, d) && sid != ""
    ensures RequestSupply(c0, d, cpId, kwh, sid, 2).Handled?
    ensures var c1 := RequestSupply(c0, d, cpId, kwh, sid, 2).next;
      && OneDriverSession(c1, cpId, d, sid) && c1.cps[cpId].health == HealthStatus.Ok
      && c1.cpChannels[cpId] == [AuthorizeSupply(sid, d, kwh)]
      && |c1.driverChannels[d]| == 3 && StatusAt(c1.driverChannels[d], 1, "PENDIENTE")
  {
    RequestSupplyOutcome(c0, d, cpId, kwh, sid, 2);
  }

  /** The message at position `i` of a log is a supply status in `state`. */
  predicate StatusAt(log: Log, i: int, state: string) {
    0 <= i < |log| && log[i].SupplyStatus? && log[i].state == state
  }

  /** The message at position `i` of a log is a progress update owing `amount`. */
  predicate UpdateAt(log: Log, i: int, amount: real) {
    0 <= i < |log| && log[i].SupplyUpdate? && log[i].update.amountDue == amount
  }

  /** `log` is `before` followed by `k` more messages. */
  predicate Extends(log: Log, before: Log, k: nat) {
    |log| == |before| + k && log[..|before|] == before
  }

  /** An extended log keeps its earlier entries. */
  lemma {:induction false} PrefixAt(log: Log, before: Log, k: nat, i: int)
    requires Extends(log, before, k) && 0 <= i < |before|
    ensures log[i] == before[i]
  {
    assert log[..|before|][i] == log[i];
  }

  /** A log that grows by two messages twice keeps its old part and holds the
      four new messages in order. */
  lemma {:induction false} GrowsByTwoTwice(a: Log, b: Log, c: Log, x1: Message, x2: Message, y1: Message, y2: Message)
    requires b == a + [x1, x2] && c == b + [y1, y2]
    ensures |c| == |a| + 4 && c[..|a|] == a && c[..|a| + 2] == b
    ensures c[|a|] == x1 && c[|a| + 1] == x2 && c[|a| + 2] == y1 && c[|a| + 3] == y2
  {
    assert c == a + [x1, x2, y1, y2];
  }

  /** A log that grows by two known messages and then by two more keeps its
      old part and the first two messages. */
  lemma {:induction false} GrowsThenExtends(a: Log, b: Log, c: Log, x1: Message, x2: Message)
    requires b == a + [x1, x2] && Extends(c, b, 2)
    ensures Extends(c, a, 4) && c[..|a| + 2] == b && c[|a|] == x1
  {
    assert c[..|a|] == b[..|a|];
    assert b[..|a|] == a;
  }

  /** Acceptance and start: two status messages, each followed by the CP's state. */
  lemma HappyAcceptStart(c1: Core, c2: Core, c3: Core, cpId: string, d: string, sid: string)
    requires OneDriverSession(c1, cpId, d, sid)
    requires c2 == AuthorizationResponse(c1, sid, true, None, 3)
    requires c3 == SupplyStarted(c2, sid, 4)
    ensures OneDriverSession(c3, cpId, d, sid) && c3.cps[cpId].health == c1.cps[cpId].health
    ensures var log := c3.driverChannels[d];
      && Extends(log, c1.driverChannels[d], 4)
      && StatusAt(log, |c1.driverChannels[d]|, "AUTORIZADA")
      && StatusAt(log, |c1.driverChannels[d]| + 2, "EN_CURSO")
  {
    AcceptStep(c1, cpId, d, sid, 3);
    StartStep(c2, cpId, d, sid, 4);
    var n2 := c2.driverChannels[d][|c1.driverChannels[d]|..];
    var n3 := c3.driverChannels[d][|c2.driverChannels[d]|..];
    GrowsByTwoTwice(c1.driverChannels[d], c2.driverChannels[d], c3.driverChannels[d], n2[0], n2[1], n3[0], n3[1]);
  }

  /** Progress and finish: the priced update and FINALIZADA, each followed by the CP's state. */
  lemma HappyProgressFinish(c3: Core, c4: Core, c5: Core, cpId: string, d: string, sid: string,
                            energy: real, price: real)
    requires OneDriverSession(c3, cpId, d, sid) && c3.cps[cpId].health == HealthStatus.Ok
    requires c4 == SupplyProgress(c3, sid, energy, None, price)
    requires c5 == FinalizeSession(c4, sid, true, Some("Completado"), 5)
    ensures d in c5.driverChannels && cpId in c5.cps
    ensures var log := c5.driverChannels[d];
      && Extends(log, c3.driverChannels[d], 4)
      && UpdateAt(log, |c3.driverChannels[d]|, energy * price)
      && StatusAt(log, |c3.driverChannels[d]| + 2, "FINALIZADA")
    ensures sid !in c5.sessions && c5.cps[cpId].status == Available
  {
    ProgressStep(c3, cpId, d, sid, energy, price);
    FinishStep(c4, cpId, d, sid, Some("Completado"), 5);
    GrowsThenExtends(c3.driverChannels[d], c4.driverChannels[d], c5.driverChannels[d],
                     SupplyUpdate(ToPublic(c4.sessions[sid])), CpState(View(c4.cps[cpId]), NoExtra));
  }

  /** The happy path: request, accept, start, progress, finish. The CP is
      asked once to authorise; the driver's supply messages go PENDIENTE,
      AUTORIZADA, EN_CURSO, an update priced at the coordinator's price,
      FINALIZADA; the session is gone at the end and the CP available again. */
  lemma HappyPath(c0: Core, c1: Core, c2: Core, c3: Core, c4: Core, c5: Core,
                  cpId: string, d: string, sid: string, kwh: Option<real>, energy: real, price: real)
    requires ReadyFor(c0, cpId, d) && sid != ""
    requires RequestSupply(c0, d, cpId, kwh, sid, 2) == Handled(c1)
    requires c2 == AuthorizationResponse(c1, sid, true, None, 3)
    requires c3 == SupplyStarted(c2, sid, 4)
    requires c4 == SupplyProgress(c3, sid, energy, None, price)
    requires c5 == FinalizeSession(c4, sid, true, Some("Completado"), 5)
    ensures cpId in c1.cpChannels && c1.cpChannels[cpId] == [AuthorizeSupply(sid, d, kwh)]
    ensures d in c5.driverChannels && cpId in c5.cps
    ensures var log := c5.driverChannels[d];
      && |log| == 11
      && StatusAt(log, 1, "PENDIENTE") && StatusAt(log, 3, "AUTORIZADA") && StatusAt(log, 5, "EN_CURSO")
      && UpdateAt(log, 7, energy * price) && StatusAt(log, 9, "FINALIZADA")
    ensures sid !in c5.sessions && c5.cps[cpId].status == Available
  {
    HappyRequest(c0, cpId, d, sid, kwh);
    HappyAcceptStart(c1, c2, c3, cpId, d, sid);
    HappyProgressFinish(c3, c4, c5, cpId, d, sid, energy, price);
    var log1, log3, log := c1.driverChannels[d], c3.driverChannels[d], c5.driverChannels[d];
    PrefixAt(log3, log1, 4, 1);
    PrefixAt(log, log3, 4, 1);
    PrefixAt(log, log3, 4, 3);
    PrefixAt(log, log3, 4, 5);
  }

  /** A registered CP that never connected is denied as not available, and
      no session is created. */
  lemma DeniedWhenUnavailable(sid: string)
    ensures RequestSupply(AttachDriver(RegisterCp(Init([]), "CP-03", "Campus Oeste"), "DRV-2", []),
                          "DRV-2", "CP-03", None, sid, 1).Handled?
    ensures var c0 := AttachDriver(RegisterCp(Init([]), "CP-03", "Campus Oeste"), "DRV-2", []);
      var c1 := RequestSupply(c0, "DRV-2", "CP-03", None, sid, 1).next;
      && "DRV-2" in c1.driverChannels && |c1.driverChannels["DRV-2"]| > 1
      && c1.driverChannels["DRV-2"][1]
           == DeniedStatus("El punto " + "CP-03" + " no est\U{00E1} disponible (" + "DESCONECTADO" + ")")
      && c1.sessions == map[]
  {
    var c0 := AttachDriver(RegisterCp(Init([]), "CP-03", "Campus Oeste"), "DRV-2", []);
    assert c0.cps["CP-03"].status == Disconnected && "CP-03" !in c0.cpChannels && |c0.driverChannels["DRV-2"]| == 1;
  }

  // ---------------------------------------------------------------------
  // Where the status/session link fails

  /** Connected, then a request from the driver granted with session `sid`. */
  function Requested(sid: string): Core {
    RequestSupply(Connected("CP", "", "D"), "D", "CP", None, sid, 2).next
  }

  lemma RequestedState(sid: string)
    requires sid != ""
    ensures var c := Requested(sid);
      && Consistent(c)
      && c.cps.Keys == {"CP"} && "CP" in c.cpChannels
      && c.cps["CP"].status == PendingAuth && c.cps["CP"].currentSessionId == Some(sid)
      && c.cps["CP"].health == HealthStatus.Ok
      && c.sessions == map[sid := NewSession(sid, "CP", "D", None, 2)]
      && "D" in c.driverChannels
  {
    var c0 := Connected("CP", "", "D");
    ConnectedState("CP", "", "D");
    ConnectedConsistent("CP", "", "D");
    RequestSupplyOutcome(c0, "D", "CP", None, sid, 2);
    RequestSupplyPreserves(c0, "D", "CP", None, sid, 2);
  }

  /** Reconnecting a CP that is pending authorisation makes it available
      while it still names its session. */
  lemma ReattachBreaksLink(sid: string)
    requires sid != ""
    ensures var c1 := Requested(sid);
      var c2 := AttachCp(c1, "CP", [], 3);
      && Consistent(c1)
      && !SessionLinked(c2)
      && c2.cps["CP"].status == Available && c2.cps["CP"].currentSessionId == Some(sid)
  {
    RequestedState(sid);
    var c2 := AttachCp(Requested(sid), "CP", [], 3);
    assert !LinkedAt(c2, "CP");
  }

  /** Connected, a request granted with `sid`, then the CP drops and comes back. */
  function Reconnected(sid: string): Core {
    AttachCp(DetachCp(Requested(sid), "CP", 3), "CP", [], 4)
  }

  lemma ReconnectedState(sid: string)
    requires sid != ""
    ensures var c := Reconnected(sid);
      && Consistent(c)
      && c.cps.Keys == {"CP"} && "CP" in c.cpChannels && "D" in c.driverChannels
      && c.cps["CP"].status == Available && c.cps["CP"].currentSessionId == None
      && c.sessions == map[sid := NewSession(sid, "CP", "D", None, 2)]
  {
    RequestedState(sid);
    var c1 := Requested(sid);
    DetachCpPreserves(c1, "CP", 3);
    var d := DetachCp(c1, "CP", 3);
    AttachCpPreserves(d, "CP", [], 4);
  }

  /** A late acceptance, for a session whose CP disconnected and came back
      meanwhile, puts the CP in supply with no session id. */
  lemma LateAcceptBreaksLink(sid: string)
    requires sid != ""
    ensures var c2 := Reconnected(sid);
      var c3 := AuthorizationResponse(c2, sid, true, None, 5);
      && Consistent(c2)
      && !SessionLinked(c3)
      && c3.cps["CP"].status == Supplying && c3.cps["CP"].currentSessionId == None
  {
    ReconnectedState(sid);
    var c3 := AuthorizationResponse(Reconnected(sid), sid, true, None, 5);
    assert !LinkedAt(c3, "CP");
  }

  /** Two live sessions for one CP: the first survives the disconnection,
      and the CP takes a new request after it reconnects. */
  lemma TwoSessionsOnOneCp(a: string, b: string)
    requires a != "" && b != "" && a != b
    ensures var c3 := RequestSupply(Reconnected(a), "D", "CP", None, b, 5).next;
      && Consistent(c3)
      && a in c3.sessions && b in c3.sessions
      && c3.sessions[a].cpId == "CP" && c3.sessions[b].cpId == "CP"
  {
    ReconnectedState(a);
    var c2 := Reconnected(a);
    RequestSupplyOutcome(c2, "D", "CP", None, b, 5);
    RequestSupplyPreserves(c2, "D", "CP", None, b, 5);
  }

  // ---------------------------------------------------------------------
  // The lock re-entries

  /** As written, a request for an available CP without a channel never
      releases the lock: the denial has reached the driver, the CP is marked
      disconnected, and no driver is told. */
  lemma DenialWithoutChannelDeadlocks(c: Core, driverId: string, cpId: string,
                                      requestedKwh: Option<real>, freshId: string, now: Time)
    requires driverId in c.driverChannels && cpId in c.cps && c.cps[cpId].status == Available
    requires cpId !in c.cpChannels
    ensures var r := RequestSupplyAsWritten(c, driverId, cpId, requestedKwh, freshId, now);
      && r.Some? && r.value.Deadlocked?
      && r.value.stuck.cps[cpId].status == Disconnected
      && forall d :: d in c.driverChannels && d != driverId ==>
           r.value.stuck.driverChannels[d] == c.driverChannels[d]
  {
  }

  /** As written, a rejection never releases the lock and the rejected
      session stays in the map, so the CP's view and the session table disagree. */
  lemma RejectionDeadlocks(c: Core, sessionId: string, reason: Option<string>, now: Time)
    requires sessionId in c.sessions
    requires c.sessions[sessionId].cpId in c.cps && c.sessions[sessionId].driverId in c.driverChannels
    ensures var r := AuthorizationResponseAsWritten(c, sessionId, false, reason, now);
      && r.Deadlocked?
      && sessionId in r.stuck.sessions && r.stuck.sessions[sessionId].state == Denied
      && !Live(r.stuck.sessions[sessionId].state)
  {
  }

  /** Apart from the two re-entries, the operations end as the functions the
      coordinator uses. */
  lemma AsWrittenAgreesElsewhere(c: Core, driverId: string, cpId: string, requestedKwh: Option<real>,
                                 freshId: string, sessionId: string, accepted: bool,
                                 reason: Option<string>, now: Time)
    ensures driverId in c.driverChannels && !(cpId in c.cps && c.cps[cpId].status == Available && cpId !in c.cpChannels) ==>
      RequestSupplyAsWritten(c, driverId, cpId, requestedKwh, freshId, now)
        == Some(Released(RequestSupply(c, driverId, cpId, requestedKwh, freshId, now).next))
    ensures accepted ==>
      AuthorizationResponseAsWritten(c, sessionId, accepted, reason, now)
        == Released(AuthorizationResponse(c, sessionId, accepted, reason, now))
  {
  }
}
