/** The charge-point engine: its charging state, the commands it takes from
    the bus, and its answer to the monitor's health probe. */
module Engine {
  import opened Wrappers
  import opened PyText
  import TextCentral

  /** The part of the engine's state that its operations change. */
  datatype Snapshot = Snapshot(ok: bool, charging: bool, driverId: Option<string>,
                               kwCurrent: real, eurosAccum: real)

  /** `toggle_ok` on the state. */
  function Toggled(s: Snapshot): (r: Snapshot)
    ensures r.ok == !s.ok && r.(ok := s.ok) == s
  {
    s.(ok := !s.ok)
  }

  /** `start_charge` on the state. */
  function Started(s: Snapshot, driver: Option<string>): (r: Snapshot)
    ensures r.charging && r.driverId == driver && r.kwCurrent == 0.0 && r.eurosAccum == 0.0
    ensures r.ok == s.ok
  {
    s.(charging := true, driverId := driver, kwCurrent := 0.0, eurosAccum := 0.0)
  }

  /** `stop_charge` on the state. */
  function Stopped(s: Snapshot): (r: Snapshot)
    ensures !r.charging && r.driverId == None && r.kwCurrent == 0.0 && r.eurosAccum == 0.0
    ensures r.ok == s.ok
  {
    s.(charging := false, driverId := None, kwCurrent := 0.0, eurosAccum := 0.0)
  }

  /** Toggling twice gives back the original health, and nothing else moves. */
  lemma ToggleTwice(s: Snapshot)
    ensures Toggled(Toggled(s)) == s
  {
  }

  /** Stopping after a start leaves what stopping alone leaves: a charge
      leaves no trace once stopped. */
  lemma StopForgetsStart(s: Snapshot, driver: Option<string>)
    ensures Stopped(Started(s, driver)) == Stopped(s)
  {
  }

  /** An idle engine has no driver and no counters. */
  predicate IdleClean(s: Snapshot) {
    !s.charging ==> s.driverId == None && s.kwCurrent == 0.0 && s.eurosAccum == 0.0
  }

  /** A field of a JSON command: missing, explicitly null, or a string. */
  datatype Field = Absent | Null | Str(value: string)

  /** `payload.get(key)`: no value for a missing or null field. */
  function Get(f: Field): Option<string> {
    match f
    case Str(v) => Some(v)
    case _ => None
  }

  /** `payload.get(key, default)`: the default only for a missing field; an
      explicit null stays null. */
  function GetDefault(f: Field, default: string): (r: Option<string>)
    ensures f.Absent? ==> r == Some(default)
    ensures f.Null? ==> r == None
    ensures f.Str? ==> r == Some(f.value)
  {
    match f
    case Absent => Some(default)
    case Null => None
    case Str(v) => Some(v)
  }

  /** A command from the bus. */
  datatype Payload = Payload(cpId: Field, op: Field, driverId: Field)

  /** The command filter: a command is taken when it names no charge point,
      names this one, or names "all". */
  predicate ForThisCp(payload: Payload, myId: string) {
    Get(payload.cpId) == None || Get(payload.cpId) == Some(myId) || Get(payload.cpId) == Some("all")
  }

  /** `_on_command` on the state. */
  function AfterCommand(s: Snapshot, myId: string, payload: Payload): Snapshot {
    if !ForThisCp(payload, myId) then s
    else if Get(payload.op) == Some("start_charge") then Started(s, GetDefault(payload.driverId, "unknown"))
    else if Get(payload.op) == Some("stop_charge") then Stopped(s)
    else if Get(payload.op) == Some("toggle_ko") then Toggled(s)
    else s
  }

  /** Commands for another charge point, and commands with an unknown (or no)
      operation, change nothing; the three known operations do what their
      names say, a start without a driver being for "unknown". */
  lemma CommandEffect(s: Snapshot, myId: string, payload: Payload)
    ensures !ForThisCp(payload, myId) ==> AfterCommand(s, myId, payload) == s
    ensures Get(payload.op) !in {Some("start_charge"), Some("stop_charge"), Some("toggle_ko")}
            ==> AfterCommand(s, myId, payload) == s
    ensures ForThisCp(payload, myId) && Get(payload.op) == Some("start_charge") && payload.driverId.Absent?
            ==> AfterCommand(s, myId, payload) == Started(s, Some("unknown"))
    ensures ForThisCp(payload, myId) && Get(payload.op) == Some("stop_charge")
            ==> AfterCommand(s, myId, payload) == Stopped(s)
    ensures ForThisCp(payload, myId) && Get(payload.op) == Some("toggle_ko")
            ==> AfterCommand(s, myId, payload) == Toggled(s)
  {
  }

  /** Every command keeps an idle engine free of driver and counters. */
  lemma CommandKeepsIdleClean(s: Snapshot, myId: string, payload: Payload)
    requires IdleClean(s)
    ensures IdleClean(AfterCommand(s, myId, payload))
  {
  }

  /** The operator's stop command for a charge point; its reason field is
      not read by the engine. */
  function CentralStop(c: string): Payload {
    Payload(Str(c), Str("stop_charge"), Absent)
  }

  /** The command Central publishes for a bus message, as the engine
      receives it; invoices go to another topic and are no command. */
  function CommandFor(m: TextCentral.BusMessage): Option<Payload> {
    match m
    case StartCommand(c, d) => Some(Payload(Str(c), Str("start_charge"), Str(d)))
    case StopCommand(c, d) => Some(Payload(Str(c), Str("stop_charge"), Str(d)))
    case OperatorStop(c) => Some(CentralStop(c))
    case Invoice(_, _, _, _) => None
  }

  /** What Central grants, the addressed engine carries out: a start command
      starts the charge for that driver, a stop command or the operator's
      stop ends it, and an engine with another id ignores all three. */
  lemma CentralCommandsReachEngine(s: Snapshot, c: string, d: string, other: string)
    requires other != c && c != "all"
    ensures AfterCommand(s, c, CommandFor(TextCentral.StartCommand(c, d)).value) == Started(s, Some(d))
    ensures AfterCommand(s, c, CommandFor(TextCentral.StopCommand(c, d)).value) == Stopped(s)
    ensures AfterCommand(s, c, CommandFor(TextCentral.OperatorStop(c)).value) == Stopped(s)
    ensures AfterCommand(s, other, CommandFor(TextCentral.StartCommand(c, d)).value) == s
    ensures AfterCommand(s, other, CommandFor(TextCentral.StopCommand(c, d)).value) == s
    ensures AfterCommand(s, other, CommandFor(TextCentral.OperatorStop(c)).value) == s
  {
  }

  /** What the health server received: the text its bytes decode to, or
      bytes that are not valid UTF-8, on which the strict decoding raises. */
  datatype ProbeRequest = Text(text: string) | Undecodable

  /** The health server's answer to one request: none when the decoding
      raised (the error is only logged), otherwise OK or KO to a PING by the
      engine's health and NACK to anything else. */
  function HealthReply(request: ProbeRequest, ok: bool): (reply: Option<string>)
    ensures reply.None? <==> request.Undecodable?
    ensures reply.Some? ==> reply.value in {"OK\n", "KO\n", "NACK\n"}
    ensures reply == Some("OK\n") <==> request.Text? && Strip(request.text) == "PING" && ok
    ensures reply == Some("KO\n") <==> request.Text? && Strip(request.text) == "PING" && !ok
    ensures reply == Some("NACK\n") <==> request.Text? && Strip(request.text) != "PING"
  {
    match request
    case Undecodable => None
    case Text(text) =>
      if Strip(text) == "PING" then Some(if ok then "OK\n" else "KO\n") else Some("NACK\n")
  }

  /** What `tick_telemetry` reports while charging. */
  datatype Telemetry = Telemetry(cpId: string, driverId: Option<string>, kw: real, eur: real)

  class CPState {
    const cpId: string
    const priceEurKwh: real
    const kwMax: real
    var ok: bool
    var charging: bool
    var driverId: Option<string>
    var kwCurrent: real
    var eurosAccum: real

    /** A new engine with the dataclass defaults: healthy and idle. */
    constructor (cpId: string)
      ensures this.cpId == cpId && priceEurKwh == 0.35 && kwMax == 11.0
      ensures State() == Snapshot(true, false, None, 0.0, 0.0)
      ensures IdleClean(State())
    {
      this.cpId := cpId;
      priceEurKwh := 0.35;
      kwMax := 11.0;
      ok := true;
      charging := false;
      driverId := None;
      kwCurrent := 0.0;
      eurosAccum := 0.0;
    }

    function State(): Snapshot
      reads this
    {
      Snapshot(ok, charging, driverId, kwCurrent, eurosAccum)
    }

    /** `toggle_ok`: returns the new health. */
    method ToggleOk() returns (newOk: bool)
      modifies this
      ensures State() == Toggled(old(State())) && newOk == ok
    {
      ok := !ok;
      newOk := ok;
    }

    /** `start_charge` */
    method StartCharge(driver: Option<string>)
      modifies this
      ensures State() == Started(old(State()), driver)
    {
      charging := true;
      driverId := driver;
      kwCurrent := 0.0;
      eurosAccum := 0.0;
    }

    /** `stop_charge` */
    method StopCharge()
      modifies this
      ensures State() == Stopped(old(State()))
    {
      charging := false;
      driverId := None;
      kwCurrent := 0.0;
      eurosAccum := 0.0;
    }

    /** `tick_telemetry`, given the sampled power `kw`: nothing while idle;
        while charging, the new power and the amount grown by one second of
        it, reported with the charge point and the driver. */
    method TickTelemetry(kw: real) returns (t: Option<Telemetry>)
      modifies this
      ensures !old(charging) ==> t == None && State() == old(State())
      ensures old(charging) ==> State() == old(State()).(kwCurrent := kw,
                                  eurosAccum := old(eurosAccum) + kw / 3600.0 * priceEurKwh)
      ensures old(charging) ==> t == Some(Telemetry(cpId, driverId, kwCurrent, eurosAccum))
    {
      if !charging {
        return None;
      }
      kwCurrent := kw;
      eurosAccum := eurosAccum + kwCurrent / 3600.0 * priceEurKwh;
      t := Some(Telemetry(cpId, driverId, kwCurrent, eurosAccum));
    }

    /** `_on_command`: the filter, then the operation. */
    method OnCommand(payload: Payload)
      modifies this
      ensures State() == AfterCommand(old(State()), cpId, payload)
    {
      var target := Get(payload.cpId);
      if target != None && target != Some(cpId) && target != Some("all") {
        return;
      }
      var op := Get(payload.op);
      if op == Some("start_charge") {
        StartCharge(GetDefault(payload.driverId, "unknown"));
      } else if op == Some("stop_charge") {
        StopCharge();
      } else if op == Some("toggle_ko") {
        var _ := ToggleOk();
      }
    }
  }
}
