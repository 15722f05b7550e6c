/** The threaded, text-command Central: a table of charge-point records keyed
    by id, updated by the `#`-separated lines a monitor or a driver sends over
    one framed connection, and by the operator's `stop` / `resume` commands.
    Records are values in the table; an update in place is a reassignment of
    the table entry. */
module TextCentral {
  import opened Wrappers
  import opened PyText

  /** One charge point as Central sees it. */
  datatype CPRecord = CPRecord(
    cpId: string,
    location: Option<string>,
    connected: bool,
    ok: bool,
    charging: bool,
    driverId: Option<string>,
    lastKw: real,
    eurosAccum: real,
    lastTs: real,
    stoppedByCentral: bool,
    kwMax: real,
    priceEurKwh: real)
  {
    /** `start_charge`: charging for `driver`, both counters back to zero. */
    function StartCharge(driver: string): (r: CPRecord)
      ensures r.charging && r.driverId == Some(driver) && r.lastKw == 0.0 && r.eurosAccum == 0.0
      ensures r.(charging := charging, driverId := driverId, lastKw := lastKw, eurosAccum := eurosAccum) == this
    {
      this.(charging := true, driverId := Some(driver), lastKw := 0.0, eurosAccum := 0.0)
    }

    /** `stop_charge`: idle, no driver, both counters back to zero. */
    function StopCharge(): (r: CPRecord)
      ensures !r.charging && r.driverId == None && r.lastKw == 0.0 && r.eurosAccum == 0.0
      ensures r.(charging := charging, driverId := driverId, lastKw := lastKw, eurosAccum := eurosAccum) == this
    {
      this.(charging := false, driverId := None, lastKw := 0.0, eurosAccum := 0.0)
    }
  }

  /** Stopping a charge undoes starting one: whatever driver was started, the
      record comes back to what stopping the original gives. */
  lemma StopUndoesStart(rec: CPRecord, driver: string)
    ensures rec.StartCharge(driver).StopCharge() == rec.StopCharge()
    ensures rec.StartCharge(driver).StopCharge().StartCharge(driver) == rec.StartCharge(driver)
  {
  }

  /** The location given to a charge point first seen on a connection. */
  const DefaultLocation: string := "Calle"

  /** A record with the dataclass defaults. */
  function NewRecord(cpId: string, location: Option<string>): (r: CPRecord)
    ensures r.cpId == cpId && r.location == location
    ensures !r.connected && r.ok && !r.charging && !r.stoppedByCentral && r.driverId == None
    ensures r.lastKw == 0.0 && r.eurosAccum == 0.0 && r.lastTs == 0.0
    ensures r.kwMax == 11.0 && r.priceEurKwh == 0.35
  {
    CPRecord(cpId, location, false, true, false, None, 0.0, 0.0, 0.0, false, 11.0, 0.35)
  }

  type Db = map<string, CPRecord>

  /** `ensure_cp`: the table with `cpId` present; an unknown id gets a fresh
      record at the default location and no existing record changes. */
  function WithCp(db: Db, cpId: string): (r: Db)
    ensures r.Keys == db.Keys + {cpId}
    ensures forall k :: k in db ==> r[k] == db[k]
    ensures cpId !in db ==> r[cpId] == NewRecord(cpId, Some(DefaultLocation))
  {
    if cpId in db then db else db[cpId := NewRecord(cpId, Some(DefaultLocation))]
  }

  /** Every record is filed under its own id. */
  predicate WellKeyed(db: Db) {
    forall k :: k in db ==> db[k].cpId == k
  }

  /** A record that is charging belongs to a connected, healthy charge point
      that the operator has not stopped, and names its driver. */
  predicate Sound(rec: CPRecord) {
    rec.charging ==> rec.connected && rec.ok && !rec.stoppedByCentral && rec.driverId.Some?
  }

  predicate AllSound(db: Db) {
    forall k :: k in db ==> Sound(db[k])
  }

  // ---------------------------------------------------------------- commands

  /** A line from a monitor (AUTH, FAULT) or a driver (REQ, FINISH). */
  datatype Command =
    | Auth(cpId: string)
    | Fault(cpId: string, reason: string)
    | Req(driverId: string, cpId: string)
    | Finish(cpId: string, driverId: string)
    | Unrecognised

  /** The handler's reading of a received line: strip, split on `#`, then the
      keyword with its least number of fields; extra fields are ignored. */
  function Parse(line: string): Command
  {
    Classify(Split(Strip(line), '#'))
  }

  /** The command named by the pieces of a split line. */
  function Classify(parts: seq<string>): (cmd: Command)
    requires |parts| >= 1
    ensures forall f :: f in Fields(cmd) ==> f in parts[1..]
  {
    if parts[0] == "AUTH" && |parts| >= 2 then Auth(parts[1])
    else if parts[0] == "FAULT" && |parts| >= 3 then Fault(parts[1], parts[2])
    else if parts[0] == "REQ" && |parts| >= 3 then Req(parts[1], parts[2])
    else if parts[0] == "FINISH" && |parts| >= 3 then Finish(parts[1], parts[2])
    else Unrecognised
  }

  /** The fields a command carries, in line order. */
  function Fields(cmd: Command): seq<string> {
    match cmd
    case Auth(c) => [c]
    case Fault(c, r) => [c, r]
    case Req(d, c) => [d, c]
    case Finish(c, d) => [c, d]
    case Unrecognised => []
  }

  /** The keyword a command's line starts with. */
  function Keyword(cmd: Command): string {
    match cmd
    case Auth(_) => "AUTH"
    case Fault(_, _) => "FAULT"
    case Req(_, _) => "REQ"
    case Finish(_, _) => "FINISH"
    case Unrecognised => ""
  }

  /** The line a sender writes for a command: the keyword, then the fields. */
  function Format(cmd: Command): string {
    Join([Keyword(cmd)] + Fields(cmd), '#')
  }

  /** A field that survives the line format: no separator, and (as the last
      field) no trailing whitespace for `strip` to remove. */
  predicate FieldOk(f: string) {
    '#' !in f && (f == [] || !IsSpace(f[|f| - 1]))
  }

  lemma StripKeeps(s: string)
    requires s != [] && !IsSpace(s[0]) && !IsSpace(s[|s| - 1])
    ensures Strip(s) == s
  {
    var r := Strip(s);
    var i, j :| 0 <= i <= j <= |s| && r == s[i..j] && AllSpace(s[..i]) && AllSpace(s[j..]);
  }

  lemma JoinLast(parts: seq<string>, sep: char)
    requires |parts| >= 1 && parts[|parts| - 1] != []
    ensures Join(parts, sep) != []
    ensures Join(parts, sep)[|Join(parts, sep)| - 1] == parts[|parts| - 1][|parts[|parts| - 1]| - 1]
    decreases |parts|
  {
    if |parts| > 1 {
      JoinLast(parts[1..], sep);
    }
  }

  lemma {:induction false} JoinEndsWithSep(parts: seq<string>, sep: char)
    requires |parts| >= 2 && parts[|parts| - 1] == []
    ensures Join(parts, sep) != [] && Join(parts, sep)[|Join(parts, sep)| - 1] == sep
    decreases |parts|
  {
    if |parts| > 2 {
      JoinEndsWithSep(parts[1..], sep);
    }
  }

  /** A formatted line has nothing for `strip` to remove. */
  lemma FormatStripped(cmd: Command)
    requires !cmd.Unrecognised?
    requires FieldOk(Fields(cmd)[|Fields(cmd)| - 1])
    ensures Strip(Format(cmd)) == Format(cmd)
  {
    var parts := [Keyword(cmd)] + Fields(cmd);
    var line := Join(parts, '#');
    assert line[0] == Keyword(cmd)[0];
    if parts[|parts| - 1] == [] {
      JoinEndsWithSep(parts, '#');
    } else {
      JoinLast(parts, '#');
    }
    StripKeeps(line);
  }

  /** The pieces the handler splits a formatted line into are the keyword
      and the fields. */
  lemma FormatSplits(cmd: Command)
    requires !cmd.Unrecognised?
    requires forall f :: f in Fields(cmd) ==> '#' !in f
    requires FieldOk(Fields(cmd)[|Fields(cmd)| - 1])
    ensures Split(Strip(Format(cmd)), '#') == [Keyword(cmd)] + Fields(cmd)
  {
    var parts := [Keyword(cmd)] + Fields(cmd);
    forall i | 0 <= i < |parts| ensures '#' !in parts[i] {
      if i > 0 {
        assert parts[i] in Fields(cmd);
      }
    }
    SplitJoin(parts, '#');
    FormatStripped(cmd);
  }

  /** The handler reads back exactly the command a monitor or driver formats,
      as long as no field holds `#` and the last one has no trailing space. */
  lemma ParseFormat(cmd: Command)
    requires !cmd.Unrecognised?
    requires forall f :: f in Fields(cmd) ==> '#' !in f
    requires FieldOk(Fields(cmd)[|Fields(cmd)| - 1])
    ensures Parse(Format(cmd)) == cmd
  {
    FormatSplits(cmd);
    var parts := Split(Strip(Format(cmd)), '#');
    assert parts[0] == Keyword(cmd);
    match cmd
    case Auth(c) => assert parts[1] == c;
    case Fault(c, r) => assert parts[0] != "AUTH";
    case Req(d, c) => assert parts[0] != "AUTH" && parts[0] != "FAULT";
    case Finish(c, d) => assert parts[0] != "AUTH" && parts[0] != "FAULT" && parts[0] != "REQ";
  }

  /** Every field the handler reads off a line is free of the separator. */
  lemma ParsedFieldsClean(line: string)
    ensures forall f :: f in Fields(Parse(line)) ==> '#' !in f
  {
    var parts := Split(Strip(line), '#');
    var cmd := Classify(parts);
    forall f | f in Fields(cmd) ensures '#' !in f {
      PieceClean(parts, f);
    }
  }

  /** A piece taken after the first one of a split line holds no separator. */
  lemma PieceClean(parts: seq<string>, f: string)
    requires |parts| >= 1 && forall i :: 0 <= i < |parts| ==> '#' !in parts[i]
    requires f in parts[1..]
    ensures '#' !in f
  {
    var i :| 0 <= i < |parts[1..]| && parts[1..][i] == f;
    assert parts[i + 1] == f;
  }

  // ------------------------------------------------------------- handling

  /** The framed text Central sends back on the connection. */
  datatype Reply =
    | Granted(cpId: string, driverId: string, reconnect: bool)
    | Denied(reason: string)
    | Nack

  /** The reply as it is written on the wire. */
  function ReplyText(r: Reply): string {
    match r
    case Granted(c, d, false) => Join(["AUTH_GRANTED", c, d], '#')
    case Granted(c, d, true) => Join(["AUTH_GRANTED", c, d, "RECONNECT"], '#')
    case Denied(reason) => Join(["AUTH_DENIED", reason], '#')
    case Nack => "NACK"
  }

  /** What a driver splitting a grant on `#` sees: the keyword, the charge
      point, itself, and the reconnect marker when there is one. */
  lemma GrantedReplySplits(c: string, d: string, reconnect: bool)
    requires '#' !in c && '#' !in d
    ensures Split(ReplyText(Granted(c, d, reconnect)), '#')
         == ["AUTH_GRANTED", c, d] + (if reconnect then ["RECONNECT"] else [])
  {
    assert '#' !in "AUTH_GRANTED" && '#' !in "RECONNECT";
    if reconnect {
      SplitJoin(["AUTH_GRANTED", c, d, "RECONNECT"], '#');
    } else {
      SplitJoin(["AUTH_GRANTED", c, d], '#');
    }
  }

  /** A denial splits into its keyword and its reason. */
  lemma DeniedReplySplits(reason: string)
    requires '#' !in reason
    ensures Split(ReplyText(Denied(reason)), '#') == ["AUTH_DENIED", reason]
  {
    SplitJoin(["AUTH_DENIED", reason], '#');
  }

  /** What Central hands to the message bus (the timestamp is left out). */
  datatype BusMessage =
    | StartCommand(cpId: string, driverId: string)
    | StopCommand(cpId: string, driverId: string)
    | OperatorStop(cpId: string)
    | Invoice(driverId: string, cpId: string, totalKw: real, totalEur: real)

  /** The reason a request is refused, checked in this order: not connected,
      stopped by the operator, out of order, busy. */
  function DenialReason(rec: CPRecord): Option<string> {
    if !rec.connected then Some("DISCONNECTED")
    else if rec.stoppedByCentral then Some("OUT_OF_ORDER")
    else if !rec.ok then Some("FAULT")
    else if rec.charging then Some("BUSY")
    else None
  }

  /** A request is refused exactly when the charge point cannot start a new
      charge, and the reason names the first check that fails. */
  lemma DenialPrecedence(rec: CPRecord)
    ensures DenialReason(rec).None? <==> rec.connected && !rec.stoppedByCentral && rec.ok && !rec.charging
    ensures DenialReason(rec) == Some("DISCONNECTED") <==> !rec.connected
    ensures DenialReason(rec) == Some("OUT_OF_ORDER") <==> rec.connected && rec.stoppedByCentral
    ensures DenialReason(rec) == Some("FAULT") <==> rec.connected && !rec.stoppedByCentral && !rec.ok
    ensures DenialReason(rec) == Some("BUSY")
        <==> rec.connected && !rec.stoppedByCentral && rec.ok && rec.charging
  {
  }

  /** The result of handling one line on a connection. */
  datatype Outcome = Outcome(db: Db, current: Option<string>, reply: Option<Reply>, published: seq<BusMessage>)

  /** One command against the table; `current` is the charge point this
      connection belongs to, if a monitor has introduced itself. */
  function Apply(db: Db, current: Option<string>, cmd: Command): Outcome {
    match cmd
    case Auth(c) =>
      var d := WithCp(db, c);
      Outcome(d[c := d[c].(connected := true, ok := true, charging := false)], Some(c), None, [])
    case Fault(c, _) =>
      var d := WithCp(db, c);
      Outcome(d[c := d[c].(connected := true, ok := false, charging := false)], Some(c), None, [])
    case Req(driver, c) =>
      if c !in db then Outcome(db, current, Some(Denied("CP_NOT_FOUND")), [])
      else
        var rec := db[c];
        if rec.charging && rec.driverId == Some(driver) then
          Outcome(db, current, Some(Granted(c, driver, true)), [])
        else if DenialReason(rec).Some? then
          Outcome(db, current, Some(Denied(DenialReason(rec).value)), [])
        else
          Outcome(db[c := rec.StartCharge(driver)], current, Some(Granted(c, driver, false)),
                  [StartCommand(c, driver)])
    case Finish(c, driver) =>
      var d := WithCp(db, c);
      var rec := d[c];
      Outcome(d[c := rec.StopCharge()], current, None,
              [StopCommand(c, driver), Invoice(driver, c, rec.lastKw, rec.eurosAccum)])
    case Unrecognised => Outcome(db, current, Some(Nack), [])
  }

  /** One valid received line. */
  function Step(db: Db, current: Option<string>, line: string): Outcome {
    Apply(db, current, Parse(line))
  }

  /** The `finally` clean-up when a connection ends: the charge point the
      connection introduced (a non-empty id) is marked disconnected and idle. */
  function CleanedUp(db: Db, current: Option<string>): (r: Db)
    ensures r.Keys == db.Keys
    ensures forall k :: k in db && Some(k) != current ==> r[k] == db[k]
    ensures current.Some? && current.value != "" && current.value in db
        ==> r[current.value] == db[current.value].(connected := false, charging := false)
    ensures current.None? || current.value == "" ==> r == db
  {
    match current
    case Some(c) => if c != "" && c in db then db[c := db[c].(connected := false, charging := false)] else db
    case None => db
  }

  /** The operator's `stop`: out of order and not charging; unknown ids are
      refused and change nothing. */
  function StopCp(db: Db, cpId: string): (r: Db)
    ensures r.Keys == db.Keys
    ensures forall k :: k in db && k != cpId ==> r[k] == db[k]
    ensures cpId in db ==> r[cpId] == db[cpId].(stoppedByCentral := true, charging := false)
  {
    if cpId in db then db[cpId := db[cpId].(stoppedByCentral := true, charging := false)] else db
  }

  /** The operator's `resume`: back in service and healthy; unknown ids are
      refused and change nothing. */
  function ResumeCp(db: Db, cpId: string): (r: Db)
    ensures r.Keys == db.Keys
    ensures forall k :: k in db && k != cpId ==> r[k] == db[k]
    ensures cpId in db ==> r[cpId] == db[cpId].(stoppedByCentral := false, ok := true)
  {
    if cpId in db then db[cpId := db[cpId].(stoppedByCentral := false, ok := true)] else db
  }

  // ------------------------------------------------------------ connection

  /** What a read on the connection can bring. */
  datatype Incoming = PeerClosed | TimedOut | Frame(text: string, valid: bool)

  /** What the receive step hands the loop: no message means the connection
      is over. */
  datatype Received = Received(message: Option<string>, valid: bool)

  /** The receive step as written: an empty read (the peer closed) and a
      timeout both come back as an empty, invalid message. */
  function ReceiveAsWritten(e: Incoming): (r: Received)
    ensures r.message.Some?
  {
    match e
    case PeerClosed => Received(Some(""), false)
    case TimedOut => Received(Some(""), false)
    case Frame(text, valid) => Received(Some(text), valid)
  }

  /** The receive step the loop's end-of-connection check expects: no
      message when the peer closed or the read timed out. */
  function Receive(e: Incoming): (r: Received)
    ensures r.message.None? <==> !e.Frame?
  {
    match e
    case PeerClosed => Received(None, false)
    case TimedOut => Received(None, false)
    case Frame(text, valid) => Received(Some(text), valid)
  }

  datatype Reader = AsWritten | Corrected

  /** The state of one connection handler: the table, the charge point the
      connection belongs to, the replies sent so far, the bus messages
      published so far, and whether the loop is still running. */
  datatype Conn = Conn(db: Db, current: Option<string>, replies: seq<Reply>,
                       published: seq<BusMessage>, open: bool)

  /** One turn of the loop: leave and clean up when there is no message,
      skip a corrupted one, otherwise handle the line. */
  function Feed(reader: Reader, s: Conn, e: Incoming): Conn {
    if !s.open then s
    else
      var r := if reader == AsWritten then ReceiveAsWritten(e) else Receive(e);
      if r.message.None? then s.(db := CleanedUp(s.db, s.current), open := false)
      else if !r.valid then s
      else
        var o := Step(s.db, s.current, r.message.value);
        Conn(o.db, o.current, s.replies + (if o.reply.Some? then [o.reply.value] else []),
             s.published + o.published, true)
  }

  /** The loop over a sequence of reads. */
  function Run(reader: Reader, s: Conn, events: seq<Incoming>): Conn
    decreases |events|
  {
    if events == [] then s
    else Feed(reader, Run(reader, s, events[..|events| - 1]), events[|events| - 1])
  }

  /** Once the loop has left, later reads change nothing. */
  lemma {:induction false} RunAfterClose(reader: Reader, s: Conn, events: seq<Incoming>, later: seq<Incoming>)
    requires !Run(reader, s, events).open
    ensures Run(reader, s, events + later) == Run(reader, s, events)
    decreases |later|
  {
    if later == [] {
      assert events + later == events;
    } else {
      var front := later[..|later| - 1];
      assert (events + later)[..|events + later| - 1] == events + front;
      assert (events + later)[|events + later| - 1] == later[|later| - 1];
      RunAfterClose(reader, s, events, front);
    }
  }

  /** With the receive step as written the loop never leaves on any sequence
      of the modelled reads (frames, empty reads, timeouts), so the clean-up
      never runs; a connection error raised out of the read is not one of them. */
  lemma {:induction false} AsWrittenNeverLeaves(s: Conn, events: seq<Incoming>)
    requires s.open
    ensures Run(AsWritten, s, events).open
    decreases |events|
  {
    if events != [] {
      AsWrittenNeverLeaves(s, events[..|events| - 1]);
    }
  }

  /** The loop after a line that introduces a monitor on a fresh connection. */
  lemma AuthFeed(reader: Reader, line: string, cpId: string)
    requires Parse(line) == Auth(cpId)
    ensures var s1 := Feed(reader, Conn(map[], None, [], [], true), Frame(line, true));
            s1.open && s1.current == Some(cpId) && cpId in s1.db && s1.db[cpId].connected
  {
    var o := Step(map[], None, line);
    assert o.current == Some(cpId) && cpId in o.db && o.db[cpId].connected by {
      assert o == Apply(map[], None, Auth(cpId));
    }
    FeedValid(reader, Conn(map[], None, [], [], true), line);
  }

  /** A valid frame on a running connection is handled as a line. */
  lemma FeedValid(reader: Reader, s: Conn, line: string)
    requires s.open
    ensures var o := Step(s.db, s.current, line);
            var t := Feed(reader, s, Frame(line, true));
            t.open && t.db == o.db && t.current == o.current
  {
    var e := Frame(line, true);
    var r := if reader == AsWritten then ReceiveAsWritten(e) else Receive(e);
    assert r == Received(Some(line), true);
    var o := Step(s.db, s.current, line);
    assert Feed(reader, s, e)
        == Conn(o.db, o.current, s.replies + (if o.reply.Some? then [o.reply.value] else []),
                s.published + o.published, true);
  }

  /** As written: a monitor introduces itself and closes the connection, yet
      its charge point stays connected and the loop keeps running. */
  lemma ClosedMonitorStaysConnected(cpId: string)
    requires FieldOk(cpId)
    ensures var c := Run(AsWritten, Conn(map[], None, [], [], true), [Frame(Format(Auth(cpId)), true), PeerClosed]);
            cpId in c.db && c.db[cpId].connected && c.open
  {
    var line := Format(Auth(cpId));
    assert Parse(line) == Auth(cpId) by {
      ParseFormat(Auth(cpId));
    }
    AuthFeed(AsWritten, line, cpId);
    var s1 := Feed(AsWritten, Conn(map[], None, [], [], true), Frame(line, true));
    assert Feed(AsWritten, s1, PeerClosed) == s1;
    RunTwo(AsWritten, Conn(map[], None, [], [], true), Frame(line, true), PeerClosed);
  }

  /** Handling a formatted line is handling the command it was formatted from. */
  lemma StepFormat(db: Db, current: Option<string>, cmd: Command)
    requires !cmd.Unrecognised?
    requires forall f :: f in Fields(cmd) ==> '#' !in f
    requires FieldOk(Fields(cmd)[|Fields(cmd)| - 1])
    ensures Step(db, current, Format(cmd)) == Apply(db, current, cmd)
  {
    ParseFormat(cmd);
  }

  /** Two reads: the loop takes them one after the other. */
  lemma RunTwo(reader: Reader, s: Conn, a: Incoming, b: Incoming)
    ensures Run(reader, s, [a, b]) == Feed(reader, Feed(reader, s, a), b)
  {
    assert [a][..0] == [];
    assert Run(reader, s, [a]) == Feed(reader, s, a);
    assert [a, b][..1] == [a];
  }

  /** With the corrected receive step, a connection that has ended leaves the
      charge point it introduced disconnected and not charging. */
  lemma {:induction false} ClosedConnectionDisconnects(s: Conn, events: seq<Incoming>)
    requires s.open
    requires !Run(Corrected, s, events).open
    ensures var c := Run(Corrected, s, events);
            c.current.Some? && c.current.value != "" && c.current.value in c.db
            ==> !c.db[c.current.value].connected && !c.db[c.current.value].charging
    decreases |events|
  {
    var front := events[..|events| - 1];
    if !Run(Corrected, s, front).open {
      ClosedConnectionDisconnects(s, front);
    }
  }

  /** The corrected loop, for a monitor that introduces itself (with a
      non-empty id) and closes: its charge point ends disconnected. */
  lemma ClosedMonitorDisconnects(cpId: string)
    requires FieldOk(cpId) && cpId != ""
    ensures var c := Run(Corrected, Conn(map[], None, [], [], true), [Frame(Format(Auth(cpId)), true), PeerClosed]);
            cpId in c.db && !c.db[cpId].connected && !c.open
  {
    var line := Format(Auth(cpId));
    assert Parse(line) == Auth(cpId) by {
      ParseFormat(Auth(cpId));
    }
    AuthFeed(Corrected, line, cpId);
    RunTwo(Corrected, Conn(map[], None, [], [], true), Frame(line, true), PeerClosed);
  }

  // ------------------------------------------------------------ properties

  /** A line the handler does not recognise is answered with NACK and
      changes nothing. */
  lemma UnrecognisedNacked(db: Db, current: Option<string>)
    ensures Apply(db, current, Unrecognised) == Outcome(db, current, Some(Nack), [])
  {
  }

  /** AUTH and FAULT: the charge point (created at the default location if
      unknown) is connected and idle, healthy after AUTH and out of order
      after FAULT; the connection now belongs to it; nothing else changes
      and nothing is replied or published. */
  lemma MonitorLines(db: Db, current: Option<string>, c: string, reason: string)
    ensures var o := Apply(db, current, Auth(c));
            o.db.Keys == db.Keys + {c} && o.current == Some(c) && o.reply == None && o.published == []
            && o.db[c].connected && o.db[c].ok && !o.db[c].charging
            && (forall k :: k in db && k != c ==> o.db[k] == db[k])
            && (c !in db ==> o.db[c].location == Some(DefaultLocation))
    ensures var o := Apply(db, current, Fault(c, reason));
            o.db.Keys == db.Keys + {c} && o.current == Some(c) && o.reply == None && o.published == []
            && o.db[c].connected && !o.db[c].ok && !o.db[c].charging
            && (forall k :: k in db && k != c ==> o.db[k] == db[k])
            && (c !in db ==> o.db[c].location == Some(DefaultLocation))
  {
  }

  /** REQ, decided in the handler's order: unknown charge point, then the
      same driver coming back to its running charge, then the first failing
      check, then a grant that starts the charge and publishes the start
      command. Only a grant changes the table. */
  lemma RequestOutcome(db: Db, current: Option<string>, driver: string, c: string)
    ensures var o := Apply(db, current, Req(driver, c));
            o.current == current && o.reply.Some?
    ensures var o := Apply(db, current, Req(driver, c));
            c !in db ==> o.db == db && o.reply == Some(Denied("CP_NOT_FOUND")) && o.published == []
    ensures var o := Apply(db, current, Req(driver, c));
            o.reply == Some(Granted(c, driver, true))
            <==> c in db && db[c].charging && db[c].driverId == Some(driver)
    ensures var o := Apply(db, current, Req(driver, c));
            o.reply == Some(Granted(c, driver, false))
            <==> c in db && db[c].connected && !db[c].stoppedByCentral && db[c].ok && !db[c].charging
    ensures var o := Apply(db, current, Req(driver, c));
            o.reply == Some(Granted(c, driver, false))
            ==> o.db == db[c := db[c].StartCharge(driver)] && o.published == [StartCommand(c, driver)]
    ensures var o := Apply(db, current, Req(driver, c));
            o.reply != Some(Granted(c, driver, false)) ==> o.db == db && o.published == []
    ensures var o := Apply(db, current, Req(driver, c));
            c in db && !(db[c].charging && db[c].driverId == Some(driver)) && DenialReason(db[c]).Some?
            ==> o.reply == Some(Denied(DenialReason(db[c]).value))
  {
    DenialPrecedence(if c in db then db[c] else NewRecord(c, None));
  }

  /** Central answers every REQ, with a grant to that driver on that charge
      point or a denial whose reason holds no separator. */
  lemma RequestReplyForm(db: Db, current: Option<string>, driver: string, c: string)
    ensures var r := Apply(db, current, Req(driver, c)).reply;
            && r.Some? && !r.value.Nack?
            && (r.value.Granted? ==> r.value.cpId == c && r.value.driverId == driver)
            && (r.value.Denied? ==> '#' !in r.value.reason)
  {
    if c !in db {
      assert '#' !in "CP_NOT_FOUND";
    } else {
      DenialReasonClean(db[c]);
    }
  }

  /** No denial reason holds the separator. */
  lemma DenialReasonClean(rec: CPRecord)
    ensures DenialReason(rec).Some? ==> '#' !in DenialReason(rec).value
  {
    if !rec.connected {
      assert '#' !in "DISCONNECTED";
    } else if rec.stoppedByCentral {
      assert '#' !in "OUT_OF_ORDER";
    } else if !rec.ok {
      assert '#' !in "FAULT";
    } else if rec.charging {
      assert '#' !in "BUSY";
    }
  }

  /** FINISH stops whatever charge the charge point has, whichever driver
      sends it, and publishes the stop command and an invoice that carries
      the energy and amount from before the reset (zero for a charge point
      created by the line). */
  lemma FinishOutcome(db: Db, current: Option<string>, c: string, driver: string)
    ensures var o := Apply(db, current, Finish(c, driver));
            o.db.Keys == db.Keys + {c} && o.current == current && o.reply == None
            && !o.db[c].charging && o.db[c].driverId == None
            && o.db[c].lastKw == 0.0 && o.db[c].eurosAccum == 0.0
            && (forall k :: k in db && k != c ==> o.db[k] == db[k])
    ensures var o := Apply(db, current, Finish(c, driver));
            var kw := if c in db then db[c].lastKw else 0.0;
            var eur := if c in db then db[c].eurosAccum else 0.0;
            o.published == [StopCommand(c, driver), Invoice(driver, c, kw, eur)]
    ensures forall other :: Apply(db, current, Finish(c, other)).db == Apply(db, current, Finish(c, driver)).db
  {
  }

  /** Every line keeps each record under its own id and keeps every
      charging record sound. */
  lemma ApplyKeepsInvariant(db: Db, current: Option<string>, cmd: Command)
    requires WellKeyed(db) && AllSound(db)
    ensures WellKeyed(Apply(db, current, cmd).db) && AllSound(Apply(db, current, cmd).db)
  {
    match cmd
    case Req(driver, c) =>
      RequestOutcome(db, current, driver, c);
    case _ =>
  }

  /** The clean-up and the operator's commands keep the invariant too. */
  lemma HousekeepingKeepsInvariant(db: Db, current: Option<string>, c: string)
    requires WellKeyed(db) && AllSound(db)
    ensures WellKeyed(CleanedUp(db, current)) && AllSound(CleanedUp(db, current))
    ensures WellKeyed(StopCp(db, c)) && AllSound(StopCp(db, c))
    ensures WellKeyed(ResumeCp(db, c)) && AllSound(ResumeCp(db, c))
  {
  }

  /** A whole connection, however its reads go, keeps the invariant. */
  lemma {:induction false} RunKeepsInvariant(reader: Reader, s: Conn, events: seq<Incoming>)
    requires WellKeyed(s.db) && AllSound(s.db)
    ensures WellKeyed(Run(reader, s, events).db) && AllSound(Run(reader, s, events).db)
    decreases |events|
  {
    if events != [] {
      var front := Run(reader, s, events[..|events| - 1]);
      RunKeepsInvariant(reader, s, events[..|events| - 1]);
      FeedKeepsInvariant(reader, front, events[|events| - 1]);
    }
  }

  /** One turn of the loop keeps the invariant. */
  lemma FeedKeepsInvariant(reader: Reader, s: Conn, e: Incoming)
    requires WellKeyed(s.db) && AllSound(s.db)
    ensures WellKeyed(Feed(reader, s, e).db) && AllSound(Feed(reader, s, e).db)
  {
    if s.open {
      var r := if reader == AsWritten then ReceiveAsWritten(e) else Receive(e);
      if r.message.None? {
        HousekeepingKeepsInvariant(s.db, s.current, "");
        assert Feed(reader, s, e).db == CleanedUp(s.db, s.current);
      } else if r.valid {
        ApplyKeepsInvariant(s.db, s.current, Parse(r.message.value));
        assert Feed(reader, s, e).db == Step(s.db, s.current, r.message.value).db;
      }
    }
  }

  /** After `stop`, no driver is granted the charge point and no charge can
      be resumed by reconnecting: a connected charge point is refused as
      OUT_OF_ORDER, one that is not connected as DISCONNECTED. `resume` then
      brings it back healthy and in service, with its charge gone. */
  lemma StopThenResume(db: Db, current: Option<string>, c: string, driver: string)
    requires c in db
    ensures var o := Apply(StopCp(db, c), current, Req(driver, c));
            && o.reply == Some(Denied(if db[c].connected then "OUT_OF_ORDER" else "DISCONNECTED"))
            && o.db == StopCp(db, c) && o.published == []
    ensures ResumeCp(StopCp(db, c), c)[c] == db[c].(stoppedByCentral := false, ok := true, charging := false)
  {
    RequestOutcome(StopCp(db, c), current, driver, c);
  }

  // ----------------------------------------------------------------- Central

  /** The server: its table of charge points and the messages it has handed
      to the bus. */
  class Central {
    var db: Db
    var bus: seq<BusMessage>

    /** A server starting from a loaded table. */
    constructor (loaded: Db)
      ensures db == loaded && bus == []
    {
      db := loaded;
      bus := [];
    }

    /** `ensure_cp`: the record for `cpId`, created first if unknown. */
    method EnsureCp(cpId: string) returns (rec: CPRecord)
      modifies this
      ensures db == WithCp(old(db), cpId) && rec == db[cpId] && bus == old(bus)
    {
      if cpId !in db {
        db := db[cpId := NewRecord(cpId, Some(DefaultLocation))];
      }
      rec := db[cpId];
    }

    /** `cp_exists` */
    method CpExists(cpId: string) returns (b: bool)
      ensures b <==> cpId in db
    {
      b := cpId in db;
    }

    /** The body of the connection loop for one valid line: the new table,
        the charge point the connection now belongs to, the reply sent (if
        any) and the bus messages published. */
    method Handle(current: Option<string>, line: string) returns (next: Option<string>, reply: Option<Reply>)
      modifies this
      ensures var o := Step(old(db), current, line);
              db == o.db && next == o.current && reply == o.reply && bus == old(bus) + o.published
    {
      next, reply := Dispatch(current, Parse(line));
    }

    /** The branches of the loop body, by command. */
    method Dispatch(current: Option<string>, cmd: Command) returns (next: Option<string>, reply: Option<Reply>)
      modifies this
      ensures var o := Apply(old(db), current, cmd);
              db == o.db && next == o.current && reply == o.reply && bus == old(bus) + o.published
    {
      next := current;
      reply := None;
      match cmd {
        case Auth(c) =>
          next := Some(c);
          var rec := EnsureCp(c);
          db := db[c := rec.(connected := true, ok := true, charging := false)];
        case Fault(c, _) =>
          next := Some(c);
          var rec := EnsureCp(c);
          db := db[c := rec.(connected := true, ok := false, charging := false)];
        case Req(driver, c) =>
          reply := Request(current, driver, c);
        case Finish(c, driver) =>
          var rec := EnsureCp(c);
          var finalKw := rec.lastKw;
          var finalEur := rec.eurosAccum;
          db := db[c := rec.StopCharge()];
          bus := bus + [StopCommand(c, driver), Invoice(driver, c, finalKw, finalEur)];
        case Unrecognised =>
          reply := Some(Nack);
      }
    }

    /** The REQ branch. */
    method Request(current: Option<string>, driver: string, c: string) returns (reply: Option<Reply>)
      modifies this
      ensures var o := Apply(old(db), current, Req(driver, c));
              db == o.db && reply == o.reply && bus == old(bus) + o.published
    {
      var known := CpExists(c);
      if !known {
        reply := Some(Denied("CP_NOT_FOUND"));
        return;
      }
      var rec := EnsureCp(c);
      if rec.charging && rec.driverId == Some(driver) {
        reply := Some(Granted(c, driver, true));
        return;
      }
      var reason: Option<string> := None;
      if !rec.connected {
        reason := Some("DISCONNECTED");
      } else if rec.stoppedByCentral {
        reason := Some("OUT_OF_ORDER");
      } else if !rec.ok {
        reason := Some("FAULT");
      } else if rec.charging {
        reason := Some("BUSY");
      }
      assert reason == DenialReason(rec);
      if reason.Some? {
        reply := Some(Denied(reason.value));
      } else {
        reply := Some(Granted(c, driver, false));
        db := db[c := rec.StartCharge(driver)];
        bus := bus + [StartCommand(c, driver)];
      }
    }

    /** The `finally` block of the connection handler. */
    method Cleanup(current: Option<string>)
      modifies this
      ensures db == CleanedUp(old(db), current) && bus == old(bus)
    {
      if current.Some? && current.value != "" && current.value in db {
        var c := current.value;
        db := db[c := db[c].(connected := false, charging := false)];
      }
    }

    /** One connection: read after read until there is no message, skipping
        corrupted frames, then the clean-up. Returns the replies sent and
        whether the loop has left. */
    method Serve(events: seq<Incoming>) returns (replies: seq<Reply>, left: bool)
      modifies this
      ensures var c := Run(Corrected, Conn(old(db), None, [], old(bus), true), events);
              db == c.db && bus == c.published && replies == c.replies && left == !c.open
    {
      var init := Conn(db, None, [], bus, true);
      var current: Option<string> := None;
      replies := [];
      left := false;
      var i := 0;
      while i < |events|
        invariant 0 <= i <= |events|
        invariant Conn(db, current, replies, bus, true) == Run(Corrected, init, events[..i])
      {
        var before := Conn(db, current, replies, bus, true);
        RunNext(Corrected, init, events, i);
        var r := Receive(events[i]);
        if r.message.None? {
          Cleanup(current);
          left := true;
          FeedClosed(before, events[i]);
          RunAfterClose(Corrected, init, events[..i + 1], events[i + 1..]);
          assert events[..i + 1] + events[i + 1..] == events;
          return;
        }
        FeedFrame(before, events[i].text, events[i].valid);
        if r.valid {
          var reply;
          current, reply := Handle(current, r.message.value);
          if reply.Some? {
            replies := replies + [reply.value];
          }
        }
        i := i + 1;
      }
      assert events[..i] == events;
    }

    /** The operator's `stop <CP_ID>`; `found` is false for an unknown id.
        A known charge point is taken out of service and its stop command
        (reason CENTRAL_STOP) is published; an unknown id changes nothing. */
    method Stop(cpId: string) returns (found: bool)
      modifies this
      ensures found <==> cpId in old(db)
      ensures db == StopCp(old(db), cpId)
      ensures bus == old(bus) + (if found then [OperatorStop(cpId)] else [])
    {
      found := CpExists(cpId);
      if found {
        var rec := EnsureCp(cpId);
        db := db[cpId := rec.(stoppedByCentral := true, charging := false)];
        bus := bus + [OperatorStop(cpId)];
      }
    }

    /** The operator's `resume <CP_ID>`; `found` is false for an unknown id. */
    method Resume(cpId: string) returns (found: bool)
      modifies this
      ensures found <==> cpId in old(db)
      ensures db == ResumeCp(old(db), cpId) && bus == old(bus)
    {
      found := CpExists(cpId);
      if found {
        var rec := EnsureCp(cpId);
        db := db[cpId := rec.(stoppedByCentral := false, ok := true)];
      }
    }
  }

  /** The loop one read further. */
  lemma RunNext(reader: Reader, s: Conn, events: seq<Incoming>, i: nat)
    requires i < |events|
    ensures Run(reader, s, events[..i + 1]) == Feed(reader, Run(reader, s, events[..i]), events[i])
  {
    assert events[..i + 1][..i] == events[..i];
  }

  /** A closed or timed-out read ends a running loop with the clean-up. */
  lemma FeedClosed(s: Conn, e: Incoming)
    requires s.open && !e.Frame?
    ensures Feed(Corrected, s, e) == s.(db := CleanedUp(s.db, s.current), open := false)
  {
  }

  /** A frame on a running loop: skipped when corrupted, handled otherwise. */
  lemma FeedFrame(s: Conn, text: string, valid: bool)
    requires s.open
    ensures Feed(Corrected, s, Frame(text, valid))
         == if !valid then s
            else var o := Step(s.db, s.current, text);
                 Conn(o.db, o.current, s.replies + (if o.reply.Some? then [o.reply.value] else []),
                      s.published + o.published, true)
  {
  }
}
