/** The driver client: what it remembers about its charge, how Central's
    answers to its requests move that state, the telemetry and invoices it
    accepts, and the list of charge points it reads from a file. */
module DriverClient {
  import opened Wrappers
  import opened PyText
  import TextCentral

  /** The driver's view of its charge. */
  datatype DriverState = DriverState(
    currentCp: Option<string>,
    charging: bool,
    lastKw: real,
    lastEur: real,
    lastKwh: real,
    finishedWaitingPayment: bool)

  /** The dataclass defaults. */
  const Initial := DriverState(None, false, 0.0, 0.0, 0.0, false)

  /** A charge that is waiting for payment belongs to a charge point. */
  predicate Valid(s: DriverState) {
    s.finishedWaitingPayment ==> s.currentCp.Some?
  }

  // ---------------------------------------------------------------- request

  datatype RequestResult = RequestResult(state: DriverState, granted: bool)

  /** `request_service(cp_id)` given Central's response: a grant puts the
      driver on the charge point and charging, keeping the counters when the
      grant is a reconnection and zeroing them otherwise; anything else
      leaves the state alone. */
  function Request(s: DriverState, cpId: string, response: string): RequestResult {
    var parts := Split(response, '#');
    if parts[0] == "AUTH_GRANTED" then
      if |parts| > 3 && parts[3] == "RECONNECT" then
        RequestResult(s.(currentCp := Some(cpId), charging := true), true)
      else
        RequestResult(s.(currentCp := Some(cpId), charging := true,
                         lastKw := 0.0, lastEur := 0.0, lastKwh := 0.0), true)
    else RequestResult(s, false)
  }

  /** The reason a denial shows: the second field, or "UNKNOWN". */
  function DenialShown(response: string): Option<string> {
    var parts := Split(response, '#');
    if parts[0] != "AUTH_DENIED" then None
    else if |parts| > 1 then Some(parts[1])
    else Some("UNKNOWN")
  }

  /** A request is granted exactly when the response's first field is
      AUTH_GRANTED; a refused request changes nothing. */
  lemma RequestOutcome(s: DriverState, cpId: string, response: string)
    ensures Request(s, cpId, response).granted <==> Split(response, '#')[0] == "AUTH_GRANTED"
    ensures !Request(s, cpId, response).granted ==> Request(s, cpId, response).state == s
    ensures Request(s, cpId, response).granted ==>
              var t := Request(s, cpId, response).state;
              t.currentCp == Some(cpId) && t.charging
              && t.finishedWaitingPayment == s.finishedWaitingPayment
  {
  }

  /** The driver reads `reply` faithfully: it counts itself granted exactly
      for a grant, and a refusal leaves its state as it was. */
  predicate ReadFaithfully(s: DriverState, c: string, reply: TextCentral.Reply) {
    var r := Request(s, c, TextCentral.ReplyText(reply));
    (r.granted <==> reply.Granted?) && (!r.granted ==> r.state == s)
  }

  /** A grant read by the driver: a fresh grant starts a charge from zero, a
      reconnection resumes with the counters kept. */
  lemma GrantRead(s: DriverState, c: string, me: string, reconnect: bool)
    requires '#' !in c && '#' !in me
    ensures Request(s, c, TextCentral.ReplyText(TextCentral.Granted(c, me, reconnect)))
         == if reconnect then RequestResult(s.(currentCp := Some(c), charging := true), true)
            else RequestResult(s.(currentCp := Some(c), charging := true, lastKw := 0.0, lastEur := 0.0, lastKwh := 0.0), true)
    ensures ReadFaithfully(s, c, TextCentral.Granted(c, me, reconnect))
  {
    TextCentral.GrantedReplySplits(c, me, reconnect);
  }

  /** A denial read by the driver: it shows Central's reason and changes nothing. */
  lemma DenialRead(s: DriverState, c: string, reason: string)
    requires '#' !in reason
    ensures Request(s, c, TextCentral.ReplyText(TextCentral.Denied(reason))) == RequestResult(s, false)
    ensures DenialShown(TextCentral.ReplyText(TextCentral.Denied(reason))) == Some(reason)
    ensures ReadFaithfully(s, c, TextCentral.Denied(reason))
  {
    TextCentral.DeniedReplySplits(reason);
  }

  /** A NACK read by the driver changes nothing. */
  lemma NackRead(s: DriverState, c: string)
    ensures Request(s, c, TextCentral.ReplyText(TextCentral.Nack)) == RequestResult(s, false)
    ensures ReadFaithfully(s, c, TextCentral.Nack)
  {
    assert Split("NACK", '#') == ["NACK"] by {
      SplitJoin(["NACK"], '#');
    }
  }

  /** Every reply Central gives to a driver's request line for `c` is read
      faithfully. */
  lemma RequestRoundTrip(db: TextCentral.Db, current: Option<string>, s: DriverState,
                         me: string, c: string)
    requires '#' !in c && '#' !in me
    ensures TextCentral.Apply(db, current, TextCentral.Req(me, c)).reply.Some?
    ensures ReadFaithfully(s, c, TextCentral.Apply(db, current, TextCentral.Req(me, c)).reply.value)
  {
    TextCentral.RequestReplyForm(db, current, me, c);
    var reply := TextCentral.Apply(db, current, TextCentral.Req(me, c)).reply.value;
    match reply
    case Granted(_, _, reconnect) => GrantRead(s, c, me, reconnect);
    case Denied(reason) => DenialRead(s, c, reason);
    case Nack => NackRead(s, c);
  }

  // ----------------------------------------------------------------- finish

  /** The invoice the driver has kept from the bus. */
  datatype InvoiceRecord = InvoiceRecord(cpId: Option<string>, totalKw: real, totalEur: real)

  datatype FinishResult = FinishResult(state: DriverState, invoice: Option<InvoiceRecord>,
                                       finalKw: real, finalEur: real)

  /** What `_send_to_central` returns: an error text when the frame was not
      acknowledged, another when no valid answer frame came back (timeout,
      closed connection or corruption), and the answer otherwise. */
  function SendToCentral(acked: bool, answer: Option<string>): (response: string)
    ensures !acked ==> response == "ERROR#NO_ACK"
    ensures acked && answer.None? ==> response == "ERROR#CORRUPTED"
    ensures acked && answer.Some? ==> response == answer.value
  {
    if !acked then "ERROR#NO_ACK"
    else if answer.None? then "ERROR#CORRUPTED"
    else answer.value
  }

  /** The closing step both versions of `finish_service` share once Central
      has confirmed: an invoice for this charge point (when an invoice
      consumer runs) overrides the driver's own figures and is used up; the
      charge stops and waits for payment. */
  function Complete(s: DriverState, cpId: string, consumer: bool, invoice: Option<InvoiceRecord>): FinishResult {
    var use := consumer && invoice.Some? && invoice.value.cpId == Some(cpId);
    FinishResult(s.(charging := false, finishedWaitingPayment := true),
                 if use then None else invoice,
                 if use then invoice.value.totalKw else s.lastKw,
                 if use then invoice.value.totalEur else s.lastEur)
  }

  /** `finish_service` as written: only a response reading exactly "ACK"
      completes the charge. */
  function FinishAsWritten(s: DriverState, cpId: string, response: string,
                           consumer: bool, invoice: Option<InvoiceRecord>): FinishResult {
    if !s.charging || s.currentCp != Some(cpId) then FinishResult(s, invoice, 0.0, 0.0)
    else if response == "ACK" then Complete(s, cpId, consumer, invoice)
    else FinishResult(s, invoice, s.lastKw, s.lastEur)
  }

  /** `finish_service` completing when Central acknowledged the FINISH frame. */
  function Finish(s: DriverState, cpId: string, acked: bool,
                  consumer: bool, invoice: Option<InvoiceRecord>): FinishResult {
    if !s.charging || s.currentCp != Some(cpId) then FinishResult(s, invoice, 0.0, 0.0)
    else if acked then Complete(s, cpId, consumer, invoice)
    else FinishResult(s, invoice, s.lastKw, s.lastEur)
  }

  /** The guard: finishing while not charging, or for another charge point,
      reports zero and changes nothing. */
  lemma FinishGuard(s: DriverState, cpId: string, response: string, acked: bool,
                    consumer: bool, invoice: Option<InvoiceRecord>)
    requires !s.charging || s.currentCp != Some(cpId)
    ensures FinishAsWritten(s, cpId, response, consumer, invoice) == FinishResult(s, invoice, 0.0, 0.0)
    ensures Finish(s, cpId, acked, consumer, invoice) == FinishResult(s, invoice, 0.0, 0.0)
  {
  }

  /** A confirmed finish stops the charge and waits for payment, keeping the
      charge point and the counters; the figures reported are the invoice's
      when one for this charge point is at hand, the driver's own otherwise. */
  lemma FinishConfirmed(s: DriverState, cpId: string, consumer: bool, invoice: Option<InvoiceRecord>)
    requires s.charging && s.currentCp == Some(cpId)
    ensures var r := FinishAsWritten(s, cpId, "ACK", consumer, invoice);
            r == Finish(s, cpId, true, consumer, invoice)
            && r.state == s.(charging := false, finishedWaitingPayment := true)
    ensures var r := Finish(s, cpId, true, consumer, invoice);
            consumer && invoice.Some? && invoice.value.cpId == Some(cpId)
            ==> r.finalKw == invoice.value.totalKw && r.finalEur == invoice.value.totalEur && r.invoice == None
    ensures var r := Finish(s, cpId, true, consumer, invoice);
            !(consumer && invoice.Some? && invoice.value.cpId == Some(cpId))
            ==> r.finalKw == s.lastKw && r.finalEur == s.lastEur && r.invoice == invoice
  {
  }

  /** As written, a driver can never finish against the text Central: that
      Central acknowledges FINISH but sends no answer frame, so the driver's
      response is an error text, the charge stays on, and payment then does
      nothing. */
  lemma FinishNeverCompletes(db: TextCentral.Db, current: Option<string>, s: DriverState,
                             me: string, cpId: string, consumer: bool, invoice: Option<InvoiceRecord>)
    requires s.charging && s.currentCp == Some(cpId) && !s.finishedWaitingPayment
    ensures var o := TextCentral.Apply(db, current, TextCentral.Finish(cpId, me));
            var response := SendToCentral(true, if o.reply.Some? then Some(TextCentral.ReplyText(o.reply.value)) else None);
            var r := FinishAsWritten(s, cpId, response, consumer, invoice);
            o.reply == None && r.state == s && r.state.charging && Pay(r.state) == r.state
  {
  }

  /** Corrected: once Central acknowledges the FINISH frame, the charge
      stops, waits for payment, and paying returns the driver to its initial
      state. */
  lemma FinishThenPay(s: DriverState, cpId: string, consumer: bool, invoice: Option<InvoiceRecord>)
    requires s.charging && s.currentCp == Some(cpId)
    ensures var r := Finish(s, cpId, true, consumer, invoice);
            !r.state.charging && r.state.finishedWaitingPayment && r.state.currentCp == Some(cpId)
            && Pay(r.state) == Initial
  {
  }

  // -------------------------------------------------------------------- pay

  /** `pay_service`: only a charge waiting for payment is paid; paying
      clears the charge point, the counters and the flag. */
  function Pay(s: DriverState): (r: DriverState)
    ensures !s.finishedWaitingPayment ==> r == s
    ensures s.finishedWaitingPayment ==>
              && !r.finishedWaitingPayment && r.currentCp == None
              && r.lastKw == 0.0 && r.lastEur == 0.0 && r.lastKwh == 0.0 && r.charging == s.charging
  {
    if !s.finishedWaitingPayment then s
    else s.(finishedWaitingPayment := false, currentCp := None, lastKw := 0.0, lastEur := 0.0, lastKwh := 0.0)
  }

  /** Paying twice is paying once. */
  lemma PayIdempotent(s: DriverState)
    ensures Pay(Pay(s)) == Pay(s)
  {
  }

  // ----------------------------------------------------- telemetry, invoice

  /** A telemetry message as the driver reads it; missing figures count as 0. */
  datatype TelemetryPayload = TelemetryPayload(cpId: Option<string>, driverId: Option<string>,
                                               kw: Option<real>, eur: Option<real>)

  /** `_on_telemetry`: only for the driver's charge point and for this
      driver; the figures are stored and the energy grows by a second's
      worth of the power. */
  function Telemetry(s: DriverState, me: string, p: TelemetryPayload): DriverState {
    if p.cpId != s.currentCp || p.driverId != Some(me) then s
    else s.(lastKw := p.kw.GetOr(0.0), lastEur := p.eur.GetOr(0.0),
            lastKwh := s.lastKwh + p.kw.GetOr(0.0) / 3600.0)
  }

  /** Telemetry for another charge point or another driver changes nothing;
      accepted telemetry changes only the three counters. */
  lemma TelemetryFilter(s: DriverState, me: string, p: TelemetryPayload)
    ensures p.cpId != s.currentCp || p.driverId != Some(me) ==> Telemetry(s, me, p) == s
    ensures var t := Telemetry(s, me, p);
            t.currentCp == s.currentCp && t.charging == s.charging
            && t.finishedWaitingPayment == s.finishedWaitingPayment
  {
  }

  /** An invoice as the driver reads it; missing totals count as 0. */
  datatype InvoicePayload = InvoicePayload(driverId: Option<string>, cpId: Option<string>,
                                           totalKw: Option<real>, totalEur: Option<real>)

  /** `_on_invoice`: an invoice for this driver replaces the kept one. */
  function OnInvoice(kept: Option<InvoiceRecord>, me: string, p: InvoicePayload): Option<InvoiceRecord> {
    if p.driverId != Some(me) then kept
    else Some(InvoiceRecord(p.cpId, p.totalKw.GetOr(0.0), p.totalEur.GetOr(0.0)))
  }

  /** The invoice Central publishes on FINISH reaches the driver it names,
      and an acknowledged finish then reports Central's figures. */
  lemma CentralInvoiceUsed(kept: Option<InvoiceRecord>, s: DriverState, me: string, other: string,
                           cpId: string, kw: real, eur: real)
    requires s.charging && s.currentCp == Some(cpId) && other != me
    ensures var p := InvoicePayload(Some(me), Some(cpId), Some(kw), Some(eur));
            var r := Finish(s, cpId, true, true, OnInvoice(kept, me, p));
            r.finalKw == kw && r.finalEur == eur && r.invoice == None
    ensures OnInvoice(kept, other, InvoicePayload(Some(me), Some(cpId), Some(kw), Some(eur))) == kept
  {
  }

  /** Every operation keeps a charge waiting for payment tied to a charge
      point. */
  lemma OperationsKeepValid(s: DriverState, cpId: string, response: string, acked: bool,
                            consumer: bool, invoice: Option<InvoiceRecord>, me: string, p: TelemetryPayload)
    requires Valid(s)
    ensures Valid(Request(s, cpId, response).state)
    ensures Valid(FinishAsWritten(s, cpId, response, consumer, invoice).state)
    ensures Valid(Finish(s, cpId, acked, consumer, invoice).state)
    ensures Valid(Pay(s)) && Valid(Telemetry(s, me, p))
  {
  }

  // -------------------------------------------------------------- file list

  /** A line of the file names a charge point when, stripped, it is
      non-empty and not a `#` comment. */
  predicate Kept(line: string) {
    Strip(line) != "" && !StartsWith(Strip(line), "#")
  }

  /** The charge points of `run_from_file`, in file order. */
  function KeptLines(lines: seq<string>): (ids: seq<string>)
    ensures |ids| <= |lines|
  {
    if lines == [] then []
    else KeptLines(lines[..|lines| - 1])
         + (if Kept(lines[|lines| - 1]) then [Strip(lines[|lines| - 1])] else [])
  }

  /** The list is the kept lines of each part of the file, one after the
      other: order is preserved and no line is looked at twice. */
  lemma {:induction false} KeptLinesAppend(a: seq<string>, b: seq<string>)
    ensures KeptLines(a + b) == KeptLines(a) + KeptLines(b)
    decreases |b|
  {
    if b == [] {
      assert a + b == a;
    } else {
      var front := b[..|b| - 1];
      assert (a + b)[..|a + b| - 1] == a + front;
      KeptLinesAppend(a, front);
    }
  }

  /** A charge point is listed exactly when some line, stripped, is it and is
      kept. */
  lemma {:induction false} KeptLinesMembers(lines: seq<string>, id: string)
    ensures id in KeptLines(lines) <==> exists i :: 0 <= i < |lines| && Kept(lines[i]) && Strip(lines[i]) == id
    decreases |lines|
  {
    if lines != [] {
      var front := lines[..|lines| - 1];
      KeptLinesMembers(front, id);
      if id in KeptLines(front) {
        var i :| 0 <= i < |front| && Kept(front[i]) && Strip(front[i]) == id;
        assert lines[i] == front[i];
      }
      if exists i :: 0 <= i < |lines| && Kept(lines[i]) && Strip(lines[i]) == id {
        var i :| 0 <= i < |lines| && Kept(lines[i]) && Strip(lines[i]) == id;
        if i < |lines| - 1 {
          assert front[i] == lines[i];
        }
      }
    }
  }

  /** The loop of `run_from_file` over the file's lines. */
  method CpIdsFromLines(lines: seq<string>) returns (cpIds: seq<string>)
    ensures cpIds == KeptLines(lines)
  {
    cpIds := [];
    var i := 0;
    while i < |lines|
      invariant 0 <= i <= |lines|
      invariant cpIds == KeptLines(lines[..i])
    {
      assert lines[..i + 1][..i] == lines[..i];
      var line := Strip(lines[i]);
      if line != "" && !StartsWith(line, "#") {
        cpIds := cpIds + [line];
      }
      i := i + 1;
    }
    assert lines[..i] == lines;
  }

  // ----------------------------------------------------------------- Driver

  /** The client, holding its `DriverState` fields and the last invoice. */
  class Driver {
    const driverId: string
    const hasInvoiceConsumer: bool
    var currentCp: Option<string>
    var charging: bool
    var lastKw: real
    var lastEur: real
    var lastKwh: real
    var finishedWaitingPayment: bool
    var lastInvoice: Option<InvoiceRecord>

    constructor (driverId: string, hasInvoiceConsumer: bool)
      ensures this.driverId == driverId && this.hasInvoiceConsumer == hasInvoiceConsumer
      ensures State() == Initial && lastInvoice == None
    {
      this.driverId := driverId;
      this.hasInvoiceConsumer := hasInvoiceConsumer;
      currentCp := None;
      charging := false;
      lastKw := 0.0;
      lastEur := 0.0;
      lastKwh := 0.0;
      finishedWaitingPayment := false;
      lastInvoice := None;
    }

    function State(): DriverState
      reads this
    {
      DriverState(currentCp, charging, lastKw, lastEur, lastKwh, finishedWaitingPayment)
    }

    /** `request_service(cp_id)`, with Central's response given. */
    method RequestService(cpId: string, response: string) returns (granted: bool)
      modifies this
      ensures RequestResult(State(), granted) == Request(old(State()), cpId, response)
      ensures lastInvoice == old(lastInvoice)
    {
      var parts := Split(response, '#');
      if parts[0] == "AUTH_GRANTED" {
        var isReconnect := |parts| > 3 && parts[3] == "RECONNECT";
        if isReconnect {
          currentCp := Some(cpId);
          charging := true;
        } else {
          currentCp := Some(cpId);
          charging := true;
          lastKw := 0.0;
          lastEur := 0.0;
          lastKwh := 0.0;
        }
        return true;
      }
      return false;
    }

    /** `finish_service(cp_id)`, completing when Central acknowledged the
        FINISH frame. */
    method FinishService(cpId: string, acked: bool) returns (finalKw: real, finalEur: real)
      modifies this
      ensures FinishResult(State(), lastInvoice, finalKw, finalEur)
           == Finish(old(State()), cpId, acked, hasInvoiceConsumer, old(lastInvoice))
    {
      if !charging || currentCp != Some(cpId) {
        return 0.0, 0.0;
      }
      finalKw := lastKw;
      finalEur := lastEur;
      if acked {
        if hasInvoiceConsumer {
          if lastInvoice.Some? && lastInvoice.value.cpId == Some(cpId) {
            finalKw := lastInvoice.value.totalKw;
            finalEur := lastInvoice.value.totalEur;
            lastInvoice := None;
          }
        }
        charging := false;
        finishedWaitingPayment := true;
      }
    }

    /** `pay_service` */
    method PayService()
      modifies this
      ensures State() == Pay(old(State())) && lastInvoice == old(lastInvoice)
    {
      if !finishedWaitingPayment {
        return;
      }
      finishedWaitingPayment := false;
      currentCp := None;
      lastKw := 0.0;
      lastEur := 0.0;
      lastKwh := 0.0;
    }

    /** `_on_telemetry` */
    method OnTelemetry(p: TelemetryPayload)
      modifies this
      ensures State() == Telemetry(old(State()), driverId, p) && lastInvoice == old(lastInvoice)
    {
      if p.cpId != currentCp {
        return;
      }
      if p.driverId != Some(driverId) {
        return;
      }
      var kw := p.kw.GetOr(0.0);
      var eur := p.eur.GetOr(0.0);
      lastKw := kw;
      lastEur := eur;
      lastKwh := lastKwh + kw / 3600.0;
    }

    /** `_on_invoice` */
    method OnInvoiceMessage(p: InvoicePayload)
      modifies this
      ensures lastInvoice == OnInvoice(old(lastInvoice), driverId, p) && State() == old(State())
    {
      if p.driverId != Some(driverId) {
        return;
      }
      lastInvoice := Some(InvoiceRecord(p.cpId, p.totalKw.GetOr(0.0), p.totalEur.GetOr(0.0)));
    }
  }
}
