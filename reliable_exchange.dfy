/** `send_with_protocol` / `receive_with_protocol`: one frame out and a
    one-byte acknowledgement back, or one read in and an ACK/NACK written.
    The socket is a `Link` that records every byte written to it; what a
    read returns is passed in. */
module ReliableExchange {
  import opened FrameCodec

  /** The outcome of one `recv` on the socket: the bytes it returned (empty
      when the peer has closed) or the timeout exception. */
  datatype ReadResult = Bytes(data: seq<byte>) | TimedOut

  /** The socket side of one connection: the bytes written with `sendall`. */
  class Link {
    var written: seq<byte>

    constructor ()
      ensures written == []
    {
      written := [];
    }

    /** `sendall` */
    method SendAll(data: seq<byte>)
      modifies this
      ensures written == old(written) + data
    {
      written := written + data;
    }

    /** `send_with_protocol`: writes the frame of `message`; without waiting
        for an acknowledgement it reports success, otherwise success means the
        one byte read back (`reply`) is ACK. NACK, any other byte, an empty
        read and a timeout are all failure. */
    method SendWithProtocol(message: seq<byte>, waitAck: bool, reply: ReadResult) returns (ok: bool)
      modifies this
      ensures written == old(written) + Encode(message)
      ensures ok <==> !waitAck || (reply.Bytes? && IsAck(reply.data))
    {
      var encoded := Encode(message);
      SendAll(encoded);
      if !waitAck {
        return true;
      }
      match reply
      case TimedOut =>
        ok := false;
      case Bytes(ackData) =>
        if IsAck(ackData) {
          ok := true;
        } else if IsNack(ackData) {
          ok := false;
        } else {
          ok := false;
        }
    }

    /** `receive_with_protocol`: an empty read or a timeout yields
        `("", False)` and writes nothing; otherwise the bytes are decoded and,
        when `sendAck` is set, exactly one ACK (valid frame) or NACK (invalid)
        is written back. */
    method ReceiveWithProtocol(sendAck: bool, read: ReadResult) returns (r: Decoded)
      modifies this
      ensures read == TimedOut || read == Bytes([]) ==> r == Rejected && written == old(written)
      ensures read.Bytes? && read.data != [] ==>
        && r == Decode(read.data)
        && written == old(written) + (if !sendAck then [] else if r.valid then [ACK] else [NACK])
    {
      match read
      case TimedOut =>
        return Rejected;
      case Bytes(rawData) =>
        if rawData == [] {
          return Rejected;
        }
        r := Decode(rawData);
        if sendAck {
          if r.valid {
            SendAll([ACK]);
          } else {
            SendAll([NACK]);
          }
        }
    }
  }

  /** Two ends of an exchange: the sender's frame, read whole by the
      receiver, is acknowledged with ACK, and that ACK is what makes the
      sender report success. */
  method Exchange(message: seq<byte>) returns (received: Decoded, ok: bool)
    requires ETX !in message && ValidUtf8(message)
    ensures received == Decoded(message, true) && ok
  {
    var sender := new Link();
    var receiver := new Link();
    var frame := Encode(message);
    received := receiver.ReceiveWithProtocol(true, Bytes(frame));
    RoundTrip(message);
    assert receiver.written == [ACK];
    ok := sender.SendWithProtocol(message, true, Bytes(receiver.written));
  }
}
