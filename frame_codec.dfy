/** The STX-DATA-ETX-LRC frame used between the driver, the monitor and the
    text-command Central: a start byte, the UTF-8 payload, an end byte, one
    check byte that is the XOR of the payload bytes, and a newline. */
module FrameCodec {
  import opened Wrappers
  import PyText

  type byte = bv8

  const STX: byte := 0x02
  const ETX: byte := 0x03
  const ACK: byte := 0x06
  const NACK: byte := 0x15
  const EOT: byte := 0x04
  const NEWLINE: byte := 0x0A

  /** What `decode` returns: the text between STX and ETX (as its UTF-8
      bytes) and whether the frame passed the check. */
  datatype Decoded = Decoded(text: seq<byte>, valid: bool)

  const Rejected := Decoded([], false)

  /** The longitudinal redundancy check: XOR of all bytes, folded left to
      right as the accumulator loop does. */
  function Lrc(data: seq<byte>): byte
  {
    if data == [] then 0 else Lrc(data[..|data| - 1]) ^ data[|data| - 1]
  }

  /** The accumulator loop that computes the check byte. */
  method ComputeLrc(data: seq<byte>) returns (lrc: byte)
    ensures lrc == Lrc(data)
  {
    lrc := 0;
    for i := 0 to |data|
      invariant lrc == Lrc(data[..i])
    {
      assert data[..i + 1][..i] == data[..i];
      lrc := lrc ^ data[i];
    }
    assert data[..|data|] == data;
  }

  /** XOR over a concatenation is the XOR of the two parts' checks. */
  lemma {:induction false} LrcAppend(a: seq<byte>, b: seq<byte>)
    ensures Lrc(a + b) == Lrc(a) ^ Lrc(b)
    decreases |b|
  {
    if b == [] {
      assert a + b == a;
    } else {
      var b' := b[..|b| - 1];
      assert (a + b)[..|a + b| - 1] == a + b';
      LrcAppend(a, b');
    }
  }

  /** The check of a sequence with one marked byte in the middle. */
  lemma LrcSplit(pre: seq<byte>, x: byte, post: seq<byte>)
    ensures Lrc(pre + [x] + post) == Lrc(pre) ^ x ^ Lrc(post)
  {
    LrcAppend(pre + [x], post);
    LrcAppend(pre, [x]);
    assert [x][..0] == [];
  }

  /** Replacing byte `i` by `v` changes the check by exactly `old ^ v`. */
  lemma LrcUpdate(data: seq<byte>, i: nat, v: byte)
    requires i < |data|
    ensures Lrc(data[i := v]) == Lrc(data) ^ data[i] ^ v
  {
    var pre, post := data[..i], data[i + 1..];
    assert data == pre + [data[i]] + post;
    assert data[i := v] == pre + [v] + post;
    LrcSplit(pre, data[i], post);
    LrcSplit(pre, v, post);
    var a, b := Lrc(pre), Lrc(post);
    assert a ^ v ^ b == a ^ data[i] ^ b ^ data[i] ^ v;
  }

  /** A single changed byte always changes the check. */
  lemma LrcDetectsOneChange(data: seq<byte>, i: nat, v: byte)
    requires i < |data| && v != data[i]
    ensures Lrc(data[i := v]) != Lrc(data)
  {
    LrcUpdate(data, i, v);
  }

  // ---------------------------------------------------------------------
  // UTF-8: `data.decode('utf-8')` accepts exactly the well-formed byte
  // sequences of the Unicode standard (Table 3-7) and raises otherwise.

  predicate Cont(b: byte) { 0x80 <= b <= 0xBF }

  /** The length of the well-formed UTF-8 sequence at the start of `s`, or 0
      when `s` does not start with one. */
  function CharLength(s: seq<byte>): (n: nat)
    ensures n <= |s| && (n == 0 || n <= 4)
  {
    if s == [] then 0
    else if s[0] <= 0x7F then 1
    else if 0xC2 <= s[0] <= 0xDF then
      if |s| >= 2 && Cont(s[1]) then 2 else 0
    else if 0xE0 <= s[0] <= 0xEF then
      if |s| >= 3 && Cont(s[2])
         && (if s[0] == 0xE0 then 0xA0 <= s[1] <= 0xBF
             else if s[0] == 0xED then 0x80 <= s[1] <= 0x9F
             else Cont(s[1]))
      then 3 else 0
    else if 0xF0 <= s[0] <= 0xF4 then
      if |s| >= 4 && Cont(s[2]) && Cont(s[3])
         && (if s[0] == 0xF0 then 0x90 <= s[1] <= 0xBF
             else if s[0] == 0xF4 then 0x80 <= s[1] <= 0x8F
             else Cont(s[1]))
      then 4 else 0
    else 0
  }

  /** Well-formed UTF-8: what Python's strict decoder accepts. */
  predicate ValidUtf8(s: seq<byte>)
    decreases |s|
  {
    s == [] || (CharLength(s) > 0 && ValidUtf8(s[CharLength(s)..]))
  }

  // ---------------------------------------------------------------------
  // encode / decode

  /** `ProtocolMessage.encode`: the frame for the UTF-8 bytes of a message. */
  function Encode(payload: seq<byte>): (frame: seq<byte>)
    ensures |frame| == |payload| + 4
    ensures frame[0] == STX && frame[1..|payload| + 1] == payload
    ensures frame[|payload| + 1] == ETX && frame[|payload| + 2] == Lrc(payload)
    ensures frame[|payload| + 3] == NEWLINE
  {
    [STX] + payload + [ETX, Lrc(payload), NEWLINE]
  }

  /** `ProtocolMessage.decode`: the bytes between STX and the first ETX, and
      whether the byte after that ETX is their XOR. Anything after the check
      byte is ignored. */
  function Decode(raw: seq<byte>): (r: Decoded)
    ensures r.valid ==> |raw| >= |r.text| + 3 && raw[0] == STX && raw[1..|r.text| + 1] == r.text
                        && ETX !in r.text && raw[|r.text| + 1] == ETX && raw[|r.text| + 2] == Lrc(r.text)
    ensures r.text != [] ==> ValidUtf8(r.text)
  {
    if raw == [] || raw[0] != STX then Rejected
    else
      match PyText.IndexOf(raw, ETX)
      case None => Rejected
      case Some(etx) =>
        if |raw| <= etx + 1 then Rejected
        else
          var data := raw[1..etx];
          var received := raw[etx + 1];
          if !ValidUtf8(data) then Rejected
          else
            assert raw[..etx][1..] == data;
            Decoded(data, received == Lrc(data))
  }

  /** `is_nack`: the reply starts with the NACK byte. */
  predicate IsNack(data: seq<byte>) {
    |data| > 0 && data[0] == NACK
  }

  /** `is_ack`: the reply starts with the ACK byte; only the first byte is looked at. */
  function IsAck(data: seq<byte>): (r: bool)
    ensures r ==> !IsNack(data)
    ensures r <==> |data| > 0 && data[0] == ACK
  {
    |data| > 0 && data[0] == ACK
  }

  // ---------------------------------------------------------------------
  // Properties of the codec

  /** The frame locator: with an ETX-free payload, the first ETX of a frame is
      the one `Encode` puts after the payload. */
  lemma FirstEtx(p: seq<byte>, tail: seq<byte>)
    requires ETX !in p
    ensures PyText.IndexOf([STX] + p + [ETX] + tail, ETX) == Some(|p| + 1)
  {
    var raw := [STX] + p + [ETX] + tail;
    assert raw[|p| + 1] == ETX;
    assert raw[..|p| + 1] == [STX] + p;
  }

  /** Decoding takes the first ETX and the byte right after it and ignores
      whatever follows. */
  lemma DecodeIgnoresTrailing(p: seq<byte>, check: byte, rest: seq<byte>)
    requires ETX !in p
    ensures Decode([STX] + p + [ETX, check] + rest) == Decode([STX] + p + [ETX, check])
  {
    var a := [STX] + p + [ETX, check] + rest;
    var b := [STX] + p + [ETX, check];
    assert a == [STX] + p + [ETX] + ([check] + rest);
    assert b == [STX] + p + [ETX] + [check];
    FirstEtx(p, [check] + rest);
    FirstEtx(p, [check]);
    assert a[1..|p| + 1] == p == b[1..|p| + 1];
  }

  /** A frame whose payload holds no ETX decodes to that payload, valid iff
      the check byte matches. */
  lemma DecodeFrame(p: seq<byte>, check: byte)
    requires ETX !in p && ValidUtf8(p)
    ensures Decode([STX] + p + [ETX, check]) == Decoded(p, check == Lrc(p))
  {
    var g := [STX] + p + [ETX, check];
    assert g == [STX] + p + [ETX] + [check];
    FirstEtx(p, [check]);
    assert g[1..|p| + 1] == p;
  }

  /** Round trip: an ETX-free UTF-8 payload comes back unchanged and valid,
      from the whole frame and from the frame without its newline. */
  lemma RoundTrip(p: seq<byte>)
    requires ETX !in p && ValidUtf8(p)
    ensures Decode(Encode(p)) == Decoded(p, true)
    ensures Decode(Encode(p)[..|p| + 3]) == Decoded(p, true)
  {
    var f := Encode(p);
    assert f == [STX] + p + [ETX, Lrc(p)] + [NEWLINE];
    assert f[..|p| + 3] == [STX] + p + [ETX, Lrc(p)];
    DecodeIgnoresTrailing(p, Lrc(p), [NEWLINE]);
    DecodeFrame(p, Lrc(p));
  }

  /** Corruption detection: changing one payload byte of a frame to another
      value that is not ETX makes the frame invalid; when the changed payload
      is still UTF-8, its text is returned all the same. */
  lemma CorruptionDetected(p: seq<byte>, i: nat, v: byte)
    requires ETX !in p && i < |p| && v != p[i] && v != ETX
    ensures !Decode(Encode(p)[i + 1 := v]).valid
    ensures ValidUtf8(p[i := v]) ==> Decode(Encode(p)[i + 1 := v]) == Decoded(p[i := v], false)
  {
    var q := p[i := v];
    var f := Encode(p)[i + 1 := v];
    assert f == [STX] + q + [ETX] + [Lrc(p), NEWLINE];
    assert ETX !in q by {
      forall k | 0 <= k < |q| ensures q[k] != ETX {
        if k != i { assert q[k] == p[k]; }
      }
    }
    FirstEtx(q, [Lrc(p), NEWLINE]);
    assert f[1..|q| + 1] == q;
    LrcDetectsOneChange(p, i, v);
  }

  /** Only the first byte of a reply decides whether it is an ACK or a NACK. */
  lemma ReplyFirstByteOnly(b: byte, tail: seq<byte>)
    ensures IsAck([b] + tail) == IsAck([b]) && IsNack([b] + tail) == IsNack([b])
    ensures IsAck([ACK]) && !IsNack([ACK]) && IsNack([NACK]) && !IsAck([NACK])
  {
  }

  /** Empty input, or input not starting with STX, is rejected outright. */
  lemma DecodeRejectsWithoutStx(raw: seq<byte>)
    requires raw == [] || raw[0] != STX
    ensures Decode(raw) == Rejected
  {
  }

  /** Input with no ETX, or ending right at its first ETX, is rejected. */
  lemma DecodeRejectsTruncated(p: seq<byte>)
    requires ETX !in p
    ensures Decode([STX] + p) == Rejected
    ensures Decode([STX] + p + [ETX]) == Rejected
  {
    assert ETX !in [STX] + p;
    FirstEtx(p, []);
    assert [STX] + p + [ETX] + [] == [STX] + p + [ETX];
  }
}
