/**
 * The WebSocket wire format (sections 5.2 and 5.3 of RFC 6455): one frame to bytes,
 * and the first frame of a byte stream back.
 */
module WebSocketFrames {
  import opened Wrappers
  import opened Bits

  type Byte = n: nat | n < 256
  datatype Key = Key(b0: Byte, b1: Byte, b2: Byte, b3: Byte) {
    function At(i: nat): Byte {
      match i % 4
      case 0 => b0
      case 1 => b1
      case 2 => b2
      case _ => b3
    }

    function Bytes(): (r: seq<Byte>)
      ensures |r| == 4
    {
      [b0, b1, b2, b3]
    }
  }
  datatype Frame = Frame(fin: bool, opcode: nat, payload: seq<Byte>)

  const MAX_FRAME: nat := 1_000_000
  const LENGTH_LIMIT: nat := 0x1_0000_0000_0000_0000

  // ------------------------------------------------------------------ bytes

  function BigEndian(n: nat, width: nat): (r: seq<Byte>)
    ensures |r| == width
  {
    if width == 0 then [] else BigEndian(n / 256, width - 1) + [n % 256]
  }

  function Number(bs: seq<Byte>): nat {
    if bs == [] then 0 else 256 * Number(bs[..|bs| - 1]) + bs[|bs| - 1]
  }

  function Capacity(width: nat): nat { if width == 0 then 1 else 256 * Capacity(width - 1) }

  lemma {:induction false} BigEndianRoundTrip(n: nat, width: nat)
    requires n < Capacity(width)
    ensures Number(BigEndian(n, width)) == n
  {
    if width > 0 {
      BigEndianRoundTrip(n / 256, width - 1);
      var high := BigEndian(n / 256, width - 1);
      assert BigEndian(n, width)[..width - 1] == high;
    }
  }

  lemma Capacities()
    ensures Capacity(2) == 65536 && Capacity(8) == LENGTH_LIMIT
  {
    assert Capacity(4) == 256 * 256 * 65536;
    assert Capacity(6) == 256 * 256 * Capacity(4);
  }

  function XorBytes(a: Byte, b: Byte): Byte {
    ByteBits();
    XorStaysWithin(a, b, 8);
    Xor(a, b)
  }

  function Masked(payload: seq<Byte>, key: Key): (r: seq<Byte>)
    ensures |r| == |payload|
  {
    seq(|payload|, i requires 0 <= i < |payload| => XorBytes(payload[i], key.At(i)))
  }

  lemma MaskingUndoesItself(payload: seq<Byte>, key: Key)
    ensures Masked(Masked(payload, key), key) == payload
  {
    forall i | 0 <= i < |payload| ensures Masked(Masked(payload, key), key)[i] == payload[i] {
      XorUndoesItself(payload[i], key.At(i));
    }
  }

  // ----------------------------------------------------------------- encode

  predicate HasTopBit(b: Byte): (r: bool)
    ensures r <==> b >= 128
  {
    TopBit(b); And(b, 0x80) != 0
  }

  function Low7(b: Byte): (r: nat)
    ensures r == b % 128
  {
    LowSeven(b); And(b, 0x7F)
  }

  function Low4(b: nat): (r: nat)
    ensures r == b % 16
  {
    LowNibble(b); And(b, 0x0F)
  }

  /** `bits` under a flag in the top bit. */
  function Flagged(flag: bool, bits: nat): (b: Byte)
    requires bits < 128
    ensures b == if flag then 128 + bits else bits
  {
    WithTopBit(bits); OrNothing(bits);
    Or(if flag then 0x80 else 0, bits)
  }

  lemma FlaggedComesApart(flag: bool, bits: nat)
    requires bits < 128
    ensures var b := Flagged(flag, bits); (HasTopBit(b) <==> flag) && Low7(b) == bits && Low4(b) == bits % 16
  {
    FlagArithmetic(bits);
  }

  lemma FlagArithmetic(bits: nat)
    requires bits < 128
    ensures (128 + bits) % 128 == bits == bits % 128
    ensures (128 + bits) % 16 == bits % 16
  {
  }

  function FirstByte(opcode: nat, fin: bool): Byte { Flagged(fin, Low4(opcode)) }

  lemma NibbleOfSmall(opcode: nat)
    requires opcode < 16
    ensures Low4(opcode) == opcode
  {
  }

  lemma FirstByteComesApart(opcode: nat, fin: bool)
    requires opcode < 16
    ensures (HasTopBit(FirstByte(opcode, fin)) <==> fin) && Low4(FirstByte(opcode, fin)) == opcode
  {
    NibbleOfSmall(opcode);
    FlaggedComesApart(fin, opcode);
  }

  /** The seven-bit length field and what follows it: lengths from 126 take 2 bytes, from 65536 take 8. */
  function LengthCode(length: nat): (r: nat)
    ensures r < 128
  {
    if length < 126 then length else if length < 65536 then 126 else 127
  }

  function LengthWidth(code: nat): nat { if code == 126 then 2 else if code == 127 then 8 else 0 }

  function SecondByte(length: nat, mask: bool): Byte { Flagged(mask, LengthCode(length)) }

  function ExtendedLength(length: nat): seq<Byte> {
    if length < 126 then [] else if length < 65536 then BigEndian(length, 2) else BigEndian(length, 8)
  }

  function Header(opcode: nat, length: nat, mask: bool, fin: bool): (r: seq<Byte>)
    ensures |r| == 2 + |ExtendedLength(length)|
  {
    [FirstByte(opcode, fin), SecondByte(length, mask)] + ExtendedLength(length)
  }

  function KeyBytes(key: Option<Key>): seq<Byte> { if key.Some? then key.value.Bytes() else [] }

  function Body(payload: seq<Byte>, key: Option<Key>): (r: seq<Byte>)
    ensures |r| == |payload|
  {
    if key.Some? then Masked(payload, key.value) else payload
  }

  function EncodeFrame(opcode: nat, payload: seq<Byte>, key: Option<Key>, fin: bool): seq<Byte>
    requires |payload| < LENGTH_LIMIT
  {
    Header(opcode, |payload|, key.Some?, fin) + (KeyBytes(key) + Body(payload, key))
  }

  /** Digits to the base 256, the most significant first. */
  function Positional(bs: seq<Byte>): nat {
    if bs == [] then 0 else bs[0] * Capacity(|bs| - 1) + Positional(bs[1..])
  }

  lemma {:induction false} PositionalSplits(bs: seq<Byte>, last: Byte)
    ensures Positional(bs + [last]) == 256 * Positional(bs) + last
  {
    if bs == [] {
      assert [] + [last] == [last] && [last][1..] == [];
    } else {
      var tail := bs[1..];
      assert (bs + [last])[1..] == tail + [last];
      PositionalSplits(tail, last);
      Shifted(bs[0], Capacity(|tail|));
    }
  }

  lemma Shifted(digit: nat, place: nat)
    ensures digit * (256 * place) == 256 * (digit * place)
  {
  }

  lemma {:induction false} NumberIsPositional(bs: seq<Byte>)
    ensures Number(bs) == Positional(bs)
  {
    if bs != [] {
      var head, last := bs[..|bs| - 1], bs[|bs| - 1];
      NumberIsPositional(head);
      PositionalSplits(head, last);
      assert head + [last] == bs;
    }
  }

  /** The bytes that carry a length beyond 125: two of them up to 65535, otherwise eight. */
  lemma LengthBytes(length: nat)
    requires length < LENGTH_LIMIT
    ensures var ext := ExtendedLength(length);
            && |ext| == (if length <= 125 then 0 else if length <= 65535 then 2 else 8)
            && (ext != [] ==> length == Positional(ext))
  {
    Capacities();
    var ext := ExtendedLength(length);
    NumberIsPositional(ext);
    if length > 125 {
      BigEndianRoundTrip(length, |ext|);
    }
  }

  lemma MaskedBytes(payload: seq<Byte>, key: Key)
    ensures forall i :: 0 <= i < |payload| ==>
              Masked(payload, key)[i] == Xor(payload[i], [key.b0, key.b1, key.b2, key.b3][i % 4])
  {
    forall i | 0 <= i < |payload|
      ensures Masked(payload, key)[i] == Xor(payload[i], [key.b0, key.b1, key.b2, key.b3][i % 4])
    {
      assert key.At(i) == [key.b0, key.b1, key.b2, key.b3][i % 4];
    }
  }

  lemma Layout(head: seq<Byte>, ext: seq<Byte>, key: seq<Byte>, body: seq<Byte>)
    requires |head| == 2
    ensures var frame, start := head + ext + (key + body), 2 + |ext| + |key|;
            && |frame| == start + |body|
            && frame[0] == head[0] && frame[1] == head[1] && frame[2..2 + |ext|] == ext
            && frame[start - |key|..start] == key
            && forall i :: 0 <= i < |body| ==> frame[start + i] == body[i]
  {
  }

  /** A frame, byte by byte (section 5.2 of RFC 6455). */
  predicate IsFrame(frame: seq<Byte>, opcode: nat, payload: seq<Byte>, key: Option<Key>, fin: bool) {
    var n := |payload|;
    var width := if n <= 125 then 0 else if n <= 65535 then 2 else 8;
    var start := 2 + width + if key.Some? then 4 else 0;
    && |frame| == start + n
    && frame[0] == (if fin then 128 else 0) + opcode
    && frame[1] == (if key.Some? then 128 else 0) + (if n <= 125 then n else if n <= 65535 then 126 else 127)
    && (width > 0 ==> n == Positional(frame[2..2 + width]))
    && match key
       case Some(Key(b0, b1, b2, b3)) =>
         && frame[start - 4..start] == [b0, b1, b2, b3]
         && forall i :: 0 <= i < n ==> frame[start + i] == Xor(payload[i], [b0, b1, b2, b3][i % 4])
       case None => forall i :: 0 <= i < n ==> frame[start + i] == payload[i]
  }

  lemma FrameBytes(opcode: nat, payload: seq<Byte>, key: Option<Key>, fin: bool)
    requires opcode < 16 && |payload| < LENGTH_LIMIT
    ensures IsFrame(EncodeFrame(opcode, payload, key, fin), opcode, payload, key, fin)
  {
    LengthBytes(|payload|);
    HeadBytes(opcode, |payload|, key.Some?, fin);
    if key.Some? {
      MaskedBytes(payload, key.value);
    }
    Layout([FirstByte(opcode, fin), SecondByte(|payload|, key.Some?)], ExtendedLength(|payload|), KeyBytes(key),
           Body(payload, key));
  }

  lemma HeadBytes(opcode: nat, length: nat, mask: bool, fin: bool)
    requires opcode < 16
    ensures FirstByte(opcode, fin) == (if fin then 128 else 0) + opcode
    ensures SecondByte(length, mask)
            == (if mask then 128 else 0) + (if length <= 125 then length else if length <= 65535 then 126 else 127)
  {
    NibbleOfSmall(opcode);
  }

  // ----------------------------------------------------------------- decode

  datatype Trouble = EndOfStream | FrameTooBig | MessageTooBig | Unsupported(opcode: nat) | ClosedByPeer | SendFailed

  /** A frame, or why there is none; `rest` is what the reader has not consumed. */
  datatype Decoded = Got(frame: Frame, rest: seq<Byte>) | Stuck(trouble: Trouble, rest: seq<Byte>)

  function KeyOf(bs: seq<Byte>): Key
    requires |bs| == 4
  {
    Key(bs[0], bs[1], bs[2], bs[3])
  }

  /** The part after the length is known. */
  function DecodeBody(s: seq<Byte>, fin: bool, opcode: nat, masked: bool, length: nat): (r: Decoded)
    ensures r.Got? ==> |r.rest| <= |s| && |r.frame.payload| <= MAX_FRAME
  {
    var keyWidth := if masked then 4 else 0;
    if length > MAX_FRAME then Stuck(FrameTooBig, s)
    else if |s| < keyWidth then Stuck(EndOfStream, s)
    else
      var body := s[keyWidth..];
      if |body| < length then Stuck(EndOfStream, body)
      else
        var payload := Body(body[..length], if masked then Some(KeyOf(s[..4])) else None);
        Got(Frame(fin, opcode, payload), body[length..])
  }

  function DecodeFrame(s: seq<Byte>): (r: Decoded)
    ensures r.Got? ==> |r.rest| < |s| && |r.frame.payload| <= MAX_FRAME
  {
    if |s| < 2 then Stuck(EndOfStream, s)
    else
      var code, rest := Low7(s[1]), s[2..];
      var width := LengthWidth(code);
      if |rest| < width then Stuck(EndOfStream, rest)
      else
        DecodeBody(rest[width..], HasTopBit(s[0]), Low4(s[0]), HasTopBit(s[1]),
                   if width == 0 then code else Number(rest[..width]))
  }

  /** The rest of a frame from byte `at` on, once the header has said what follows. */
  predicate ReadsBody(s: seq<Byte>, at: nat, fin: bool, opcode: nat, masked: bool, length: nat, r: Decoded) {
    var start := at + if masked then 4 else 0;
    if length > 1_000_000 then r.Stuck? && r.trouble == FrameTooBig
    else if |s| < start + length then r.Stuck? && r.trouble == EndOfStream
    else
      && r.Got? && r.frame.fin == fin && r.frame.opcode == opcode
      && |r.frame.payload| == length && r.rest == s[start + length..]
      && forall i :: 0 <= i < length ==>
           r.frame.payload[i] == if masked then Xor(s[start + i], s[at + i % 4]) else s[start + i]
  }

  /** The first frame of any bytes at all, or why there is none. */
  predicate Reads(s: seq<Byte>, r: Decoded) {
    if |s| < 2 then r.Stuck? && r.trouble == EndOfStream
    else
      var code, masked := s[1] % 128, s[1] >= 128;
      var width := if code <= 125 then 0 else if code == 126 then 2 else 8;
      if |s| < 2 + width then r.Stuck? && r.trouble == EndOfStream
      else
        var length := if width == 0 then code else Positional(s[2..2 + width]);
        ReadsBody(s, 2 + width, s[0] >= 128, s[0] % 16, masked, length, r)
  }

  lemma KeyIsRead(bs: seq<Byte>, i: nat)
    requires |bs| == 4
    ensures KeyOf(bs).At(i) == bs[i % 4]
  {
  }

  lemma BodyIsRead(s: seq<Byte>, fin: bool, opcode: nat, masked: bool, length: nat)
    ensures ReadsBody(s, 0, fin, opcode, masked, length, DecodeBody(s, fin, opcode, masked, length))
  {
    var r, key := DecodeBody(s, fin, opcode, masked, length), if masked then 4 else 0;
    if r.Got? {
      assert s[key..][length..] == s[key + length..];
      if masked {
        forall i | 0 <= i < length ensures r.frame.payload[i] == Xor(s[4 + i], s[i % 4]) {
          KeyIsRead(s[..4], i);
        }
      }
    }
  }

  lemma BodyMayStartLater(s: seq<Byte>, at: nat, fin: bool, opcode: nat, masked: bool, length: nat, r: Decoded)
    requires at <= |s| && ReadsBody(s[at..], 0, fin, opcode, masked, length, r)
    ensures ReadsBody(s, at, fin, opcode, masked, length, r)
  {
    var key := if masked then 4 else 0;
    if r.Got? {
      assert s[at..][key + length..] == s[at + key + length..];
    }
  }

  lemma HeaderLeadsToBody(s: seq<Byte>, width: nat)
    requires |s| >= 2 + width && width == LengthWidth(Low7(s[1]))
    ensures DecodeFrame(s) == DecodeBody(s[2 + width..], s[0] >= 128, s[0] % 16, s[1] >= 128,
                                         if width == 0 then s[1] % 128 else Positional(s[2..2 + width]))
  {
    assert s[2..][width..] == s[2 + width..] && s[2..][..width] == s[2..2 + width];
    NumberIsPositional(s[2..2 + width]);
  }

  /** Reserved bits are ignored, and so is a length given in more bytes than it needs. */
  lemma DecodeReads(s: seq<Byte>)
    ensures Reads(s, DecodeFrame(s))
  {
    if |s| >= 2 {
      var width := LengthWidth(Low7(s[1]));
      if |s| >= 2 + width {
        var length := if width == 0 then s[1] % 128 else Positional(s[2..2 + width]);
        HeaderLeadsToBody(s, width);
        BodyIsRead(s[2 + width..], s[0] >= 128, s[0] % 16, s[1] >= 128, length);
        BodyMayStartLater(s, 2 + width, s[0] >= 128, s[0] % 16, s[1] >= 128, length, DecodeFrame(s));
      }
    }
  }

  // ------------------------------------------------------------- round trip

  lemma LengthDecodes(length: nat, mask: bool)
    requires length < LENGTH_LIMIT
    ensures var b, ext := SecondByte(length, mask), ExtendedLength(length);
            && (HasTopBit(b) <==> mask)
            && LengthWidth(Low7(b)) == |ext|
            && length == (if ext == [] then Low7(b) else Number(ext))
  {
    FlaggedComesApart(mask, LengthCode(length));
    Capacities();
    if 126 <= length < 65536 {
      BigEndianRoundTrip(length, 2);
    } else if length >= 65536 {
      BigEndianRoundTrip(length, 8);
    }
  }

  lemma BodyDecodes(opcode: nat, payload: seq<Byte>, key: Option<Key>, fin: bool, tail: seq<Byte>)
    requires |payload| <= MAX_FRAME
    ensures DecodeBody(KeyBytes(key) + Body(payload, key) + tail, fin, opcode, key.Some?, |payload|)
            == Got(Frame(fin, opcode, payload), tail)
  {
    var s := KeyBytes(key) + Body(payload, key) + tail;
    var body := s[|KeyBytes(key)|..];
    assert body[..|payload|] == Body(payload, key) && body[|payload|..] == tail;
    if key.Some? {
      assert s[..4] == key.value.Bytes();
      MaskingUndoesItself(payload, key.value);
    }
  }

  lemma HeaderIsRead(first: Byte, second: Byte, ext: seq<Byte>, body: seq<Byte>)
    requires |ext| == LengthWidth(Low7(second))
    ensures DecodeFrame([first, second] + ext + body)
            == DecodeBody(body, HasTopBit(first), Low4(first), HasTopBit(second),
                          if ext == [] then Low7(second) else Number(ext))
  {
    var s := [first, second] + ext + body;
    assert s[2..] == ext + body;
    assert s[2..][..|ext|] == ext && s[2..][|ext|..] == body;
  }

  /** A header says everything the reader needs to go on with the body. */
  lemma HeaderDecodes(opcode: nat, length: nat, mask: bool, fin: bool, body: seq<Byte>)
    requires opcode < 16 && length < LENGTH_LIMIT
    ensures DecodeFrame(Header(opcode, length, mask, fin) + body) == DecodeBody(body, fin, opcode, mask, length)
  {
    FirstByteComesApart(opcode, fin);
    LengthDecodes(length, mask);
    HeaderIsRead(FirstByte(opcode, fin), SecondByte(length, mask), ExtendedLength(length), body);
  }

  /** Decoding undoes encoding, whatever follows on the stream; only a payload over the limit is refused. */
  lemma DecodeUndoesEncode(opcode: nat, payload: seq<Byte>, key: Option<Key>, fin: bool, tail: seq<Byte>)
    requires opcode < 16 && |payload| < LENGTH_LIMIT
    ensures var r := DecodeFrame(EncodeFrame(opcode, payload, key, fin) + tail);
            if |payload| <= 1_000_000 then r == Got(Frame(fin, opcode, payload), tail)
            else r.Stuck? && r.trouble == FrameTooBig
  {
    var body := KeyBytes(key) + Body(payload, key) + tail;
    assert EncodeFrame(opcode, payload, key, fin) + tail == Header(opcode, |payload|, key.Some?, fin) + body;
    HeaderDecodes(opcode, |payload|, key.Some?, fin, body);
    if |payload| <= MAX_FRAME {
      BodyDecodes(opcode, payload, key, fin, tail);
    }
  }

  lemma CutHeaderIsNoFrame(opcode: nat, length: nat, mask: bool, fin: bool, cut: nat)
    requires length < LENGTH_LIMIT && cut < |Header(opcode, length, mask, fin)|
    ensures DecodeFrame(Header(opcode, length, mask, fin)[..cut]).Stuck?
    ensures DecodeFrame(Header(opcode, length, mask, fin)[..cut]).trouble == EndOfStream
  {
    LengthDecodes(length, mask);
    var s := Header(opcode, length, mask, fin)[..cut];
    if cut >= 2 {
      assert s[1] == SecondByte(length, mask);
    }
  }

  /** A frame cut short is never mistaken for a frame. */
  lemma CutFrameIsNoFrame(opcode: nat, payload: seq<Byte>, key: Option<Key>, fin: bool, cut: nat)
    requires opcode < 16 && |payload| <= MAX_FRAME
    requires cut < |EncodeFrame(opcode, payload, key, fin)|
    ensures DecodeFrame(EncodeFrame(opcode, payload, key, fin)[..cut]).Stuck?
    ensures DecodeFrame(EncodeFrame(opcode, payload, key, fin)[..cut]).trouble == EndOfStream
  {
    var header, body := Header(opcode, |payload|, key.Some?, fin), KeyBytes(key) + Body(payload, key);
    var s := EncodeFrame(opcode, payload, key, fin)[..cut];
    if cut < |header| {
      assert s == header[..cut];
      CutHeaderIsNoFrame(opcode, |payload|, key.Some?, fin, cut);
    } else {
      assert s == header + body[..cut - |header|];
      HeaderDecodes(opcode, |payload|, key.Some?, fin, body[..cut - |header|]);
    }
  }
}
