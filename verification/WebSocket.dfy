/**
  WebSocket frames between the two hand-written ends (sections 5.2 and 5.3 of RFC 6455): the
  client's masked frames, the server's unmasked ones, and both readers over a byte stream that
  arrives in pieces of any size.
 */
module WebSocket {
  import opened Wrappers
  import opened Bytes

  const MAX_PAYLOAD := 65536
  const OP_TEXT := 1
  const OP_CLOSE := 8
  const OP_PING := 9
  const OP_PONG := 10

  type opcode = o: int | 0 <= o < 16

  datatype Frame = Frame(op: opcode, payload: seq<byte>)

  // ---------- Masking ----------

  function XorBits(a: nat, b: nat, bits: nat): (x: nat) {
    if bits == 0 then 0 else 2 * XorBits(a / 2, b / 2, bits - 1) + (a % 2 + b % 2) % 2
  }

  function Power2(bits: nat): nat {
    if bits == 0 then 1 else 2 * Power2(bits - 1)
  }

  lemma {:induction false} XorBitsBound(a: nat, b: nat, bits: nat)
    ensures XorBits(a, b, bits) < Power2(bits)
  {
    if bits > 0 {
      XorBitsBound(a / 2, b / 2, bits - 1);
    }
  }

  lemma {:induction false} XorBitsTwice(a: nat, b: nat, bits: nat)
    requires a < Power2(bits)
    ensures XorBits(XorBits(a, b, bits), b, bits) == a
  {
    if bits > 0 {
      XorBitsTwice(a / 2, b / 2, bits - 1);
      Halves(XorBits(a / 2, b / 2, bits - 1), (a % 2 + b % 2) % 2);
      Parity(a % 2, b % 2);
    }
  }

  lemma Halves(q: nat, p: nat)
    requires p < 2
    ensures (2 * q + p) / 2 == q && (2 * q + p) % 2 == p
  {
  }

  lemma Parity(p: nat, q: nat)
    requires p < 2 && q < 2
    ensures ((p + q) % 2 + q) % 2 == p
  {
  }

  lemma EightBits()
    ensures Power2(8) == 256
  {
    assert Power2(4) == 16;
    assert Power2(6) == 64;
  }

  function Xor(a: byte, b: byte): byte {
    EightBits();
    XorBitsBound(a, b, 8);
    XorBits(a, b, 8)
  }

  lemma XorTwice(a: byte, b: byte)
    ensures Xor(Xor(a, b), b) == a
  {
    EightBits();
    XorBitsTwice(a, b, 8);
  }

  /** Section 5.3: byte i is combined with byte i modulo 4 of the mask. */
  function Masked(payload: seq<byte>, mask: seq<byte>): (m: seq<byte>)
    requires |mask| == 4
    ensures |m| == |payload|
  {
    seq(|payload|, i requires 0 <= i < |payload| => Xor(payload[i], mask[i % 4]))
  }

  lemma MaskedTwice(payload: seq<byte>, mask: seq<byte>)
    requires |mask| == 4
    ensures Masked(Masked(payload, mask), mask) == payload
  {
    hide Xor;
    forall i | 0 <= i < |payload| ensures Masked(Masked(payload, mask), mask)[i] == payload[i] {
      XorTwice(payload[i], mask[i % 4]);
    }
  }

  // ---------- What each end sends ----------

  /** The mask bit and the shortest of the three length forms. */
  function LengthField(length: nat, flag: int): (bs: seq<byte>)
    requires flag == 0 || flag == 0x80
    ensures |bs| == if length < 126 then 1 else if length < 65536 then 3 else 9
  {
    if length < 126 then [flag + length]
    else if length < 65536 then [flag + 126] + Be(2, length)
    else [flag + 127] + Be(8, length)
  }

  function ServerBytes(f: Frame): seq<byte> {
    [0x80 + f.op] + LengthField(|f.payload|, 0) + f.payload
  }

  function ClientBytes(f: Frame, mask: seq<byte>): seq<byte>
    requires |mask| == 4
  {
    [0x80 + f.op] + LengthField(|f.payload|, 0x80) + (mask + Masked(f.payload, mask))
  }

  // ---------- What each end reads ----------

  datatype Failure = Closed

  /** The next bytes of a stream; a stream that ends first is used up. */
  datatype Taken<T> = Taken(result: Result<T, Failure>, rest: seq<byte>)

  function Take(stream: seq<byte>, count: nat): (t: Taken<seq<byte>>)
    ensures t.result.Ok? ==> |t.result.value| == count && |t.rest| == |stream| - count
    ensures t.result.Err? ==> t.rest == []
  {
    if |stream| < count then Taken(Err(Closed), []) else Taken(Ok(stream[..count]), stream[count..])
  }

  lemma TakeFront(front: seq<byte>, more: seq<byte>)
    ensures Take(front + more, |front|) == Taken(Ok(front), more)
  {
    assert (front + more)[..|front|] == front && (front + more)[|front|..] == more;
  }

  datatype Header = Header(fin: bool, op: opcode, masked: bool, length: nat)

  /** Two bytes, and the extended length they announce. */
  function ReadHeader(stream: seq<byte>): (t: Taken<Header>)
    ensures t.result.Ok? ==> |t.rest| <= |stream| - 2
    ensures t.result.Err? ==> t.rest == []
  {
    var head := Take(stream, 2);
    if head.result.Err? then Taken(Err(Closed), head.rest)
    else
      var b0, b1 := head.result.value[0], head.result.value[1];
      var short := b1 % 0x80;
      var field := Take(head.rest, if short == 126 then 2 else if short == 127 then 8 else 0);
      if field.result.Err? then Taken(Err(Closed), field.rest)
      else Taken(Ok(Header(b0 >= 0x80, b0 % 16, b1 >= 0x80,
                           if short >= 126 then FromBe(field.result.value) else short)), field.rest)
  }

  /** Section 5.2 as the server enforces it: whole messages, masked, and not too long. */
  function ServerRead(stream: seq<byte>): (t: Taken<Frame>)
    ensures t.result.Ok? ==> |t.rest| < |stream|
  {
    var head := ReadHeader(stream);
    if head.result.Err? then Taken(Err(Closed), head.rest)
    else
      var h := head.result.value;
      if !h.fin || h.length > MAX_PAYLOAD || !h.masked then Taken(Err(Closed), head.rest)
      else
        var mask := Take(head.rest, 4);
        if mask.result.Err? then Taken(Err(Closed), mask.rest)
        else
          var body := Take(mask.rest, h.length);
          if body.result.Err? then Taken(Err(Closed), body.rest)
          else Taken(Ok(Frame(h.op, Masked(body.result.value, mask.result.value))), body.rest)
  }

  function ClientRead(stream: seq<byte>): (t: Taken<Frame>)
    ensures t.result.Ok? ==> |t.rest| < |stream|
  {
    var head := ReadHeader(stream);
    if head.result.Err? then Taken(Err(Closed), head.rest)
    else
      var h := head.result.value;
      var mask := Take(head.rest, if h.masked then 4 else 0);
      if mask.result.Err? then Taken(Err(Closed), mask.rest)
      else
        var body := Take(mask.rest, h.length);
        if body.result.Err? then Taken(Err(Closed), body.rest)
        else Taken(Ok(Frame(h.op, if h.masked then Masked(body.result.value, mask.result.value) else body.result.value)), body.rest)
  }

  // ---------- Round trips ----------

  /** A header is read back from any of the three length forms. */
  lemma HeaderRoundTrip(op: opcode, length: nat, flag: int, more: seq<byte>)
    requires (flag == 0 || flag == 0x80) && length < Range(8)
    ensures ReadHeader([0x80 + op] + LengthField(length, flag) + more) == Taken(Ok(Header(true, op, flag == 0x80, length)), more)
  {
    hide FromBe, Be, Range;
    assert Range(2) == 65536 by { Ranges(); }
    var field := LengthField(length, flag);
    var stream := [0x80 + op] + field + more;
    var first: seq<byte> := [0x80 + op, field[0]];
    assert field == [field[0]] + field[1..];
    assert stream == first + (field[1..] + more);
    TakeFront(first, field[1..] + more);
    TakeFront(field[1..], more);
    HeaderBits(op, if length >= 65536 then 127 else if length >= 126 then 126 else length, flag);
    if length >= 65536 {
      BeRoundTrip(8, length);
      assert field[1..] == Be(8, length);
    } else if length >= 126 {
      BeRoundTrip(2, length);
      assert field[1..] == Be(2, length);
    } else {
      assert field[1..] == [];
    }
  }

  lemma HeaderBits(op: opcode, short: nat, flag: int)
    requires short < 0x80 && (flag == 0 || flag == 0x80)
    ensures (0x80 + op) % 16 == op && (flag + short) % 0x80 == short && (flag + short >= 0x80 <==> flag == 0x80)
  {
  }

  /** The server reads a client frame back, and leaves what follows, exactly when it is not too long. */
  lemma ServerReadsClient(f: Frame, mask: seq<byte>, more: seq<byte>)
    requires |mask| == 4 && |f.payload| < Range(8)
    ensures ServerRead(ClientBytes(f, mask) + more) == Taken(Ok(f), more) <==> |f.payload| <= 65536
    ensures ServerRead(ClientBytes(f, mask) + more).result.Ok? <==> |f.payload| <= 65536
  {
    hide LengthField, Xor, Range, ReadHeader, Take;
    var body := Masked(f.payload, mask);
    var tail := mask + (body + more);
    assert ClientBytes(f, mask) + more == [0x80 + f.op] + LengthField(|f.payload|, 0x80) + tail;
    HeaderRoundTrip(f.op, |f.payload|, 0x80, tail);
    TakeFront(mask, body + more);
    TakeFront(body, more);
    MaskedTwice(f.payload, mask);
  }

  /** The client reads a server frame back, whatever its length. */
  lemma ClientReadsServer(f: Frame, more: seq<byte>)
    requires |f.payload| < Range(8)
    ensures ClientRead(ServerBytes(f) + more) == Taken(Ok(f), more)
  {
    hide LengthField, Xor, Range, ReadHeader;
    assert ServerBytes(f) + more == [0x80 + f.op] + LengthField(|f.payload|, 0) + (f.payload + more);
    HeaderRoundTrip(f.op, |f.payload|, 0, f.payload + more);
    TakeFront([], f.payload + more);
    assert [] + (f.payload + more) == f.payload + more;
    TakeFront(f.payload, more);
  }

  // ---------- The bytes of a frame ----------

  function Bit(x: nat, k: nat): nat {
    if k == 0 then x % 2 else Bit(x / 2, k - 1)
  }

  /** Each bit of the combination is set exactly when the two bits differ. */
  lemma {:induction false} XorIsBitwise(a: nat, b: nat, bits: nat, k: nat)
    requires k < bits
    ensures Bit(XorBits(a, b, bits), k) == if Bit(a, k) != Bit(b, k) then 1 else 0
  {
    Halves(XorBits(a / 2, b / 2, bits - 1), (a % 2 + b % 2) % 2);
    if k > 0 {
      XorIsBitwise(a / 2, b / 2, bits - 1, k - 1);
    }
  }

  /** The second byte's low seven bits, and the bytes after it, for a payload of n bytes. */
  predicate LengthBytes(b: seq<byte>, n: nat, flag: int) {
    if n < 126 then |b| == 1 && b[0] == flag + n
    else if n < 65536 then |b| == 3 && b[0] == flag + 126 && b[1] == n / 256 && b[2] == n % 256
    else |b| == 9 && b[0] == flag + 127 && forall j :: 1 <= j < 9 ==> b[j] == n / Range(8 - j) % 256
  }

  lemma LengthFieldBytes(n: nat, flag: int)
    requires flag == 0 || flag == 0x80
    ensures LengthBytes(LengthField(n, flag), n, flag)
  {
    hide Be;
    Ranges();
    if 126 <= n < 65536 {
      BeDigit(2, n, 0);
      BeDigit(2, n, 1);
    } else if n >= 65536 {
      var field := LengthField(n, flag);
      forall j | 1 <= j < 9 ensures field[j] == n / Range(8 - j) % 256 {
        BeDigit(8, n, j - 1);
      }
    }
  }

  /**
    Section 5.2, byte by byte: the final bit with the opcode, the mask bit with the shortest length
    form, most significant byte first, then the payload as it is.
   */
  lemma ServerFrameBytes(f: Frame)
    ensures var b, n := ServerBytes(f), |f.payload|;
            var at := if n < 126 then 2 else if n < 65536 then 4 else 10;
            |b| == at + n && b[0] == 128 + f.op && LengthBytes(b[1..at], n, 0) && b[at..] == f.payload
  {
    hide LengthField, LengthBytes;
    var field := LengthField(|f.payload|, 0);
    LengthFieldBytes(|f.payload|, 0);
    assert ServerBytes(f)[1..1 + |field|] == field;
  }

  /** A client's frame has the mask bit, four mask bytes, and section 5.3's combination of each payload byte. */
  lemma ClientFrameBytes(f: Frame, mask: seq<byte>)
    requires |mask| == 4
    ensures var b, n := ClientBytes(f, mask), |f.payload|;
            var at := if n < 126 then 2 else if n < 65536 then 4 else 10;
            && |b| == at + 4 + n && b[0] == 128 + f.op && LengthBytes(b[1..at], n, 128) && b[at..at + 4] == mask
            && forall i, k: nat :: 0 <= i < n && k < 8 ==>
                 Bit(b[at + 4 + i], k) == if Bit(f.payload[i], k) != Bit(mask[i % 4], k) then 1 else 0
  {
    hide LengthField, LengthBytes, Bit, Xor;
    var field, body := LengthField(|f.payload|, 0x80), Masked(f.payload, mask);
    LengthFieldBytes(|f.payload|, 0x80);
    var b := ClientBytes(f, mask);
    assert b == [0x80 + f.op] + field + mask + body;
    assert b[1..1 + |field|] == field;
    forall i, k: nat | 0 <= i < |f.payload| && k < 8
      ensures Bit(b[|field| + 5 + i], k) == if Bit(f.payload[i], k) != Bit(mask[i % 4], k) then 1 else 0
    {
      assert b[|field| + 5 + i] == body[i];
      XorByteIsBitwise(f.payload[i], mask[i % 4], k);
    }
  }

  lemma XorByteIsBitwise(a: byte, b: byte, k: nat)
    requires k < 8
    ensures Bit(Xor(a, b), k) == if Bit(a, k) != Bit(b, k) then 1 else 0
  {
    XorIsBitwise(a, b, 8, k);
  }

  /** What the server takes for a frame is final, masked, and at most 65536 bytes. */
  lemma ServerAccepts(stream: seq<byte>)
    ensures ServerRead(stream).result.Ok? ==>
              && |stream| >= 6 && stream[0] >= 128 && stream[1] >= 128 && ServerRead(stream).result.value.op == stream[0] % 16
              && |ServerRead(stream).result.value.payload| <= 65536
    ensures |stream| >= 2 && (stream[0] < 128 || stream[1] < 128) ==> ServerRead(stream).result.Err?
  {
    hide Xor, FromBe;
  }
}
