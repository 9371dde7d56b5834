/** The 32-byte mlink v1 wire header, little endian, payload after it. */
module MlinkHeader {
  import opened Wrappers
  import opened Bytes

  const MAGIC: seq<byte> := [0x4D, 0x4C, 0x4E, 0x4B]
  const PAD: seq<byte> := [0, 0, 0, 0]
  const VERSION := 1
  const HEADER_SIZE := 32
  const MAX_PAYLOAD := 1440
  const FLAG_HEARTBEAT := 1
  const FLAG_PROBE := 2
  const FLAG_ECHO := 4
  const TC_CONTROL := 0
  const TC_MEDIA := 1

  type Frame = seq<byte>

  datatype Packet = Packet(
    flags: int, trafficClass: int, pathId: int, sessionId: int, seqNo: int, timestampUs: int,
    payload: seq<byte>, version: int, reserved: int)
  {
    predicate IsProbe() { flags / 2 % 2 == 1 }
    predicate IsEcho() { flags / 4 % 2 == 1 }
    predicate IsControlPlane() { flags % 4 != 0 }
  }

  datatype HeaderError =
    | TruncatedHeader | BadMagic | UnsupportedVersion | PayloadLength | TruncatedPayload
    | PayloadTooLarge | PathIdRange | BadTrafficClass

  function Encode(p: Packet): Result<Frame, HeaderError> {
    if p.version != VERSION then Err(UnsupportedVersion)
    else if |p.payload| > MAX_PAYLOAD then Err(PayloadTooLarge)
    else if p.pathId < 0 || p.pathId > 255 then Err(PathIdRange)
    else if p.trafficClass != TC_CONTROL && p.trafficClass != TC_MEDIA then Err(BadTrafficClass)
    else Ok(Header(p) + p.payload)
  }

  /** The masks are the source's: each field keeps its low bits. */
  function Header(p: Packet): (h: Frame)
    requires 0 <= p.version < 256 && 0 <= p.pathId < 256 && 0 <= p.trafficClass < 256
    ensures |h| == HEADER_SIZE
  {
    MAGIC + [p.version, p.flags % 256, p.trafficClass, p.pathId]
    + Le(4, p.sessionId % 0x1_0000_0000) + Le(4, p.seqNo % 0x1_0000_0000)
    + Le(8, p.timestampUs % 0x1_0000_0000_0000_0000)
    + Le(2, |p.payload| % 0x1_0000) + Le(2, p.reserved % 0x1_0000) + PAD
  }

  function Field(data: seq<byte>, offset: nat, width: nat): nat
    requires offset + width <= |data|
  {
    FromLe(data[offset..offset + width])
  }

  function Decode(data: seq<byte>): Result<Packet, HeaderError> {
    if |data| < HEADER_SIZE then Err(TruncatedHeader)
    else if data[..4] != MAGIC then Err(BadMagic)
    else if data[4] != VERSION then Err(UnsupportedVersion)
    else
      var length := Field(data, 24, 2);
      if length > MAX_PAYLOAD then Err(PayloadLength)
      else if |data| < HEADER_SIZE + length then Err(TruncatedPayload)
      else
        Ok(Packet(data[5], data[6], data[7], Field(data, 8, 4), Field(data, 12, 4), Field(data, 16, 8),
                  data[HEADER_SIZE..HEADER_SIZE + length], data[4], Field(data, 26, 2)))
  }

  /** What survives the masks of the encoder. */
  function Masked(p: Packet): Packet {
    p.(flags := p.flags % 256, sessionId := p.sessionId % 0x1_0000_0000, seqNo := p.seqNo % 0x1_0000_0000,
       timestampUs := p.timestampUs % 0x1_0000_0000_0000_0000, reserved := p.reserved % 0x1_0000)
  }

  /** Where the fields of a header lie, for fields of any contents. */
  lemma Layout(first: seq<byte>, session: seq<byte>, number: seq<byte>, stamp: seq<byte>,
               length: seq<byte>, spare: seq<byte>, tail: seq<byte>)
    requires |first| == 8 && |session| == 4 && |number| == 4 && |stamp| == 8 && |length| == 2 && |spare| == 2
    ensures var d := first + session + number + stamp + length + spare + tail;
            && d[..8] == first && d[8..12] == session && d[12..16] == number && d[16..24] == stamp
            && d[24..26] == length && d[26..28] == spare && d[28..] == tail
  {
  }

  lemma HeaderFields(p: Packet, tail: seq<byte>)
    requires Encode(p).Ok?
    ensures var d := Header(p) + tail;
            && d[..4] == MAGIC && d[4] == VERSION && d[5] == p.flags % 256
            && d[6] == p.trafficClass && d[7] == p.pathId
            && Field(d, 8, 4) == Masked(p).sessionId && Field(d, 12, 4) == Masked(p).seqNo
            && Field(d, 16, 8) == Masked(p).timestampUs
            && Field(d, 24, 2) == |p.payload| && Field(d, 26, 2) == Masked(p).reserved
  {
    var m := Masked(p);
    var d := Header(p) + tail;
    FieldsRoundTrip(m.sessionId, m.seqNo, m.timestampUs, |p.payload|, m.reserved);
    HeaderLayout(p, tail);
    assert d[..4] == d[..8][..4];
  }

  lemma HeaderLayout(p: Packet, tail: seq<byte>)
    requires Encode(p).Ok?
    ensures var d := Header(p) + tail;
            && d[..8] == MAGIC + [p.version, p.flags % 256, p.trafficClass, p.pathId]
            && d[8..12] == Le(4, Masked(p).sessionId) && d[12..16] == Le(4, Masked(p).seqNo)
            && d[16..24] == Le(8, Masked(p).timestampUs)
            && d[24..26] == Le(2, |p.payload|) && d[26..28] == Le(2, Masked(p).reserved)
  {
    var m := Masked(p);
    var first := MAGIC + [p.version, p.flags % 256, p.trafficClass, p.pathId];
    var fields := first + Le(4, m.sessionId) + Le(4, m.seqNo) + Le(8, m.timestampUs)
                  + Le(2, |p.payload|) + Le(2, m.reserved);
    Layout(first, Le(4, m.sessionId), Le(4, m.seqNo), Le(8, m.timestampUs), Le(2, |p.payload|),
           Le(2, m.reserved), PAD + tail);
    assert Header(p) + tail == fields + (PAD + tail);
  }

  lemma FieldsRoundTrip(session: nat, number: nat, stamp: nat, length: nat, spare: nat)
    requires session < 0x1_0000_0000 && number < 0x1_0000_0000 && stamp < 0x1_0000_0000_0000_0000
    requires length < 0x1_0000 && spare < 0x1_0000
    ensures FromLe(Le(4, session)) == session && FromLe(Le(4, number)) == number
    ensures FromLe(Le(8, stamp)) == stamp && FromLe(Le(2, length)) == length && FromLe(Le(2, spare)) == spare
  {
    Ranges();
    LeRoundTrip(4, session);
    LeRoundTrip(4, number);
    LeRoundTrip(8, stamp);
    LeRoundTrip(2, length);
    LeRoundTrip(2, spare);
  }

  /** Every packet the encoder accepts is read back, masked, whatever bytes trail it. */
  lemma DecodeEncode(p: Packet, trailing: seq<byte>)
    requires Encode(p).Ok?
    ensures Decode(Encode(p).value + trailing) == Ok(Masked(p))
  {
    var d := Encode(p).value + trailing;
    HeaderFields(p, p.payload + trailing);
    assert d == Header(p) + (p.payload + trailing);
    assert d[HEADER_SIZE..HEADER_SIZE + |p.payload|] == p.payload;
  }

  /** Exactly these datagrams are frames. Flags, class and pad bytes are not inspected. */
  lemma DecodeAccepts(data: seq<byte>)
    ensures Decode(data).Ok? <==>
            && |data| >= 32 && data[0] == 0x4D && data[1] == 0x4C && data[2] == 0x4E && data[3] == 0x4B
            && data[4] == 1
            && (data[24] as int) + 256 * (data[25] as int) <= 1440
            && |data| >= 32 + (data[24] as int) + 256 * (data[25] as int)
  {
    if |data| >= 32 {
      assert data[..4] == [data[0], data[1], data[2], data[3]];
      assert data[24..26] == [data[24], data[25]];
      assert [data[24], data[25]][1..] == [data[25]];
      assert Field(data, 24, 2) == data[24] + 256 * FromLe([data[25]]);
    }
  }

  /** Two stretches of bytes that read as the same number are the same bytes. */
  lemma SameField(a: seq<byte>, b: seq<byte>, offset: nat, width: nat)
    requires offset + width <= |a| && offset + width <= |b|
    requires Field(a, offset, width) == Field(b, offset, width)
    ensures a[offset..offset + width] == b[offset..offset + width]
  {
    FromLeRoundTrip(a[offset..offset + width]);
    FromLeRoundTrip(b[offset..offset + width]);
  }

  lemma FieldBound(data: seq<byte>, offset: nat, width: nat)
    requires offset + width <= |data|
    ensures Field(data, offset, width) < Range(width)
  {
    FromLeRoundTrip(data[offset..offset + width]);
  }

  lemma DecodedIsMasked(data: seq<byte>)
    requires Decode(data).Ok?
    ensures Masked(Decode(data).value) == Decode(data).value
    ensures |Decode(data).value.payload| == Field(data, 24, 2)
  {
    Ranges();
    FieldBound(data, 8, 4);
    FieldBound(data, 12, 4);
    FieldBound(data, 16, 8);
    FieldBound(data, 26, 2);
  }

  /** Re-encoding a decoded packet of a known class gives the datagram back, with zero padding. */
  lemma EncodeDecode(data: seq<byte>)
    requires Decode(data).Ok? && Decode(data).value.trafficClass in {TC_CONTROL, TC_MEDIA}
    ensures var p := Decode(data).value;
            Encode(p) == Ok(data[..28] + PAD + data[HEADER_SIZE..HEADER_SIZE + |p.payload|])
  {
    var p := Decode(data).value;
    DecodedIsMasked(data);
    HeaderFields(p, []);
    var h := Header(p);
    assert h + [] == h;
    SameField(h, data, 8, 4);
    SameField(h, data, 12, 4);
    SameField(h, data, 16, 8);
    SameField(h, data, 24, 2);
    SameField(h, data, 26, 2);
    SplitHeader(data);
    SplitHeader(h);
    assert h[28..] == PAD;
    assert h == h[..28] + h[28..];
  }

  lemma SplitHeader(data: seq<byte>)
    requires |data| >= 28
    ensures data[..28] == data[..4] + [data[4], data[5], data[6], data[7]]
                          + data[8..12] + data[12..16] + data[16..24] + data[24..26] + data[26..28]
  {
  }
}
