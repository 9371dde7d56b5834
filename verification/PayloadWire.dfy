/**
  The bytes of each control message, written out from the message: the header's four, then every
  field little endian in its place, and each string behind its length.
 */
module PayloadWire {
  import opened Wrappers
  import opened Bytes
  import opened Payload
  import Utf8

  function Flat(pieces: seq<seq<byte>>): seq<byte> {
    if pieces == [] then [] else pieces[0] + Flat(pieces[1..])
  }

  function U(width: nat, n: int): seq<byte> {
    if n >= 0 then Le(width, n) else []
  }

  /** Two's complement in two bytes. */
  function I16(i: int): seq<byte> {
    U(2, if i < 0 then i + 0x1_0000 else i)
  }

  function Text(text: Utf8.Text): seq<byte> {
    var raw := Utf8.Encode(text);
    if raw == None || |raw.value| > 255 then [] else [|raw.value|] + raw.value
  }

  /** Type numbers, and the fields in wire order. */
  function Code(m: Message): (c: byte) {
    match m
    case Command(_, _, _, _, _, _, _, _, _, _, _, _) => 1
    case Heartbeat(_, _, _, _) => 2
    case Ack(_, _, _, _, _, _, _) => 3
    case State(_, _, _, _, _, _, _, _, _, _, _, _, _, _) => 4
    case ToolPose(_, _, _, _, _, _, _, _, _) => 5
    case NamedPoseReq(_, _) => 6
    case NamedPoseRep(_, _, _) => 7
    case JointTicks(_, _, _, _, _, _) => 8
    case JointCommand(_, _, _, _, _, _) => 9
  }

  function Pieces(m: Message): seq<seq<byte>> {
    match m
    case Command(sequence, sec, nsec, lx, ly, lz, ax, ay, az, gripper, frameId, sessionId) =>
      [U(8, sequence), U(4, sec), U(4, nsec), U(8, lx), U(8, ly), U(8, lz), U(8, ax), U(8, ay), U(8, az), U(8, gripper),
       Text(frameId), Text(sessionId)]
    case Heartbeat(sequence, sec, nsec, sessionId) => [U(8, sequence), U(4, sec), U(4, nsec), Text(sessionId)]
    case Ack(sequence, sourceSec, sourceNsec, recvSec, recvNsec, sessionId, disposition) =>
      [U(8, sequence), U(4, sourceSec), U(4, sourceNsec), U(4, recvSec), U(4, recvNsec), Text(sessionId), Text(disposition)]
    case State(sec, nsec, sessionId, frameId, connectionState, watchdogState, lastDisposition, lx, ly, lz, ax, ay, az, gripper) =>
      [U(4, sec), U(4, nsec), Text(sessionId), Text(frameId), Text(connectionState), Text(watchdogState), Text(lastDisposition),
       U(8, lx), U(8, ly), U(8, lz), U(8, ax), U(8, ay), U(8, az), U(8, gripper)]
    case ToolPose(sec, nsec, x, y, z, qx, qy, qz, qw) =>
      [U(4, sec), U(4, nsec), U(8, x), U(8, y), U(8, z), U(8, qx), U(8, qy), U(8, qz), U(8, qw)]
    case NamedPoseReq(reqId, name) => [U(4, reqId), Text(name)]
    case NamedPoseRep(reqId, success, message) => [U(4, reqId), [if success then 1 else 0], Text(message)]
    case JointTicks(pan, lift, elbow, flex, roll, jaw) => [I16(pan), I16(lift), I16(elbow), I16(flex), I16(roll), I16(jaw)]
    case JointCommand(pan, lift, elbow, flex, roll, jaw) => [U(8, pan), U(8, lift), U(8, elbow), U(8, flex), U(8, roll), U(8, jaw)]
  }

  /** The bytes one packed field takes. */
  function Packed(v: Value): seq<byte> {
    match v
    case Uint(width, n) => U(width, n)
    case Int16(i) => I16(i)
    case Double(bits) => U(8, bits)
    case Str(text) => Text(text)
  }

  function AllPacked(vs: seq<Value>): seq<seq<byte>> {
    seq(|vs|, i requires 0 <= i < |vs| => Packed(vs[i]))
  }

  lemma PutIsPacked(v: Value)
    requires Put(v).Some?
    ensures Put(v).value == Packed(v)
  {
    hide Le, Utf8.Encode, Range;
    if v.Int16? {
      assert v.i % 0x1_0000 == if v.i < 0 then v.i + 0x1_0000 else v.i;
    }
  }

  lemma {:induction false} PutAllIsFlat(vs: seq<Value>)
    requires PutAll(vs).Some?
    ensures PutAll(vs).value == Flat(AllPacked(vs))
  {
    hide Put, Packed;
    if vs != [] {
      PutIsPacked(vs[0]);
      PutAllIsFlat(vs[1..]);
      assert AllPacked(vs)[1..] == AllPacked(vs[1..]);
    }
  }

  lemma CommandPieces(m: Message)
    requires m.Command?
    ensures AllPacked(Fields(m)) == Pieces(m) && TypeOf(m) == Code(m)
  {
    hide U, Text;
  }

  lemma StatePieces(m: Message)
    requires m.State?
    ensures AllPacked(Fields(m)) == Pieces(m) && TypeOf(m) == Code(m)
  {
    hide U, Text;
  }

  lemma OtherPieces(m: Message)
    requires !m.Command? && !m.State? && !m.NamedPoseRep?
    ensures AllPacked(Fields(m)) == Pieces(m) && TypeOf(m) == Code(m)
  {
    hide U, Text, I16;
  }

  lemma ReplyPieces(m: Message)
    requires m.NamedPoseRep?
    ensures AllPacked(Fields(m)) == Pieces(m) && TypeOf(m) == Code(m)
  {
    hide Text, Le;
    OneByteIs(if m.success then 1 else 0);
  }

  lemma OneByteIs(n: nat)
    requires n < 256
    ensures Le(1, n) == [n]
  {
    assert Le(1, n) == [n % 256] + Le(0, n / 256);
  }

  /** Every encodable message is exactly these bytes: version, type, body length, and the fields in order. */
  lemma WireBytes(m: Message)
    requires InRange(m)
    ensures var body := Flat(Pieces(m));
            |body| <= 1344 && Encode(m) == Some([1, Code(m)] + Le(2, |body|) + body)
  {
    hide Fields, Pieces, Put, PutAll, AllPacked, Flat, InRange, Code;
    EncodesInRange(m);
    BodyIsFlat(m);
    if m.Command? {
      CommandPieces(m);
    } else if m.State? {
      StatePieces(m);
    } else if m.NamedPoseRep? {
      ReplyPieces(m);
    } else {
      OtherPieces(m);
    }
  }

  lemma BodyIsFlat(m: Message)
    requires InRange(m)
    ensures PutAll(Fields(m)).Some? && PutAll(Fields(m)).value == Flat(AllPacked(Fields(m)))
  {
    hide Fields, Put, AllPacked, Flat;
    PutAllIff(Fields(m));
    PutAllIsFlat(Fields(m));
  }

  lemma {:induction false} FlatAppends(a: seq<seq<byte>>, b: seq<seq<byte>>)
    ensures Flat(a + b) == Flat(a) + Flat(b)
  {
    if a == [] {
      assert a + b == b;
    } else {
      assert (a + b)[1..] == a[1..] + b;
      FlatAppends(a[1..], b);
    }
  }

  /** Where piece k lies among the pieces. */
  lemma PieceAt(pieces: seq<seq<byte>>, k: nat)
    requires k < |pieces|
    ensures var from := |Flat(pieces[..k])|;
            from + |pieces[k]| <= |Flat(pieces)| && Flat(pieces)[from..from + |pieces[k]|] == pieces[k]
  {
    var front, back := pieces[..k], pieces[k + 1..];
    assert pieces == front + ([pieces[k]] + back);
    FlatAppends(front, [pieces[k]] + back);
    assert ([pieces[k]] + back)[1..] == back;
  }

  /** A command's body, by offset. */
  predicate CommandBody(m: Message, body: seq<byte>)
    requires m.Command?
  {
    && |body| > 72 && body[..8] == U(8, m.sequence) && body[8..12] == U(4, m.sec) && body[12..16] == U(4, m.nsec)
    && body[16..24] == U(8, m.lx) && body[24..32] == U(8, m.ly) && body[32..40] == U(8, m.lz)
    && body[40..48] == U(8, m.ax) && body[48..56] == U(8, m.ay) && body[56..64] == U(8, m.az) && body[64..72] == U(8, m.gripper)
    && Utf8.Encode(m.frameId).Some? && body[72] == |Utf8.Encode(m.frameId).value|
  }

  lemma CommandBodyIs(m: Message)
    requires m.Command? && InRange(m)
    ensures CommandBody(m, Flat(Pieces(m)))
  {
    CommandNatural(m);
    hide Flat, Utf8.Encode, InRange, Le, Text;
    var fixed := [U(8, m.sequence), U(4, m.sec), U(4, m.nsec), U(8, m.lx), U(8, m.ly), U(8, m.lz), U(8, m.ax), U(8, m.ay),
                  U(8, m.az), U(8, m.gripper)];
    assert Pieces(m) == fixed + [Text(m.frameId), Text(m.sessionId)];
    FlatAppends(fixed, [Text(m.frameId), Text(m.sessionId)]);
    TenFixed(fixed);
    FlatOfTwo(Text(m.frameId), Text(m.sessionId));
    TextStarts(m.frameId);
    Front(Flat(fixed), Text(m.frameId) + Text(m.sessionId), 72);
    assert (Text(m.frameId) + Text(m.sessionId))[0] == Text(m.frameId)[0];
  }

  /** The first n bytes of a body are those of its fixed part. */
  lemma Front(fixed: seq<byte>, more: seq<byte>, n: nat)
    requires |fixed| == n
    ensures forall i, j :: 0 <= i <= j <= n ==> (fixed + more)[i..j] == fixed[i..j]
    ensures more != [] ==> (fixed + more)[n] == more[0]
  {
  }

  /**
    A command frame: version 1, type 1, the body's length at 2; sequence at 4, stamps at 12 and 16,
    the six rates at 20, 28, 36, 44, 52 and 60, the jaw at 68, and its first string's length at 76.
   */
  lemma CommandOffsets(m: Message)
    requires m.Command? && InRange(m)
    ensures Encode(m).Some?
    ensures var e := Encode(m).value;
            && |e| > 76 && e[0] == 1 && e[1] == 1 && e[2..4] == Le(2, |e| - 4) && CommandBody(m, e[4..])
  {
    hide Flat, Pieces, CommandBody, InRange, Encode, Le;
    WireBytes(m);
    CommandBodyIs(m);
    var body := Flat(Pieces(m));
    var head: seq<byte> := [1, 1] + Le(2, |body|);
    assert Encode(m).value == head + body && (head + body)[4..] == body;
    LongBody(m, body);
  }

  lemma LongBody(m: Message, body: seq<byte>)
    requires m.Command? && CommandBody(m, body)
    ensures |body| > 72
  {
  }

  lemma FlatOfTwo(a: seq<byte>, b: seq<byte>)
    ensures Flat([a, b]) == a + b
  {
    assert [a, b][1..] == [b];
    FlatOfOne(b);
  }

  lemma FlatOfOne(a: seq<byte>)
    ensures Flat([a]) == a
  {
    assert Flat([a][1..]) == [];
    assert a + [] == a;
  }

  lemma TextStarts(text: Utf8.Text)
    ensures Text(text) != [] ==> Utf8.Encode(text).Some? && Text(text)[0] == |Utf8.Encode(text).value|
  {
  }

  /** Ten pieces of the widths of a command's fixed fields. */
  lemma TenFixed(p: seq<seq<byte>>)
    requires |p| == 10 && |p[0]| == 8 && |p[1]| == 4 && |p[2]| == 4
    requires forall k :: 3 <= k < 10 ==> |p[k]| == 8
    ensures var f := Flat(p);
            && |f| == 72 && f[..8] == p[0] && f[8..12] == p[1] && f[12..16] == p[2] && f[16..24] == p[3] && f[24..32] == p[4]
            && f[32..40] == p[5] && f[40..48] == p[6] && f[48..56] == p[7] && f[56..64] == p[8] && f[64..72] == p[9]
  {
    hide Flat;
    Widths(p, 10);
    forall k: nat | k < 10
      ensures |Flat(p[..k])| + |p[k]| <= |Flat(p)| && Flat(p)[|Flat(p[..k])|..|Flat(p[..k])| + |p[k]|] == p[k]
    {
      PieceAt(p, k);
    }
    assert p[..10] == p;
    assert |Flat(p[..0])| == 0 by { Widths(p, 0); }
    Widths(p, 1);
    Widths(p, 2);
    Widths(p, 3);
    Widths(p, 4);
    Widths(p, 5);
    Widths(p, 6);
    Widths(p, 7);
    Widths(p, 8);
    Widths(p, 9);
  }

  /** The length of the first k pieces. */
  lemma {:induction false} Widths(p: seq<seq<byte>>, k: nat)
    requires k <= |p| == 10 && |p[0]| == 8 && |p[1]| == 4 && |p[2]| == 4
    requires forall j :: 3 <= j < 10 ==> |p[j]| == 8
    ensures |Flat(p[..k])| == if k == 0 then 0 else if k == 1 then 8 else if k == 2 then 12 else 16 + 8 * (k - 3)
  {
    if k > 0 {
      Widths(p, k - 1);
      assert p[..k] == p[..k - 1] + [p[k - 1]];
      FlatAppends(p[..k - 1], [p[k - 1]]);
      assert Flat([p[k - 1]]) == p[k - 1] by { FlatOfOne(p[k - 1]); }
    }
  }

  lemma CommandNatural(m: Message)
    requires m.Command? && InRange(m)
    ensures m.sequence >= 0 && m.sec >= 0 && m.nsec >= 0 && m.lx >= 0 && m.ly >= 0 && m.lz >= 0 && m.ax >= 0 && m.ay >= 0
    ensures m.az >= 0 && m.gripper >= 0 && Text(m.frameId) != []
  {
    hide Range, Le, Utf8.Encode;
    var vs := Fields(m);
    assert Put(vs[0]).Some? && Put(vs[1]).Some? && Put(vs[2]).Some? && Put(vs[3]).Some? && Put(vs[4]).Some? && Put(vs[5]).Some?;
    assert Put(vs[6]).Some? && Put(vs[7]).Some? && Put(vs[8]).Some? && Put(vs[9]).Some? && Put(vs[10]).Some?;
  }
}
