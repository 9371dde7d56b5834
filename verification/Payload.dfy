/**
  The nine control messages: a four-byte header, little-endian fields, strings with a length
  byte. None stands for a raised error. A double is its 64-bit pattern.
 */
module Payload {
  import opened Wrappers
  import opened Bytes
  import Utf8
  import MlinkHeader

  type Text = Utf8.Text

  const VERSION := 1
  const MAX_PAYLOAD := 1440
  const HEADER_SIZE := 4

  // ---------- Fields ----------

  datatype Value = Uint(width: nat, n: int) | Int16(i: int) | Double(bits: int) | Str(text: Text)

  datatype Shape = UintShape(width: nat) | Int16Shape | DoubleShape | StrShape

  function ShapeOf(v: Value): Shape {
    match v
    case Uint(width, _) => UintShape(width)
    case Int16(_) => Int16Shape
    case Double(_) => DoubleShape
    case Str(_) => StrShape
  }

  /** `struct.pack` raises out of range; a string must be UTF-8 of at most 255 bytes. */
  function Put(v: Value): Option<seq<byte>> {
    match v
    case Uint(width, n) => if 0 <= n < Range(width) then Some(Le(width, n)) else None
    case Int16(i) => if -32768 <= i < 32768 then Some(Le(2, i % 0x1_0000)) else None
    case Double(bits) => if 0 <= bits < Range(8) then Some(Le(8, bits)) else None
    case Str(text) =>
      var raw := Utf8.Encode(text);
      if raw == None || |raw.value| > 255 then None else Some([|raw.value|] + raw.value)
  }

  function GetFixed(width: nat, bs: seq<byte>): (r: Option<(nat, seq<byte>)>)
    ensures r.Some? <==> |bs| >= width
  {
    if |bs| < width then None else Some((FromLe(bs[..width]), bs[width..]))
  }

  function Get(shape: Shape, bs: seq<byte>): Option<(Value, seq<byte>)> {
    match shape
    case UintShape(width) =>
      var f := GetFixed(width, bs);
      if f == None then None else Some((Uint(width, f.value.0), f.value.1))
    case Int16Shape =>
      var f := GetFixed(2, bs);
      if f == None then None
      else Some((Int16(if f.value.0 < 0x8000 then f.value.0 else f.value.0 - 0x1_0000), f.value.1))
    case DoubleShape =>
      var f := GetFixed(8, bs);
      if f == None then None else Some((Double(f.value.0), f.value.1))
    case StrShape =>
      if bs == [] || |bs| < 1 + bs[0] as int then None
      else
        var n: nat := bs[0];
        var text := Utf8.Decode(bs[1..1 + n]);
        if text == None then None else Some((Str(text.value), bs[1 + n..]))
  }

  lemma FixedRoundTrip(width: nat, n: nat, more: seq<byte>)
    requires n < Range(width)
    ensures GetFixed(width, Le(width, n) + more) == Some((n, more))
  {
    LeRoundTrip(width, n);
    assert (Le(width, n) + more)[..width] == Le(width, n) && (Le(width, n) + more)[width..] == more;
  }

  lemma FixedBack(width: nat, bs: seq<byte>)
    requires GetFixed(width, bs).Some?
    ensures var (n, rest) := GetFixed(width, bs).value; n < Range(width) && bs == Le(width, n) + rest
  {
    FromLeRoundTrip(bs[..width]);
    assert bs == bs[..width] + bs[width..];
  }

  lemma PutGet(v: Value, more: seq<byte>)
    requires Put(v).Some?
    ensures Get(ShapeOf(v), Put(v).value + more) == Some((v, more))
  {
    hide Le, FromLe, Range, GetFixed;
    match v
    case Uint(width, n) => FixedRoundTrip(width, n, more);
    case Int16(i) =>
      assert Range(2) == 0x1_0000 by { Ranges(); }
      FixedRoundTrip(2, i % 0x1_0000, more);
    case Double(bits) => FixedRoundTrip(8, bits, more);
    case Str(text) =>
      var raw := Utf8.Encode(text).value;
      Utf8.DecodeEncode(text);
      var bs := Put(v).value + more;
      assert bs[1..1 + |raw|] == raw && bs[1 + |raw|..] == more;
  }

  lemma GetPut(shape: Shape, bs: seq<byte>)
    requires Get(shape, bs).Some?
    ensures var (v, rest) := Get(shape, bs).value;
            ShapeOf(v) == shape && Put(v).Some? && bs == Put(v).value + rest
  {
    hide Le, FromLe, Range, GetFixed;
    match shape
    case UintShape(width) => FixedBack(width, bs);
    case Int16Shape => Int16Back(bs);
    case DoubleShape => FixedBack(8, bs);
    case StrShape => StrBack(bs);
  }

  lemma StrBack(bs: seq<byte>)
    requires Get(StrShape, bs).Some?
    ensures var (v, rest) := Get(StrShape, bs).value;
            v.Str? && Put(v).Some? && bs == Put(v).value + rest
  {
    hide Utf8.Encode, Utf8.Decode;
    var n: nat := bs[0];
    var raw := bs[1..1 + n];
    Utf8.EncodeDecode(raw);
    assert bs == [bs[0]] + raw + bs[1 + n..];
  }

  lemma Int16Back(bs: seq<byte>)
    requires GetFixed(2, bs).Some?
    ensures var (n, rest) := GetFixed(2, bs).value;
            var i := if n < 0x8000 then n else n - 0x1_0000;
            -32768 <= i < 32768 && bs == Le(2, i % 0x1_0000) + rest
  {
    hide Le, FromLe, Range, GetFixed;
    assert Range(2) == 0x1_0000 by { Ranges(); }
    FixedBack(2, bs);
    var (n, _) := GetFixed(2, bs).value;
    assert (if n < 0x8000 then n else n - 0x1_0000) % 0x1_0000 == n;
  }

  // ---------- Bodies ----------

  function PutAll(vs: seq<Value>): Option<seq<byte>> {
    if vs == [] then Some([])
    else
      var first, rest := Put(vs[0]), PutAll(vs[1..]);
      if first == None || rest == None then None else Some(first.value + rest.value)
  }

  function GetAll(shapes: seq<Shape>, bs: seq<byte>): (r: Option<(seq<Value>, seq<byte>)>)
    ensures r.Some? ==> |r.value.0| == |shapes|
  {
    if shapes == [] then Some(([], bs))
    else
      var first := Get(shapes[0], bs);
      if first == None then None
      else
        var rest := GetAll(shapes[1..], first.value.1);
        if rest == None then None else Some(([first.value.0] + rest.value.0, rest.value.1))
  }

  predicate HasShapes(vs: seq<Value>, shapes: seq<Shape>) {
    |vs| == |shapes| && forall i :: 0 <= i < |vs| ==> ShapeOf(vs[i]) == shapes[i]
  }

  lemma {:induction false} PutGetAll(vs: seq<Value>, shapes: seq<Shape>, more: seq<byte>)
    requires HasShapes(vs, shapes) && PutAll(vs).Some?
    ensures GetAll(shapes, PutAll(vs).value + more) == Some((vs, more))
  {
    hide Put, Get;
    if vs == [] {
      assert [] + more == more;
    } else {
      var rest := PutAll(vs[1..]).value;
      assert PutAll(vs).value + more == Put(vs[0]).value + (rest + more);
      PutGet(vs[0], rest + more);
      PutGetAll(vs[1..], shapes[1..], more);
      assert [vs[0]] + vs[1..] == vs;
    }
  }

  lemma {:induction false} GetPutAll(shapes: seq<Shape>, bs: seq<byte>)
    requires GetAll(shapes, bs).Some?
    ensures var (vs, rest) := GetAll(shapes, bs).value;
            HasShapes(vs, shapes) && PutAll(vs).Some? && bs == PutAll(vs).value + rest
  {
    hide Put, Get;
    if shapes == [] {
      assert bs == [] + bs;
    } else {
      var (v, after) := Get(shapes[0], bs).value;
      var (vs, rest) := GetAll(shapes[1..], after).value;
      GetPut(shapes[0], bs);
      GetPutAll(shapes[1..], after);
      assert ([v] + vs)[1..] == vs;
      assert bs == Put(v).value + (PutAll(vs).value + rest) == Put(v).value + PutAll(vs).value + rest;
    }
  }

  /** The most bytes a field of this shape can take. */
  function Most(shape: Shape): nat {
    match shape
    case UintShape(width) => width
    case Int16Shape => 2
    case DoubleShape => 8
    case StrShape => 256
  }

  function MostAll(shapes: seq<Shape>): nat {
    if shapes == [] then 0 else Most(shapes[0]) + MostAll(shapes[1..])
  }

  lemma {:induction false} BodyFits(vs: seq<Value>, shapes: seq<Shape>)
    requires HasShapes(vs, shapes) && PutAll(vs).Some?
    ensures |PutAll(vs).value| <= MostAll(shapes)
  {
    if vs != [] {
      BodyFits(vs[1..], shapes[1..]);
      assert ShapeOf(vs[0]) == shapes[0];
    }
  }

  lemma {:induction false} PutAllAppends(a: seq<Value>, b: seq<Value>)
    ensures PutAll(a + b) == if PutAll(a).Some? && PutAll(b).Some? then Some(PutAll(a).value + PutAll(b).value) else None
  {
    hide Put;
    if a == [] {
      assert [] + b == b;
      assert PutAll(b).Some? ==> [] + PutAll(b).value == PutAll(b).value;
    } else {
      assert (a + b)[1..] == a[1..] + b;
      PutAllAppends(a[1..], b);
      if Put(a[0]).Some? && PutAll(a[1..]).Some? && PutAll(b).Some? {
        var x, y, z := Put(a[0]).value, PutAll(a[1..]).value, PutAll(b).value;
        assert x + (y + z) == (x + y) + z;
      }
    }
  }

  // ---------- Messages ----------

  datatype Message =
    | Command(sequence: int, sec: int, nsec: int, lx: int, ly: int, lz: int, ax: int, ay: int, az: int, gripper: int,
              frameId: Text, sessionId: Text)
    | Heartbeat(sequence: int, sec: int, nsec: int, sessionId: Text)
    | Ack(sequence: int, sourceSec: int, sourceNsec: int, recvSec: int, recvNsec: int, sessionId: Text, disposition: Text)
    | State(sec: int, nsec: int, sessionId: Text, frameId: Text, connectionState: Text, watchdogState: Text,
            lastDisposition: Text, lx: int, ly: int, lz: int, ax: int, ay: int, az: int, gripper: int)
    | ToolPose(sec: int, nsec: int, x: int, y: int, z: int, qx: int, qy: int, qz: int, qw: int)
    | NamedPoseReq(reqId: int, name: Text)
    | NamedPoseRep(reqId: int, success: bool, message: Text)
    | JointTicks(pan: int, lift: int, elbow: int, flex: int, roll: int, jaw: int)
    | JointCommand(panD: int, liftD: int, elbowD: int, flexD: int, rollD: int, jawD: int)

  function TypeOf(m: Message): (t: nat)
    ensures 1 <= t <= 9
  {
    match m
    case Command(_, _, _, _, _, _, _, _, _, _, _, _) => 1
    case Heartbeat(_, _, _, _) => 2
    case Ack(_, _, _, _, _, _, _) => 3
    case State(_, _, _, _, _, _, _, _, _, _, _, _, _, _) => 4
    case ToolPose(_, _, _, _, _, _, _, _, _) => 5
    case NamedPoseReq(_, _) => 6
    case NamedPoseRep(_, _, _) => 7
    case JointTicks(_, _, _, _, _, _) => 8
    case JointCommand(_, _, _, _, _, _) => 9
  }

  /** The body of each type, field by field. */
  function Layout(t: nat): seq<Shape>
    requires 1 <= t <= 9
  {
    var q, u, b, d, s := UintShape(8), UintShape(4), UintShape(1), DoubleShape, StrShape;
    match t
    case 1 => [q, u, u, d, d, d, d, d, d, d, s, s]
    case 2 => [q, u, u, s]
    case 3 => [q, u, u, u, u, s, s]
    case 4 => [u, u, s, s, s, s, s, d, d, d, d, d, d, d]
    case 5 => [u, u, d, d, d, d, d, d, d]
    case 6 => [u, s]
    case 7 => [u, b, s]
    case 8 => [Int16Shape, Int16Shape, Int16Shape, Int16Shape, Int16Shape, Int16Shape]
    case _ => [d, d, d, d, d, d]
  }

  function Fields(m: Message): seq<Value> {
    match m
    case Command(sequence, sec, nsec, lx, ly, lz, ax, ay, az, gripper, frameId, sessionId) =>
      [Uint(8, sequence), Uint(4, sec), Uint(4, nsec), Double(lx), Double(ly), Double(lz), Double(ax), Double(ay), Double(az),
       Double(gripper), Str(frameId), Str(sessionId)]
    case Heartbeat(sequence, sec, nsec, sessionId) => [Uint(8, sequence), Uint(4, sec), Uint(4, nsec), Str(sessionId)]
    case Ack(sequence, sourceSec, sourceNsec, recvSec, recvNsec, sessionId, disposition) =>
      [Uint(8, sequence), Uint(4, sourceSec), Uint(4, sourceNsec), Uint(4, recvSec), Uint(4, recvNsec), Str(sessionId), Str(disposition)]
    case State(sec, nsec, sessionId, frameId, connectionState, watchdogState, lastDisposition, lx, ly, lz, ax, ay, az, gripper) =>
      [Uint(4, sec), Uint(4, nsec), Str(sessionId), Str(frameId), Str(connectionState), Str(watchdogState), Str(lastDisposition),
       Double(lx), Double(ly), Double(lz), Double(ax), Double(ay), Double(az), Double(gripper)]
    case ToolPose(sec, nsec, x, y, z, qx, qy, qz, qw) =>
      [Uint(4, sec), Uint(4, nsec), Double(x), Double(y), Double(z), Double(qx), Double(qy), Double(qz), Double(qw)]
    case NamedPoseReq(reqId, name) => [Uint(4, reqId), Str(name)]
    case NamedPoseRep(reqId, success, message) => [Uint(4, reqId), Uint(1, if success then 1 else 0), Str(message)]
    case JointTicks(pan, lift, elbow, flex, roll, jaw) => [Int16(pan), Int16(lift), Int16(elbow), Int16(flex), Int16(roll), Int16(jaw)]
    case JointCommand(pan, lift, elbow, flex, roll, jaw) => [Double(pan), Double(lift), Double(elbow), Double(flex), Double(roll), Double(jaw)]
  }

  /** The number a fixed field holds, and the string a string field holds. */
  function N(v: Value): int {
    match v
    case Uint(_, n) => n
    case Int16(i) => i
    case Double(bits) => bits
    case Str(_) => 0
  }

  function S(v: Value): Text {
    if v.Str? then v.text else []
  }

  function Build(t: nat, v: seq<Value>): Message
    requires 1 <= t <= 9 && |v| == |Layout(t)|
  {
    match t
    case 1 => Command(N(v[0]), N(v[1]), N(v[2]), N(v[3]), N(v[4]), N(v[5]), N(v[6]), N(v[7]), N(v[8]), N(v[9]), S(v[10]), S(v[11]))
    case 2 => Heartbeat(N(v[0]), N(v[1]), N(v[2]), S(v[3]))
    case 3 => Ack(N(v[0]), N(v[1]), N(v[2]), N(v[3]), N(v[4]), S(v[5]), S(v[6]))
    case 4 => State(N(v[0]), N(v[1]), S(v[2]), S(v[3]), S(v[4]), S(v[5]), S(v[6]), N(v[7]), N(v[8]), N(v[9]), N(v[10]), N(v[11]),
                    N(v[12]), N(v[13]))
    case 5 => ToolPose(N(v[0]), N(v[1]), N(v[2]), N(v[3]), N(v[4]), N(v[5]), N(v[6]), N(v[7]), N(v[8]))
    case 6 => NamedPoseReq(N(v[0]), S(v[1]))
    case 7 => NamedPoseRep(N(v[0]), N(v[1]) != 0, S(v[2]))
    case 8 => JointTicks(N(v[0]), N(v[1]), N(v[2]), N(v[3]), N(v[4]), N(v[5]))
    case _ => JointCommand(N(v[0]), N(v[1]), N(v[2]), N(v[3]), N(v[4]), N(v[5]))
  }

  predicate FitsLayout(m: Message) {
    HasShapes(Fields(m), Layout(TypeOf(m))) && Build(TypeOf(m), Fields(m)) == m
  }

  lemma CommandFits(m: Message)
    requires m.Command?
    ensures FitsLayout(m)
  {
  }

  lemma StateFits(m: Message)
    requires m.State?
    ensures FitsLayout(m)
  {
  }

  lemma MiddleFit(m: Message)
    requires m.Ack? || m.ToolPose? || m.Heartbeat? || m.NamedPoseReq?
    ensures FitsLayout(m)
  {
  }

  lemma FieldsFit(m: Message)
    ensures FitsLayout(m)
  {
    if m.Command? {
      CommandFits(m);
    } else if m.State? {
      StateFits(m);
    } else if m.Ack? || m.ToolPose? || m.Heartbeat? || m.NamedPoseReq? {
      MiddleFit(m);
    }
  }

  predicate ReadsBack(t: nat, v: seq<Value>)
    requires 1 <= t <= 9 && |v| == |Layout(t)|
  {
    TypeOf(Build(t, v)) == t && Fields(Build(t, v)) == v
  }

  lemma CommandBack(v: seq<Value>)
    requires HasShapes(v, Layout(1))
    ensures ReadsBack(1, v)
  {
    forall i | 0 <= i < |v| ensures Fields(Build(1, v))[i] == v[i] {
      assert ShapeOf(v[i]) == Layout(1)[i];
    }
  }

  lemma StateBack(v: seq<Value>)
    requires HasShapes(v, Layout(4))
    ensures ReadsBack(4, v)
  {
    forall i | 0 <= i < |v| ensures Fields(Build(4, v))[i] == v[i] {
      assert ShapeOf(v[i]) == Layout(4)[i];
    }
  }

  /** Reading fields of the right shapes and listing them again loses only a success byte above 1. */
  lemma FieldsBack(t: nat, v: seq<Value>)
    requires 1 <= t <= 9 && HasShapes(v, Layout(t)) && (t == 7 ==> 0 <= N(v[1]) <= 1)
    ensures ReadsBack(t, v)
  {
    if t == 1 {
      CommandBack(v);
    } else if t == 4 {
      StateBack(v);
    } else {
      forall i | 0 <= i < |v| ensures Fields(Build(t, v))[i] == v[i] {
        assert ShapeOf(v[i]) == Layout(t)[i];
      }
    }
  }

  // ---------- Datagrams ----------

  function Frame(t: nat, body: seq<byte>): Option<seq<byte>>
    requires 1 <= t <= 9
  {
    if HEADER_SIZE + |body| > MAX_PAYLOAD then None else Some([VERSION, t] + Le(2, |body|) + body)
  }

  function Encode(m: Message): Option<seq<byte>> {
    var body := PutAll(Fields(m));
    if body == None then None else Frame(TypeOf(m), body.value)
  }

  function DecodeBody(t: nat, body: seq<byte>): Option<Message>
    requires 1 <= t <= 9
  {
    var got := GetAll(Layout(t), body);
    if got == None then None else Some(Build(t, got.value.0))
  }

  function Decode(data: seq<byte>): Option<Message> {
    if |data| < HEADER_SIZE || data[0] != VERSION then None
    else
      var needed := HEADER_SIZE + FromLe(data[2..4]);
      if |data| < needed || needed > MAX_PAYLOAD || !(1 <= data[1] <= 9) then None
      else DecodeBody(data[1], data[HEADER_SIZE..needed])
  }

  // ---------- Round trips ----------

  /** Every field in range, every string encodable in 255 bytes. */
  predicate InRange(m: Message) {
    forall i :: 0 <= i < |Fields(m)| ==> Put(Fields(m)[i]).Some?
  }

  lemma {:induction false} PutAllIff(vs: seq<Value>)
    ensures PutAll(vs).Some? <==> forall i :: 0 <= i < |vs| ==> Put(vs[i]).Some?
  {
    hide Put;
    if vs != [] {
      PutAllIff(vs[1..]);
      if forall i :: 0 <= i < |vs| ==> Put(vs[i]).Some? {
        forall i | 0 <= i < |vs[1..]| ensures Put(vs[1..][i]).Some? {
          assert vs[1..][i] == vs[i + 1];
        }
      } else if Put(vs[0]).Some? {
        var i :| 0 <= i < |vs| && Put(vs[i]).None?;
        assert vs[1..][i - 1] == vs[i];
      }
    }
  }

  lemma MostOne(a: Shape)
    ensures MostAll([a]) == Most(a)
  {
  }

  lemma Most3(a: Shape, b: Shape, c: Shape)
    ensures MostAll([a, b]) == Most(a) + Most(b) && MostAll([a, b, c]) == Most(a) + Most(b) + Most(c)
  {
    MostOne(c);
    MostOne(b);
    assert [a, b][1..] == [b] && [a, b, c][1..] == [b, c] && [b, c][1..] == [c];
    assert MostAll([b, c]) == Most(b) + MostAll([c]);
  }

  lemma Most6(a: Shape, b: Shape, c: Shape, d: Shape, e: Shape, f: Shape)
    ensures MostAll([a, b, c, d]) == Most(a) + Most(b) + Most(c) + Most(d)
    ensures MostAll([a, b, c, d, e, f]) == Most(a) + Most(b) + Most(c) + Most(d) + Most(e) + Most(f)
  {
    hide Most, MostAll;
    Most3(a, b, c);
    Most3(c, d, a);
    Most3(d, e, f);
    MostAppends([a, b], [c, d]);
    MostAppends([a, b, c], [d, e, f]);
    assert [a, b] + [c, d] == [a, b, c, d] && [a, b, c] + [d, e, f] == [a, b, c, d, e, f];
  }

  lemma Most7(a: Shape, b: Shape, c: Shape, d: Shape, e: Shape, f: Shape, g: Shape)
    ensures MostAll([a, b, c, d, e, f, g]) == Most(a) + Most(b) + Most(c) + Most(d) + Most(e) + Most(f) + Most(g)
  {
    hide Most, MostAll;
    Most3(a, b, c);
    Most6(d, e, f, g, a, b);
    MostAppends([a, b, c], [d, e, f, g]);
    assert [a, b, c] + [d, e, f, g] == [a, b, c, d, e, f, g];
  }

  /** The largest message is a state with five full strings. */
  lemma LayoutsFit(t: nat)
    requires 1 <= t <= 9
    ensures MostAll(Layout(t)) <= 1344
  {
    hide MostAll;
    var q, u, b, d, s := UintShape(8), UintShape(4), UintShape(1), DoubleShape, StrShape;
    var seven := [d, d, d, d, d, d, d];
    Most7(d, d, d, d, d, d, d);
    match t {
      case 1 =>
        Most3(q, u, u);
        Most3(s, s, s);
        MostAppends([q, u, u], seven);
        MostAppends([q, u, u] + seven, [s, s]);
        assert Layout(1) == [q, u, u] + seven + [s, s];
      case 2 => Most6(q, u, u, s, s, s);
      case 3 => Most7(q, u, u, u, u, s, s);
      case 4 =>
        Most7(u, u, s, s, s, s, s);
        MostAppends([u, u, s, s, s, s, s], seven);
        assert Layout(4) == [u, u, s, s, s, s, s] + seven;
      case 5 =>
        Most3(u, u, u);
        MostAppends([u, u], seven);
        assert Layout(5) == [u, u] + seven;
      case 6 => Most3(u, s, s);
      case 7 => Most3(u, b, s);
      case 8 => Most6(Int16Shape, Int16Shape, Int16Shape, Int16Shape, Int16Shape, Int16Shape);
      case _ => Most6(d, d, d, d, d, d);
    }
  }

  lemma {:induction false} MostAppends(a: seq<Shape>, b: seq<Shape>)
    ensures MostAll(a + b) == MostAll(a) + MostAll(b)
  {
    if a == [] {
      assert a + b == b;
    } else {
      assert (a + b)[1..] == a[1..] + b;
      MostAppends(a[1..], b);
    }
  }

  /** A message is encoded exactly when its fields are in range: the size cap never stops one. */
  lemma EncodesInRange(m: Message)
    ensures Encode(m).Some? <==> InRange(m)
    ensures Encode(m).Some? ==> |Encode(m).value| <= 1348
  {
    hide Fields, Layout, Put, MostAll;
    FieldsFit(m);
    PutAllIff(Fields(m));
    LayoutsFit(TypeOf(m));
    if PutAll(Fields(m)).Some? {
      BodyFits(Fields(m), Layout(TypeOf(m)));
    }
  }

  lemma FrameRoundTrip(t: nat, body: seq<byte>, more: seq<byte>)
    requires 1 <= t <= 9 && HEADER_SIZE + |body| <= MAX_PAYLOAD
    ensures Decode(Frame(t, body).value + more) == DecodeBody(t, body)
  {
    hide Le, FromLe, DecodeBody, Range;
    assert Range(2) == 0x1_0000 by { Ranges(); }
    LeRoundTrip(2, |body|);
    var data := Frame(t, body).value + more;
    assert data[2..4] == Le(2, |body|) && data[HEADER_SIZE..HEADER_SIZE + |body|] == body;
  }

  /** All nine messages decode to what was encoded, whatever bytes follow the datagram's own. */
  lemma DecodeEncode(m: Message, more: seq<byte>)
    requires InRange(m)
    ensures Encode(m).Some? && Decode(Encode(m).value + more) == Some(m)
  {
    hide Fields, Layout, Put, Build, Get;
    EncodesInRange(m);
    FieldsFit(m);
    var body := PutAll(Fields(m)).value;
    FrameRoundTrip(TypeOf(m), body, more);
    PutGetAll(Fields(m), Layout(TypeOf(m)), []);
    assert body + [] == body;
  }

  /** A reply's success byte is read as a flag: anything above 1 is written back as 1. */
  function FlagAsOne(t: nat, v: seq<Value>): seq<Value>
    requires 1 <= t <= 9 && |v| == |Layout(t)|
  {
    if t == 7 && N(v[1]) > 1 then v[1 := Uint(1, 1)] else v
  }

  lemma ReadFields(t: nat, v: seq<Value>)
    requires 1 <= t <= 9 && HasShapes(v, Layout(t)) && (t == 7 ==> N(v[1]) >= 0)
    ensures TypeOf(Build(t, v)) == t && Fields(Build(t, v)) == FlagAsOne(t, v) && HasShapes(FlagAsOne(t, v), Layout(t))
    ensures Build(t, v).NamedPoseRep? <==> t == 7
  {
    if t == 7 {
      var w := FlagAsOne(t, v);
      assert Layout(7) == [UintShape(4), UintShape(1), StrShape];
      assert forall i :: 0 <= i < 3 ==> ShapeOf(v[i]) == Layout(7)[i];
      assert Fields(Build(7, v)) == [Uint(4, N(v[0])), Uint(1, if N(v[1]) != 0 then 1 else 0), Str(S(v[2]))] == w;
    } else {
      FieldsBack(t, v);
    }
  }

  /** Three fields' bytes, the second of them one byte. */
  lemma PutThree(a: Value, b: Value, c: Value)
    requires Put(a).Some? && Put(b).Some? && Put(c).Some?
    ensures PutAll([a, b, c]) == Some(Put(a).value + Put(b).value + Put(c).value)
  {
    hide Put;
    var x, y, z := Put(a).value, Put(b).value, Put(c).value;
    assert [a, b, c][1..] == [b, c] && [b, c][1..] == [c] && [c][1..] == [];
    assert PutAll([c]) == Some(z) by { assert z + [] == z; }
    assert PutAll([b, c]) == Some(y + z);
    assert x + (y + z) == x + y + z;
  }

  lemma PutWidth(a: Value)
    requires Put(a).Some? && a.Uint? && 1 <= a.width
    ensures |Put(a).value| == a.width && a.n >= 0 && (a.width == 1 ==> Put(a).value == [a.n])
  {
    hide Range;
    if a.width == 1 {
      assert Le(1, a.n) == [a.n] by {
        OneByte(a.n);
      }
    }
  }

  lemma OneByte(n: nat)
    requires n < Range(1)
    ensures Le(1, n) == [n]
  {
    assert Range(1) == 256 && Le(1, n) == [n % 256] + Le(0, n / 256);
  }

  /** Rewriting the flag changes that one byte of the body. */
  lemma FlagByte(v: seq<Value>)
    requires HasShapes(v, Layout(7)) && PutAll(v).Some?
    ensures N(v[1]) >= 0
    ensures var body, w := PutAll(v).value, PutAll(FlagAsOne(7, v));
            && |body| > 4 && body[4] == N(v[1])
            && w == Some(if N(v[1]) > 1 then body[4 := 1] else body)
  {
    hide Put;
    PutAllIff(v);
    assert Layout(7) == [UintShape(4), UintShape(1), StrShape] && v == [v[0], v[1], v[2]];
    assert forall i :: 0 <= i < 3 ==> ShapeOf(v[i]) == Layout(7)[i];
    assert Put(v[0]).Some? && Put(v[1]).Some? && Put(v[2]).Some?;
    PutThree(v[0], v[1], v[2]);
    PutWidth(v[0]);
    PutWidth(v[1]);
    assert Put(Uint(1, 1)).Some? by { OneFits(); }
    PutThree(v[0], Uint(1, 1), v[2]);
    PutWidth(Uint(1, 1));
    var body := PutAll(v).value;
    assert body == Put(v[0]).value + [N(v[1])] + Put(v[2]).value;
    assert v[1 := Uint(1, 1)] == [v[0], Uint(1, 1), v[2]];
    assert body[4 := 1] == Put(v[0]).value + [1] + Put(v[2]).value;
  }

  lemma OneFits()
    ensures Put(Uint(1, 1)).Some?
  {
    Ranges();
  }

  /** Encoding what was read gives the fields' bytes, but for a flag above 1. */
  lemma Rewritten(t: nat, v: seq<Value>)
    requires 1 <= t <= 9 && HasShapes(v, Layout(t)) && PutAll(v).Some?
    ensures t == 7 ==> |PutAll(v).value| > 4 && PutAll(v).value[4] >= 0
    ensures PutAll(FlagAsOne(t, v))
         == Some(if t == 7 && PutAll(v).value[4] > 1 then PutAll(v).value[4 := 1] else PutAll(v).value)
    ensures t == 7 ==> N(v[1]) == PutAll(v).value[4]
  {
    hide Put, PutAll;
    if t == 7 {
      FlagByte(v);
    }
  }

  /**
    Whatever decodes is a message in range, and its encoding is the datagram but for the length
    field and bytes after the last field; a reply's success byte above 1 comes back as 1, and that
    is the only other difference.
   */
  lemma EncodeDecode(data: seq<byte>)
    requires Decode(data).Some?
    ensures var m := Decode(data).value;
            && InRange(m) && Encode(m).Some? && TypeOf(m) == data[1]
            && var e := Encode(m).value;
               && |e| <= |data| && e[..2] == data[..2] && (m.NamedPoseRep? ==> |e| > 8)
               && e[4..] == (if m.NamedPoseRep? && data[8] > 1 then data[4..|e|][4 := 1] else data[4..|e|])
               && (e[4..] == data[4..|e|] <==> !(m.NamedPoseRep? && data[8] > 1))
  {
    hide Fields, Layout, Put, PutAll, Build, Get, Le, FromLe, FlagAsOne;
    var t: nat, needed := data[1], HEADER_SIZE + FromLe(data[2..4]);
    var body := data[HEADER_SIZE..needed];
    var (v, rest) := GetAll(Layout(t), body).value;
    GetPutAll(Layout(t), body);
    Rewritten(t, v);
    ReadFields(t, v);
    var m, own := Build(t, v), PutAll(v).value;
    PutAllIff(Fields(m));
    EncodesInRange(m);
    var e := Encode(m).value;
    assert e[..2] == [VERSION, t] == data[..2];
    assert e[4..] == PutAll(FlagAsOne(t, v)).value;
    assert |e| == 4 + |own| && own == body[..|own|] == data[4..|e|];
    if t == 7 {
      assert own[4] == data[8];
    }
  }

  /** A control message nests in an mlink frame, which also round-trips. */
  lemma NestsInMlink(m: Message, p: MlinkHeader.Packet, trailing: seq<byte>)
    requires InRange(m) && p.version == MlinkHeader.VERSION && 0 <= p.pathId < 256
    requires p.trafficClass == MlinkHeader.TC_CONTROL || p.trafficClass == MlinkHeader.TC_MEDIA
    ensures Encode(m).Some?
    ensures var q := p.(payload := Encode(m).value);
            && MlinkHeader.Encode(q).Ok?
            && var back := MlinkHeader.Decode(MlinkHeader.Encode(q).value + trailing);
               back.Ok? && Decode(back.value.payload) == Some(m)
  {
    hide Fields, Layout, Put;
    EncodesInRange(m);
    var q := p.(payload := Encode(m).value);
    MlinkHeader.DecodeEncode(q, trailing);
    DecodeEncode(m, []);
    assert q.payload + [] == q.payload;
  }

  // ---------- The encoders with a growing body ----------

  /** A body under construction, and the fields appended so far. */
  class ByteBuffer {
    var data: seq<byte>
    ghost var fields: seq<Value>

    ghost predicate Valid()
      reads this
    {
      PutAll(fields) == Some(data)
    }

    constructor ()
      ensures Valid() && fields == []
    {
      data, fields := [], [];
    }

    /** Appends packed fields; raises, with nothing appended, if one is out of range. */
    method Pack(vs: seq<Value>) returns (raised: bool)
      requires Valid()
      modifies this
      ensures raised ==> PutAll(old(fields) + vs) == None
      ensures !raised ==> Valid() && fields == old(fields) + vs
    {
      hide Put;
      PutAllAppends(fields, vs);
      var packed: seq<byte> := [];
      for i := 0 to |vs|
        invariant Valid() && fields == old(fields) && PutAll(vs[..i]) == Some(packed)
      {
        PutAllAppends(vs[..i], [vs[i]]);
        PutAllAppends(vs[..i + 1], vs[i + 1..]);
        assert vs[..i] + [vs[i]] == vs[..i + 1] && vs[..i + 1] + vs[i + 1..] == vs;
        SingleField(vs[i]);
        var field := Put(vs[i]);
        if field == None {
          return true;
        }
        packed := packed + field.value;
      }
      assert vs[..|vs|] == vs;
      data := data + packed;
      fields := fields + vs;
      return false;
    }

    method PutStr(text: Text) returns (raised: bool)
      requires Valid()
      modifies this
      ensures raised ==> PutAll(old(fields) + [Str(text)]) == None
      ensures !raised ==> Valid() && fields == old(fields) + [Str(text)]
    {
      hide PutAll;
      PutAllAppends(fields, [Str(text)]);
      SingleField(Str(text));
      var raw := Utf8.Encode(text);
      if raw == None || |raw.value| > 255 {
        return true;
      }
      assert data + [|raw.value|] + raw.value == data + ([|raw.value|] + raw.value);
      data := data + [|raw.value|];
      data := data + raw.value;
      fields := fields + [Str(text)];
      return false;
    }
  }

  lemma SingleField(v: Value)
    ensures PutAll([v]) == Put(v)
  {
    hide Put;
    if Put(v).Some? {
      assert Put(v).value + [] == Put(v).value;
    }
  }

  /** One field that raises makes the whole encoder raise. */
  lemma PrefixRaises(some: seq<Value>, all: seq<Value>)
    requires some <= all && PutAll(some) == None
    ensures PutAll(all) == None
  {
    PutAllAppends(some, all[|some|..]);
    assert some + all[|some|..] == all;
  }

  /** `_put_str` for each text in turn; which strings a message has, the callers say. */
  method PutStrs(body: ByteBuffer, texts: seq<Text>) returns (raised: bool)
    requires body.Valid()
    modifies body
    ensures raised ==> PutAll(old(body.fields) + Strs(texts)) == None
    ensures !raised ==> body.Valid() && body.fields == old(body.fields) + Strs(texts)
  {
    hide PutAll;
    for i := 0 to |texts|
      invariant body.Valid() && body.fields == old(body.fields) + Strs(texts)[..i]
    {
      raised := body.PutStr(texts[i]);
      assert old(body.fields) + Strs(texts)[..i] + [Str(texts[i])] == old(body.fields) + Strs(texts)[..i + 1];
      if raised {
        PrefixRaises(old(body.fields) + Strs(texts)[..i + 1], old(body.fields) + Strs(texts));
        return true;
      }
    }
    assert Strs(texts)[..|texts|] == Strs(texts);
    return false;
  }

  function Strs(texts: seq<Text>): seq<Value> {
    seq(|texts|, i requires 0 <= i < |texts| => Str(texts[i]))
  }

  method EncodeCommand(m: Message) returns (r: Option<seq<byte>>)
    requires m.Command?
    ensures r == Encode(m)
  {
    hide PutAll, Frame;
    var body := new ByteBuffer();
    var fixed := [Uint(8, m.sequence), Uint(4, m.sec), Uint(4, m.nsec), Double(m.lx), Double(m.ly), Double(m.lz), Double(m.ax),
                  Double(m.ay), Double(m.az), Double(m.gripper)];
    assert Fields(m) == [] + fixed + Strs([m.frameId, m.sessionId]);
    var raised := body.Pack(fixed);
    if raised {
      PrefixRaises([] + fixed, Fields(m));
      return None;
    }
    raised := PutStrs(body, [m.frameId, m.sessionId]);
    if raised {
      return None;
    }
    return Frame(1, body.data);
  }

  method EncodeHeartbeat(m: Message) returns (r: Option<seq<byte>>)
    requires m.Heartbeat?
    ensures r == Encode(m)
  {
    hide PutAll, Frame;
    var body := new ByteBuffer();
    var fixed := [Uint(8, m.sequence), Uint(4, m.sec), Uint(4, m.nsec)];
    assert Fields(m) == [] + fixed + Strs([m.sessionId]);
    var raised := body.Pack(fixed);
    if raised {
      PrefixRaises([] + fixed, Fields(m));
      return None;
    }
    raised := PutStrs(body, [m.sessionId]);
    if raised {
      return None;
    }
    return Frame(2, body.data);
  }

  method EncodeAck(m: Message) returns (r: Option<seq<byte>>)
    requires m.Ack?
    ensures r == Encode(m)
  {
    hide PutAll, Frame;
    var body := new ByteBuffer();
    var fixed := [Uint(8, m.sequence), Uint(4, m.sourceSec), Uint(4, m.sourceNsec), Uint(4, m.recvSec), Uint(4, m.recvNsec)];
    assert Fields(m) == [] + fixed + Strs([m.sessionId, m.disposition]);
    var raised := body.Pack(fixed);
    if raised {
      PrefixRaises([] + fixed, Fields(m));
      return None;
    }
    raised := PutStrs(body, [m.sessionId, m.disposition]);
    if raised {
      return None;
    }
    return Frame(3, body.data);
  }

  method EncodeState(m: Message) returns (r: Option<seq<byte>>)
    requires m.State?
    ensures r == Encode(m)
  {
    hide PutAll, Frame;
    var body := new ByteBuffer();
    var fixed := [Uint(4, m.sec), Uint(4, m.nsec)];
    var texts := [m.sessionId, m.frameId, m.connectionState, m.watchdogState, m.lastDisposition];
    var twist := [Double(m.lx), Double(m.ly), Double(m.lz), Double(m.ax), Double(m.ay), Double(m.az), Double(m.gripper)];
    assert Fields(m) == [] + fixed + Strs(texts) + twist;
    var raised := body.Pack(fixed);
    if raised {
      PrefixRaises([] + fixed, Fields(m));
      return None;
    }
    raised := PutStrs(body, texts);
    if raised {
      PrefixRaises([] + fixed + Strs(texts), Fields(m));
      return None;
    }
    raised := body.Pack(twist);
    if raised {
      return None;
    }
    return Frame(4, body.data);
  }

  method EncodeNamedPose(m: Message) returns (r: Option<seq<byte>>)
    requires m.NamedPoseReq? || m.NamedPoseRep?
    ensures r == Encode(m)
  {
    hide PutAll, Frame;
    var body := new ByteBuffer();
    var fixed := if m.NamedPoseReq? then [Uint(4, m.reqId)] else [Uint(4, m.reqId), Uint(1, if m.success then 1 else 0)];
    var text := if m.NamedPoseReq? then m.name else m.message;
    assert Fields(m) == [] + fixed + Strs([text]);
    var raised := body.Pack(fixed);
    if raised {
      PrefixRaises([] + fixed, Fields(m));
      return None;
    }
    raised := PutStrs(body, [text]);
    if raised {
      return None;
    }
    return Frame(TypeOf(m), body.data);
  }

  /** What is taken for a message at all: version 1, a known type, and an announced body that is there and within the cap. */
  lemma DecodeNeeds(data: seq<byte>)
    requires Decode(data).Some?
    ensures |data| >= 4 && data[0] == 1 && 1 <= data[1] <= 9
    ensures var announced := (data[2] as int) + 256 * (data[3] as int); 4 + announced <= |data| && 4 + announced <= 1440
  {
    hide DecodeBody;
    assert data[2..4] == [data[2], data[3]];
    assert [data[2], data[3]][1..] == [data[3]];
    assert FromLe(data[2..4]) == data[2] + 256 * FromLe([data[3]]);
  }
}
