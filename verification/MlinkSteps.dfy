/**
  One mlink endpoint: queue and copy datagrams onto every eligible path, send heartbeats and
  probes, and deliver the first good copy of what the peer sent. The functions give the
  endpoint's steps as values; the object in `MlinkSession` does what they say.
  The clock's readings in a call are a parameter. Frames wait in `inbox` and leave through `sent`.
 */
module MlinkSteps {
  import opened Wrappers
  import opened Bytes
  import opened MlinkHeader
  import opened MlinkDedupe
  import opened MlinkPath

  datatype Config = Config(
    sessionId: nat, heartbeatIntervalUs: int, downTimeoutUs: int, probeIntervalUs: int, lossThreshold: real,
    maxPayload: nat, maxMediaQueue: nat)

  datatype Datagram = Datagram(payload: seq<byte>, trafficClass: int)

  /** A payload handed to the application, the number it came under, and the path that won. */
  datatype Delivery = Delivery(seqNo: int, payload: seq<byte>, trafficClass: int, winner: string, pathId: int)

  datatype SessionValue = SessionValue(
    paths: seq<PathValue>, window: Window, seqNo: nat, qControl: seq<Datagram>, qMedia: seq<Datagram>,
    deliveredByPath: map<string, int>)

  datatype SendError = TooLarge | BadClass | FlushRaised

  /** A frame read from path number `path`, raw or decoded. */
  datatype Arrival = Arrival(path: nat, frame: Frame)
  datatype Copy = Copy(path: nat, pkt: Packet)

  /** A call's readings of the clock, in order. */
  function Reading(clock: seq<int>, k: nat): int {
    if k < |clock| then clock[k] else 0
  }

  function Later(clock: seq<int>): seq<int> {
    if clock == [] then [] else clock[1..]
  }

  // ---------- Sending ----------

  /** scheduler.py returns some path. */
  predicate AnyEligible(paths: seq<PathValue>, threshold: real) {
    exists i :: 0 <= i < |paths| && paths[i].Eligible(threshold)
  }

  function DataPacket(c: Config, pathId: int, item: Datagram, seqNo: int, nowUs: int): Packet {
    Packet(0, item.trafficClass, pathId, c.sessionId, seqNo, nowUs, item.payload, VERSION, 0)
  }

  function BeatPacket(c: Config, pathId: int, probe: bool, hbSeq: int, nowUs: int): Packet {
    Packet(FLAG_HEARTBEAT + (if probe then FLAG_PROBE else 0), TC_CONTROL, pathId, c.sessionId, hbSeq, nowUs,
           [], VERSION, 0)
  }

  function EchoPacket(c: Config, pathId: int, original: Packet): Packet {
    Packet(FLAG_HEARTBEAT + FLAG_ECHO + (if original.IsProbe() then FLAG_PROBE else 0), TC_CONTROL, pathId,
           c.sessionId, original.seqNo, original.timestampUs, [], VERSION, 0)
  }

  predicate Encodable(item: Datagram) {
    |item.payload| <= MAX_PAYLOAD && item.trafficClass in {TC_CONTROL, TC_MEDIA}
  }

  predicate PathIdsFit(paths: seq<PathValue>) {
    forall i :: 0 <= i < |paths| ==> 0 <= paths[i].pathId <= 255
  }

  /** The encoder is only reached when some path is eligible. */
  predicate EmitRaises(c: Config, s: SessionValue, item: Datagram) {
    !Encodable(item) && AnyEligible(s.paths, c.lossThreshold)
  }

  function CopyOnto(c: Config, p: PathValue, item: Datagram, seqNo: int, nowUs: int): PathValue
    requires Encodable(item) && 0 <= p.pathId <= 255
  {
    if p.Eligible(c.lossThreshold) then p.Send(Encode(DataPacket(c, p.pathId, item, seqNo, nowUs)).value) else p
  }

  /** One datagram takes the next number and a copy goes onto every eligible path. */
  function Emit(c: Config, s: SessionValue, item: Datagram, nowUs: int): SessionValue
    requires PathIdsFit(s.paths)
  {
    s.(seqNo := s.seqNo + 1,
       paths := if Encodable(item) then CopiesOnto(c, s.paths, item, s.seqNo + 1, nowUs) else s.paths)
  }

  function CopiesOnto(c: Config, paths: seq<PathValue>, item: Datagram, seqNo: int, nowUs: int): (r: seq<PathValue>)
    requires PathIdsFit(paths) && Encodable(item)
    ensures |r| == |paths| && forall i :: 0 <= i < |r| ==> r[i] == CopyOnto(c, paths[i], item, seqNo, nowUs)
  {
    seq(|paths|, i requires 0 <= i < |paths| => CopyOnto(c, paths[i], item, seqNo, nowUs))
  }

  datatype Flushed = Flushed(session: SessionValue, seqs: seq<int>, raised: bool) {
    /** The same drain, with these numbers given out before it. */
    function After(earlier: seq<int>): Flushed {
      this.(seqs := earlier + seqs)
    }
  }

  /** Drain both queues, control first, each datagram with its own reading. An unencodable one stops the drain and is lost. */
  function Flush(c: Config, s: SessionValue, clock: seq<int>): (r: Flushed)
    requires PathIdsFit(s.paths)
    ensures PathIdsFit(r.session.paths)
    decreases |s.qControl| + |s.qMedia|
  {
    if s.qControl == [] && s.qMedia == [] then Flushed(s, [], false)
    else
      var item := Head(s);
      var popped := Popped(s);
      var next := Emit(c, popped, item, Reading(clock, 0));
      if EmitRaises(c, popped, item) then Flushed(next, [], true)
      else
        Flush(c, next, Later(clock)).After([next.seqNo])
  }

  lemma FlushDone(c: Config, s: SessionValue, clock: seq<int>)
    requires PathIdsFit(s.paths) && s.qControl == [] && s.qMedia == []
    ensures Flush(c, s, clock) == Flushed(s, [], false)
  {
  }

  /** One turn of the drain. */
  lemma FlushTurn(c: Config, s: SessionValue, clock: seq<int>)
    requires PathIdsFit(s.paths) && (s.qControl != [] || s.qMedia != [])
    ensures var next := Emit(c, Popped(s), Head(s), Reading(clock, 0));
            && PathIdsFit(next.paths)
            && |next.qControl| + |next.qMedia| < |s.qControl| + |s.qMedia|
            && Flush(c, s, clock) ==
               if EmitRaises(c, Popped(s), Head(s)) then Flushed(next, [], true)
               else Flush(c, next, Later(clock)).After([next.seqNo])
  {
  }

  lemma NotCopied(c: Config, p: PathValue, item: Datagram, seqNo: int, nowUs: int)
    requires Encodable(item) && 0 <= p.pathId <= 255 && !p.Eligible(c.lossThreshold)
    ensures CopyOnto(c, p, item, seqNo, nowUs) == p
  {
  }

  function Head(s: SessionValue): Datagram
    requires s.qControl != [] || s.qMedia != []
  {
    if s.qControl != [] then s.qControl[0] else s.qMedia[0]
  }

  function Popped(s: SessionValue): SessionValue
    requires s.qControl != [] || s.qMedia != []
  {
    if s.qControl != [] then s.(qControl := s.qControl[1..]) else s.(qMedia := s.qMedia[1..])
  }

  /** The queues after `enqueue` accepts the datagram. Media beyond the limit is dropped. */
  function Queued(c: Config, s: SessionValue, item: Datagram): SessionValue {
    if item.trafficClass != TC_MEDIA then s.(qControl := s.qControl + [item])
    else if |s.qMedia| >= c.maxMediaQueue then s
    else s.(qMedia := s.qMedia + [item])
  }

  function Enqueue(c: Config, s: SessionValue, item: Datagram): SessionValue {
    if |item.payload| > c.maxPayload then s else Queued(c, s, item)
  }

  /** Why `send` refuses before touching a queue. */
  function SendRefusal(c: Config, item: Datagram): Option<SendError> {
    if |item.payload| > c.maxPayload || |item.payload| > MAX_PAYLOAD then Some(TooLarge)
    else if item.trafficClass !in {TC_CONTROL, TC_MEDIA} then Some(BadClass)
    else None
  }

  predicate MediaDropped(c: Config, s: SessionValue, item: Datagram) {
    item.trafficClass == TC_MEDIA && |s.qMedia| >= c.maxMediaQueue
  }

  function Send(c: Config, s: SessionValue, item: Datagram, clock: seq<int>): SessionValue
    requires PathIdsFit(s.paths)
  {
    if SendRefusal(c, item) != None || MediaDropped(c, s, item) then s
    else Flush(c, Queued(c, s, item), clock).session
  }

  function SendReply(c: Config, s: SessionValue, item: Datagram, clock: seq<int>): Result<Option<int>, SendError>
    requires PathIdsFit(s.paths)
  {
    if SendRefusal(c, item) != None then Err(SendRefusal(c, item).value)
    else if MediaDropped(c, s, item) then Ok(None)
    else
      var flushed := Flush(c, Queued(c, s, item), clock);
      if flushed.raised then Err(FlushRaised)
      else if flushed.seqs == [] then Ok(None) else Ok(Some(flushed.seqs[|flushed.seqs| - 1]))
  }

  // ---------- Heartbeats ----------

  function Beat(c: Config, p: PathValue, probe: bool, nowUs: int): PathValue
    requires 0 <= p.pathId <= 255
  {
    p.(hbSeq := p.hbSeq + 1).Send(Encode(BeatPacket(c, p.pathId, probe, p.hbSeq + 1, nowUs)).value)
  }

  predicate StaysUp(c: Config, p: PathValue, nowUs: int) {
    p.up && nowUs - p.lastHeardUs < c.downTimeoutUs
  }

  predicate BeatDue(c: Config, p: PathValue, nowUs: int) {
    if StaysUp(c, p, nowUs) then nowUs - p.lastHbTxUs >= c.heartbeatIntervalUs
    else nowUs - p.lastProbeTxUs >= c.probeIntervalUs
  }

  /** The timeout and the pace go by the tick's own reading, the heartbeat carries a later one. */
  function TickPath(c: Config, p: PathValue, nowUs: int, stampUs: int): PathValue
    requires 0 <= p.pathId <= 255
  {
    var up := StaysUp(c, p, nowUs);
    var q := p.(up := up);
    if !BeatDue(c, p, nowUs) then q
    else if up then Beat(c, q, false, stampUs).(lastHbTxUs := nowUs)
    else Beat(c, q, true, stampUs).(lastProbeTxUs := nowUs)
  }

  function Tick(c: Config, s: SessionValue, nowUs: int, clock: seq<int>): SessionValue
    requires PathIdsFit(s.paths)
  {
    s.(paths := seq(|s.paths|, i requires 0 <= i < |s.paths| => TickPath(c, s.paths[i], nowUs, Reading(clock, i))))
  }

  // ---------- Polling ----------

  /** Everything waiting, path by path. */
  function Incoming(paths: seq<PathValue>): seq<Arrival> {
    if paths == [] then []
    else Incoming(paths[..|paths| - 1]) + Waiting(|paths| - 1, paths[|paths| - 1].inbox)
  }

  function Waiting(path: nat, inbox: seq<Frame>): (r: seq<Arrival>)
    ensures |r| == |inbox| && forall k :: 0 <= k < |r| ==> r[k] == Arrival(path, inbox[k])
  {
    seq(|inbox|, k requires 0 <= k < |inbox| => Arrival(path, inbox[k]))
  }

  function Drained(paths: seq<PathValue>): (r: seq<PathValue>)
    ensures |r| == |paths| && forall i :: 0 <= i < |r| ==> r[i] == paths[i].(inbox := [])
  {
    seq(|paths|, i requires 0 <= i < |paths| => paths[i].(inbox := []))
  }

  lemma NothingIncoming()
    ensures Incoming([]) == []
  {
  }

  /** The sockets are read in path order. */
  lemma IncomingTurn(paths: seq<PathValue>, i: nat)
    requires i < |paths|
    ensures Incoming(paths[..i + 1]) == Incoming(paths[..i]) + Waiting(i, paths[i].inbox)
  {
    assert paths[..i + 1][..i] == paths[..i];
  }

  predicate IsOurs(c: Config, frame: Frame) {
    Decode(frame).Ok? && Decode(frame).value.sessionId == c.sessionId
  }

  predicate IsCopyOf(c: Config, arrival: Arrival, copy: Copy) {
    IsOurs(c, arrival.frame) && copy == Copy(arrival.path, Decode(arrival.frame).value)
  }

  /** The frames that decode and carry our session id. */
  function Accepted(c: Config, incoming: seq<Arrival>): (r: seq<Copy>)
    ensures forall k :: 0 <= k < |r| ==> exists j :: 0 <= j < |incoming| && IsCopyOf(c, incoming[j], r[k])
  {
    if incoming == [] then []
    else
      var last := incoming[|incoming| - 1];
      var before := Accepted(c, incoming[..|incoming| - 1]);
      if IsOurs(c, last.frame) then
        assert IsCopyOf(c, last, Copy(last.path, Decode(last.frame).value));
        before + [Copy(last.path, Decode(last.frame).value)]
      else before
  }

  function Absorb(c: Config, p: PathValue, pkt: Packet, nowUs: int): PathValue
    requires 0 <= p.pathId <= 255
  {
    var q := p.MarkHeard(nowUs);
    if !pkt.IsControlPlane() then q
    else if pkt.IsEcho() then q.ObserveRtt(nowUs - pkt.timestampUs)
    else q.ObserveHeartbeat(pkt.seqNo).Send(Encode(EchoPacket(c, p.pathId, pkt)).value)
  }

  function AbsorbAll(c: Config, paths: seq<PathValue>, heard: seq<Copy>, nowUs: int): (r: seq<PathValue>)
    requires PathIdsFit(paths) && forall k :: 0 <= k < |heard| ==> heard[k].path < |paths|
    ensures |r| == |paths| && forall i :: 0 <= i < |r| ==> r[i].pathId == paths[i].pathId && r[i].name == paths[i].name
  {
    if heard == [] then paths
    else
      var last := heard[|heard| - 1];
      var before := AbsorbAll(c, paths, heard[..|heard| - 1], nowUs);
      before[last.path := Absorb(c, before[last.path], last.pkt, nowUs)]
  }

  lemma AbsorbNothing(c: Config, paths: seq<PathValue>, nowUs: int)
    requires PathIdsFit(paths)
    ensures AbsorbAll(c, paths, [], nowUs) == paths && DataCopies([]) == []
  {
  }

  lemma AbsorbAllTurn(c: Config, paths: seq<PathValue>, heard: seq<Copy>, nowUs: int)
    requires PathIdsFit(paths) && heard != [] && forall k :: 0 <= k < |heard| ==> heard[k].path < |paths|
    ensures var last := heard[|heard| - 1];
            var before := AbsorbAll(c, paths, heard[..|heard| - 1], nowUs);
            && AbsorbAll(c, paths, heard, nowUs)
               == before[last.path := Absorb(c, before[last.path], last.pkt, nowUs)]
            && DataCopies(heard) == DataCopies(heard[..|heard| - 1]) + if last.pkt.IsControlPlane() then [] else [last]
  {
  }

  function DataCopies(heard: seq<Copy>): (r: seq<Copy>)
    ensures forall k :: 0 <= k < |r| ==> r[k] in heard && !r[k].pkt.IsControlPlane()
  {
    if heard == [] then []
    else
      var last := heard[|heard| - 1];
      DataCopies(heard[..|heard| - 1]) + (if last.pkt.IsControlPlane() then [] else [last])
  }

  /** The data numbers in this poll, each once, in first-seen order. */
  function FirstSeen(data: seq<Copy>): (r: seq<int>)
    ensures forall n :: n in r <==> exists k :: 0 <= k < |data| && data[k].pkt.seqNo == n
    ensures forall j, k :: 0 <= j < k < |r| ==> r[j] != r[k]
  {
    if data == [] then []
    else
      var last := data[|data| - 1];
      var before := FirstSeen(data[..|data| - 1]);
      if last.pkt.seqNo in before then before else before + [last.pkt.seqNo]
  }

  function CopiesOf(data: seq<Copy>, seqNo: int): (r: seq<Copy>)
    ensures forall k :: 0 <= k < |r| ==> r[k] in data && r[k].pkt.seqNo == seqNo
    ensures (exists k :: 0 <= k < |data| && data[k].pkt.seqNo == seqNo) ==> r != []
  {
    if data == [] then []
    else
      var last := data[|data| - 1];
      CopiesOf(data[..|data| - 1], seqNo) + (if last.pkt.seqNo == seqNo then [last] else [])
  }

  lemma NoGroups()
    ensures FirstSeen([]) == [] && forall n :: CopiesOf([], n) == []
  {
  }

  /** One more copy among a poll's groups. */
  lemma GroupsTurn(data: seq<Copy>)
    requires data != []
    ensures var last, before := data[|data| - 1], data[..|data| - 1];
            && FirstSeen(data) == FirstSeen(before)
                                  + (if last.pkt.seqNo in FirstSeen(before) then [] else [last.pkt.seqNo])
            && forall n :: CopiesOf(data, n) == CopiesOf(before, n) + if last.pkt.seqNo == n then [last] else []
  {
  }

  /** Every up path learns whether it brought a copy. */
  function Account(paths: seq<PathValue>, copies: seq<Copy>): (r: seq<PathValue>)
    requires forall k :: 0 <= k < |copies| ==> copies[k].path < |paths|
    ensures |r| == |paths|
  {
    var got := set k | 0 <= k < |copies| :: paths[copies[k].path].pathId;
    seq(|paths|, i requires 0 <= i < |paths| =>
      if paths[i].up then paths[i].ObserveDataOutcome(paths[i].pathId in got) else paths[i])
  }

  function DeliveryOf(s: SessionValue, copies: seq<Copy>): Delivery
    requires copies != [] && copies[0].path < |s.paths|
  {
    var first := copies[0];
    Delivery(first.pkt.seqNo, first.pkt.payload, first.pkt.trafficClass, s.paths[first.path].name,
             s.paths[first.path].pathId)
  }

  function Count(m: map<string, int>, name: string): int {
    if name in m then m[name] else 0
  }

  /** All copies of one number: account for them, then deliver the first if the window allows. */
  function TakeGroup(s: SessionValue, copies: seq<Copy>): SessionValue
    requires copies != [] && forall k :: 0 <= k < |copies| ==> copies[k].path < |s.paths|
  {
    DeliverGroup(s.(paths := Account(s.paths, copies)), copies)
  }

  function DeliverGroup(s: SessionValue, copies: seq<Copy>): SessionValue
    requires copies != [] && copies[0].path < |s.paths|
  {
    var d := DeliveryOf(s, copies);
    s.(window := s.window.Observe(d.seqNo),
       deliveredByPath := if s.window.Judge(d.seqNo) != Deliver then s.deliveredByPath
                          else s.deliveredByPath[d.winner := Count(s.deliveredByPath, d.winner) + 1])
  }

  /** Accounting does not touch the names and ids a delivery reports. */
  lemma SameDelivery(s: SessionValue, copies: seq<Copy>)
    requires copies != [] && forall k :: 0 <= k < |copies| ==> copies[k].path < |s.paths|
    ensures DeliveryOf(s.(paths := Account(s.paths, copies)), copies) == DeliveryOf(s, copies)
  {
  }

  datatype Polled = Polled(session: SessionValue, delivered: seq<Delivery>)

  predicate CopiesFit(s: SessionValue, data: seq<Copy>) {
    forall k :: 0 <= k < |data| ==> data[k].path < |s.paths|
  }

  function TakeGroups(s: SessionValue, data: seq<Copy>, numbers: seq<int>): (r: Polled)
    requires CopiesFit(s, data) && forall n :: n in numbers ==> CopiesOf(data, n) != []
    ensures |r.session.paths| == |s.paths|
  {
    if numbers == [] then Polled(s, [])
    else
      var before := TakeGroups(s, data, numbers[..|numbers| - 1]);
      var copies := CopiesOf(data, numbers[|numbers| - 1]);
      Polled(TakeGroup(before.session, copies),
             before.delivered
             + if before.session.window.Judge(copies[0].pkt.seqNo) == Deliver then [DeliveryOf(before.session, copies)]
               else [])
  }

  lemma TakeGroupsNone(s: SessionValue, data: seq<Copy>)
    requires CopiesFit(s, data)
    ensures TakeGroups(s, data, []) == Polled(s, [])
  {
  }

  /** One more number of a poll. */
  lemma TakeGroupsTurn(s: SessionValue, data: seq<Copy>, numbers: seq<int>)
    requires CopiesFit(s, data) && numbers != [] && forall n :: n in numbers ==> CopiesOf(data, n) != []
    ensures var last := numbers[|numbers| - 1];
            var before := TakeGroups(s, data, numbers[..|numbers| - 1]);
            var copies := CopiesOf(data, last);
            && copies[0].pkt.seqNo == last
            && TakeGroups(s, data, numbers)
               == Polled(TakeGroup(before.session, copies),
                         before.delivered + if before.session.window.Judge(last) == Deliver
                                            then [DeliveryOf(before.session, copies)] else [])
  {
  }

  lemma {:induction false} IncomingFits(paths: seq<PathValue>)
    ensures forall k :: 0 <= k < |Incoming(paths)| ==>
              Incoming(paths)[k].path < |paths| && Incoming(paths)[k].frame in paths[Incoming(paths)[k].path].inbox
  {
    if paths != [] {
      IncomingFits(paths[..|paths| - 1]);
    }
  }

  function HeardBy(c: Config, s: SessionValue): (r: seq<Copy>)
    ensures CopiesFit(s, r)
  {
    IncomingFits(s.paths);
    Accepted(c, Incoming(s.paths))
  }

  /** What a poll makes of every waiting frame. */
  function Poll(c: Config, s: SessionValue, nowUs: int): (r: Polled)
    requires PathIdsFit(s.paths)
    ensures |r.session.paths| == |s.paths|
  {
    var heard := HeardBy(c, s);
    var data := DataCopies(heard);
    TakeGroups(s.(paths := AbsorbAll(c, Drained(s.paths), heard, nowUs)), data, FirstSeen(data))
  }
}
