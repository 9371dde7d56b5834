/** The MlinkSession object: paths, queues and window updated in place, call by call. */
module MlinkSession {
  import opened Wrappers
  import opened Bytes
  import opened MlinkHeader
  import opened MlinkDedupe
  import opened MlinkPath
  import opened MlinkSteps

  datatype Winner = Winner(name: string, pathId: int, seqNo: int)

  function Payloads(ds: seq<Delivery>): (r: seq<seq<byte>>)
    ensures |r| == |ds|
  {
    seq(|ds|, k requires 0 <= k < |ds| => ds[k].payload)
  }

  function Winners(ds: seq<Delivery>): (r: seq<Winner>)
    ensures |r| == |ds|
  {
    seq(|ds|, k requires 0 <= k < |ds| => Winner(ds[k].winner, ds[k].pathId, ds[k].seqNo))
  }

  function Classes(ds: seq<Delivery>): (r: seq<int>)
    ensures |r| == |ds|
  {
    seq(|ds|, k requires 0 <= k < |ds| => ds[k].trafficClass)
  }

  class Session {
    const config: Config
    const paths: seq<Path>
    const dedupe: DedupeWindow
    var seqNo: nat
    var qControl: seq<Datagram>
    var qMedia: seq<Datagram>
    var lastPollWinners: seq<Winner>
    var lastPollClasses: seq<int>
    var deliveredByPath: map<string, int>

    /** A path's id is its place in the list, and fits the wire; each heartbeat deque is within its length. */
    ghost predicate Valid()
      reads this, paths
    {
      && |paths| <= 256
      && (forall i :: 0 <= i < |paths| ==> paths[i].pathId == i && |paths[i].hbOutcomes| <= paths[i].lossWindow)
    }

    ghost function PathValues(): (r: seq<PathValue>)
      reads this, paths
      ensures |r| == |paths| && forall i :: 0 <= i < |r| ==> r[i] == paths[i].Value()
    {
      seq(|paths|, i requires 0 <= i < |paths| reads this, paths => paths[i].Value())
    }

    ghost function Value(): (r: SessionValue)
      reads this, paths, dedupe
      ensures Valid() ==> PathIdsFit(r.paths)
    {
      SessionValue(PathValues(), dedupe.Value(), seqNo, qControl, qMedia, deliveredByPath)
    }

    constructor (config: Config, paths: seq<Path>, dedupeWindow: int)
      requires dedupeWindow >= 1
      requires |paths| <= 256
      requires forall i :: 0 <= i < |paths| ==> paths[i].pathId == i && |paths[i].hbOutcomes| <= paths[i].lossWindow
      ensures Valid() && this.config == config && this.paths == paths && fresh(dedupe)
      ensures Value() == SessionValue(PathValues(), Fresh(dedupeWindow), 0, [], [], deliveredByPath)
      ensures deliveredByPath == map i | 0 <= i < |paths| :: paths[i].name := 0
    {
      this.config := config;
      this.paths := paths;
      dedupe := new DedupeWindow(dedupeWindow);
      seqNo := 0;
      qControl, qMedia := [], [];
      lastPollWinners, lastPollClasses := [], [];
      deliveredByPath := map i | 0 <= i < |paths| :: paths[i].name := 0;
    }

    // ---------- Sending ----------

    method Emit(item: Datagram, nowUs: int) returns (number: int, raised: bool)
      requires Valid()
      modifies this`seqNo, paths
      ensures Valid()
      ensures Value() == MlinkSteps.Emit(config, old(Value()), item, nowUs)
      ensures number == seqNo && raised == EmitRaises(config, old(Value()), item)
    {
      hide CopyOnto, Encodable, AnyEligible;
      seqNo := seqNo + 1;
      number := seqNo;
      raised := CopyToEligible(item, nowUs);
    }

    /** `encode` and `sendto` on every eligible path; the first `encode` raises if it cannot be done. */
    method CopyToEligible(item: Datagram, nowUs: int) returns (raised: bool)
      requires Valid()
      modifies paths
      ensures Valid()
      ensures raised <==> !Encodable(item) && AnyEligible(old(PathValues()), config.lossThreshold)
      ensures PathValues() == if Encodable(item) then CopiesOnto(config, old(PathValues()), item, seqNo, nowUs)
                              else old(PathValues())
    {
      hide CopyOnto, Encodable, PathValue.Eligible;
      ghost var was := PathValues();
      for i := 0 to |paths|
        invariant Valid()
        invariant forall k :: 0 <= k < |paths| ==>
                    paths[k].Value() == if k < i && Encodable(item)
                                        then CopyOnto(config, was[k], item, seqNo, nowUs) else was[k]
        invariant Encodable(item) || forall k :: 0 <= k < i ==> !was[k].Eligible(config.lossThreshold)
      {
        if paths[i].Value().Eligible(config.lossThreshold) {
          if !Encodable(item) {
            assert was[i].Eligible(config.lossThreshold);
            assert PathValues() == was;
            return true;
          }
          SendCopy(paths[i], item, nowUs);
        } else if Encodable(item) {
          NotCopied(config, was[i], item, seqNo, nowUs);
        }
      }
      return false;
    }

    method SendCopy(path: Path, item: Datagram, nowUs: int)
      requires 0 <= path.pathId <= 255 && Encodable(item) && path.Value().Eligible(config.lossThreshold)
      modifies path
      ensures path.Value() == CopyOnto(config, old(path.Value()), item, seqNo, nowUs)
      ensures |path.hbOutcomes| == old(|path.hbOutcomes|)
    {
      path.SendTo(Encode(DataPacket(config, path.pathId, item, seqNo, nowUs)).value);
    }

    /** The paths as values, for the scheduler. */
    method ReadPaths() returns (values: seq<PathValue>)
      ensures values == PathValues()
    {
      values := [];
      for i := 0 to |paths|
        invariant |values| == i && forall k :: 0 <= k < i ==> values[k] == paths[k].Value()
      {
        values := values + [paths[i].Value()];
      }
    }

    /** Control first: media is only taken when no control datagram waits. */
    method PopNext() returns (item: Datagram)
      requires qControl != [] || qMedia != []
      modifies this`qControl, this`qMedia
      ensures item == Head(old(Value())) && Value() == Popped(old(Value()))
    {
      if qControl != [] {
        item := qControl[0];
        qControl := qControl[1..];
      } else {
        item := qMedia[0];
        qMedia := qMedia[1..];
      }
    }

    method Flush(clock: seq<int>) returns (numbers: seq<int>, raised: bool)
      requires Valid()
      modifies this`seqNo, this`qControl, this`qMedia, paths
      ensures Valid()
      ensures MlinkSteps.Flush(config, old(Value()), clock) == Flushed(Value(), numbers, raised)
    {
      hide MlinkSteps.Emit, EmitRaises, Head, Popped, PathValues, MlinkSteps.Flush, Reading, Later;
      numbers := [];
      raised := false;
      ghost var all := MlinkSteps.Flush(config, Value(), clock);
      var left := clock;
      while qControl != [] || qMedia != []
        invariant Valid()
        invariant all == MlinkSteps.Flush(config, Value(), left).After(numbers)
        decreases |qControl| + |qMedia|
      {
        FlushTurn(config, Value(), left);
        var number, failed := EmitNext(Reading(left, 0));
        if failed {
          return numbers, true;
        }
        numbers := numbers + [number];
        left := Later(left);
      }
      FlushDone(config, Value(), left);
    }

    method EmitNext(nowUs: int) returns (number: int, failed: bool)
      requires Valid() && (qControl != [] || qMedia != [])
      modifies this`seqNo, this`qControl, this`qMedia, paths
      ensures Valid()
      ensures Value() == MlinkSteps.Emit(config, Popped(old(Value())), Head(old(Value())), nowUs)
      ensures number == seqNo && failed == EmitRaises(config, Popped(old(Value())), Head(old(Value())))
    {
      hide MlinkSteps.Emit, EmitRaises, Head, Popped;
      var item := PopNext();
      number, failed := Emit(item, nowUs);
    }

    method Enqueue(item: Datagram) returns (raised: bool)
      modifies this`qControl, this`qMedia
      ensures Value() == MlinkSteps.Enqueue(config, old(Value()), item)
      ensures raised <==> |item.payload| > config.maxPayload
    {
      if |item.payload| > config.maxPayload {
        return true;
      }
      if item.trafficClass == TC_MEDIA {
        if |qMedia| >= config.maxMediaQueue {
          return false;
        }
        qMedia := qMedia + [item];
      } else {
        qControl := qControl + [item];
      }
      return false;
    }

    method Send(item: Datagram, clock: seq<int>) returns (reply: Result<Option<int>, SendError>)
      requires Valid()
      modifies this`seqNo, this`qControl, this`qMedia, paths
      ensures Valid()
      ensures Value() == MlinkSteps.Send(config, old(Value()), item, clock)
      ensures reply == SendReply(config, old(Value()), item, clock)
    {
      if |item.payload| > config.maxPayload || |item.payload| > MAX_PAYLOAD {
        return Err(TooLarge);
      }
      if item.trafficClass !in {TC_CONTROL, TC_MEDIA} {
        return Err(BadClass);
      }
      if item.trafficClass == TC_MEDIA {
        if |qMedia| >= config.maxMediaQueue {
          return Ok(None);
        }
        qMedia := qMedia + [item];
      } else {
        qControl := qControl + [item];
      }
      assert Value() == Queued(config, old(Value()), item);
      var numbers, raised := Flush(clock);
      if raised {
        return Err(FlushRaised);
      }
      return Ok(if numbers == [] then None else Some(numbers[|numbers| - 1]));
    }

    // ---------- Heartbeats ----------

    method SendHeartbeat(path: Path, probe: bool, nowUs: int)
      requires 0 <= path.pathId <= 255
      modifies path
      ensures path.Value() == Beat(config, old(path.Value()), probe, nowUs)
    {
      path.hbSeq := path.hbSeq + 1;
      path.SendTo(Encode(BeatPacket(config, path.pathId, probe, path.hbSeq, nowUs)).value);
    }

    /** One path's share of a tick; `stampUs` is what the clock says if a heartbeat leaves. */
    method TickOne(path: Path, nowUs: int, stampUs: int)
      requires 0 <= path.pathId <= 255
      modifies path
      ensures path.Value() == TickPath(config, old(path.Value()), nowUs, stampUs)
      ensures path.hbOutcomes == old(path.hbOutcomes)
    {
      if nowUs - path.lastHeardUs >= config.downTimeoutUs {
        path.up := false;
      }
      if path.up {
        if nowUs - path.lastHbTxUs >= config.heartbeatIntervalUs {
          SendHeartbeat(path, false, stampUs);
          path.lastHbTxUs := nowUs;
        }
      } else {
        if nowUs - path.lastProbeTxUs >= config.probeIntervalUs {
          SendHeartbeat(path, true, stampUs);
          path.lastProbeTxUs := nowUs;
        }
      }
    }

    method Tick(nowUs: int, clock: seq<int>)
      requires Valid()
      modifies paths
      ensures Valid()
      ensures Value() == MlinkSteps.Tick(config, old(Value()), nowUs, clock)
    {
      hide TickPath;
      ghost var was := PathValues();
      for i := 0 to |paths|
        invariant Valid()
        invariant forall k :: 0 <= k < |paths| ==>
                    paths[k].Value() == if k < i then TickPath(config, was[k], nowUs, Reading(clock, k)) else was[k]
      {
        TickOne(paths[i], nowUs, Reading(clock, i));
      }
    }

    // ---------- Polling ----------

    /** Read one socket until it has nothing more. */
    method DrainPath(path: Path, index: nat) returns (arrivals: seq<Arrival>)
      modifies path
      ensures arrivals == Waiting(index, old(path.inbox))
      ensures path.Value() == old(path.Value()).(inbox := [])
      ensures path.hbOutcomes == old(path.hbOutcomes)
    {
      arrivals := [];
      ghost var was := path.Value();
      while true
        invariant |arrivals| <= |was.inbox| && path.inbox == was.inbox[|arrivals|..]
        invariant path.Value() == was.(inbox := path.inbox)
        invariant forall k :: 0 <= k < |arrivals| ==> arrivals[k] == Arrival(index, was.inbox[k])
        decreases |path.inbox|
      {
        var frame := path.RecvFrom();
        if frame == None {
          break;
        }
        arrivals := arrivals + [Arrival(index, frame.value)];
      }
    }

    method ReadAll() returns (incoming: seq<Arrival>)
      requires Valid()
      modifies paths
      ensures Valid()
      ensures incoming == Incoming(old(PathValues()))
      ensures PathValues() == Drained(old(PathValues()))
    {
      hide Incoming, Waiting;
      incoming := [];
      ghost var was := PathValues();
      assert Incoming(was[..0]) == [] by {
        NothingIncoming();
      }
      for i := 0 to |paths|
        invariant Valid()
        invariant incoming == Incoming(was[..i])
        invariant forall k :: 0 <= k < |paths| ==>
                    paths[k].Value() == if k < i then was[k].(inbox := []) else was[k]
      {
        IncomingTurn(was, i);
        var arrivals := DrainPath(paths[i], i);
        incoming := incoming + arrivals;
      }
      assert was[..|paths|] == was;
      assert PathValues() == Drained(was);
    }

    method DecodeAll(incoming: seq<Arrival>) returns (heard: seq<Copy>)
      ensures heard == Accepted(config, incoming)
    {
      heard := [];
      for k := 0 to |incoming|
        invariant heard == Accepted(config, incoming[..k])
      {
        assert incoming[..k + 1][..k] == incoming[..k];
        var pkt := Decode(incoming[k].frame);
        if pkt.Err? {
          continue;
        }
        if pkt.value.sessionId != config.sessionId {
          continue;
        }
        heard := heard + [Copy(incoming[k].path, pkt.value)];
      }
      assert incoming[..|incoming|] == incoming;
    }

    /** One decoded frame: the path was heard; control-plane frames end here. */
    method AbsorbOne(path: Path, pkt: Packet, nowUs: int)
      requires 0 <= path.pathId <= 255 && |path.hbOutcomes| <= path.lossWindow
      modifies path
      ensures path.Value() == Absorb(config, old(path.Value()), pkt, nowUs)
      ensures |path.hbOutcomes| <= path.lossWindow
    {
      path.MarkHeard(nowUs);
      if pkt.IsControlPlane() {
        if pkt.IsEcho() {
          path.ObserveRtt(nowUs - pkt.timestampUs);
        } else {
          path.ObserveHeartbeat(pkt.seqNo);
          path.SendTo(Encode(EchoPacket(config, path.pathId, pkt)).value);
        }
      }
    }

    method AbsorbAt(index: nat, pkt: Packet, nowUs: int)
      requires Valid() && index < |paths|
      modifies paths[index]
      ensures Valid()
      ensures PathValues() == old(PathValues())[index := Absorb(config, old(PathValues()[index]), pkt, nowUs)]
    {
      hide Absorb;
      AbsorbOne(paths[index], pkt, nowUs);
    }

    method AbsorbEach(heard: seq<Copy>, nowUs: int) returns (data: seq<Copy>)
      requires Valid() && forall k :: 0 <= k < |heard| ==> heard[k].path < |paths|
      modifies paths
      ensures Valid()
      ensures data == DataCopies(heard)
      ensures PathValues() == AbsorbAll(config, old(PathValues()), heard, nowUs)
    {
      hide Absorb, AbsorbAll, DataCopies, PathValues;
      data := [];
      ghost var was := PathValues();
      assert AbsorbAll(config, was, [], nowUs) == was && DataCopies([]) == [] by {
        AbsorbNothing(config, was, nowUs);
      }
      for k := 0 to |heard|
        invariant Valid()
        invariant data == DataCopies(heard[..k])
        invariant PathValues() == AbsorbAll(config, was, heard[..k], nowUs)
      {
        assert heard[..k + 1][..k] == heard[..k];
        AbsorbAllTurn(config, was, heard[..k + 1], nowUs);
        AbsorbAt(heard[k].path, heard[k].pkt, nowUs);
        if !heard[k].pkt.IsControlPlane() {
          data := data + [heard[k]];
        }
      }
      assert heard[..|heard|] == heard;
    }

    /** The dictionary of copies by number, and its insertion order. */
    method GroupBySeq(data: seq<Copy>) returns (order: seq<int>, bySeq: map<int, seq<Copy>>)
      ensures order == FirstSeen(data)
      ensures forall k :: 0 <= k < |order| ==> order[k] in bySeq && bySeq[order[k]] == CopiesOf(data, order[k])
    {
      hide FirstSeen, CopiesOf;
      order, bySeq := [], map[];
      NoGroups();
      for k := 0 to |data|
        invariant order == FirstSeen(data[..k])
        invariant forall n :: n in bySeq <==> n in order
        invariant forall n :: n in bySeq ==> bySeq[n] == CopiesOf(data[..k], n)
        invariant forall n :: n !in bySeq ==> CopiesOf(data[..k], n) == []
      {
        assert data[..k + 1][..k] == data[..k];
        GroupsTurn(data[..k + 1]);
        var n := data[k].pkt.seqNo;
        if n !in bySeq {
          order := order + [n];
          bySeq := bySeq[n := []];
        }
        bySeq := bySeq[n := bySeq[n] + [data[k]]];
      }
      assert data[..|data|] == data;
      assert forall k :: 0 <= k < |order| ==> order[k] in order;
    }

    method AccountFor(copies: seq<Copy>)
      requires Valid() && forall k :: 0 <= k < |copies| ==> copies[k].path < |paths|
      modifies paths
      ensures Valid()
      ensures PathValues() == Account(old(PathValues()), copies)
    {
      ghost var was := PathValues();
      ghost var after := Account(was, copies);
      var got := set k | 0 <= k < |copies| :: paths[copies[k].path].pathId;
      for i := 0 to |paths|
        invariant Valid()
        invariant forall k :: 0 <= k < |paths| ==> paths[k].Value() == if k < i then after[k] else was[k]
      {
        var path := paths[i];
        if path.up {
          path.ObserveDataOutcome(path.pathId in got);
        }
      }
    }

    /** Account for one number's copies and deliver the first if it is new. */
    method TakeCopies(copies: seq<Copy>) returns (delivery: Option<Delivery>)
      requires Valid() && copies != [] && forall k :: 0 <= k < |copies| ==> copies[k].path < |paths|
      modifies paths, dedupe, this`deliveredByPath
      ensures Valid()
      ensures Value() == TakeGroup(old(Value()), copies)
      ensures delivery == if old(Value()).window.Judge(copies[0].pkt.seqNo) == Deliver
                          then Some(DeliveryOf(old(Value()), copies)) else None
    {
      hide Account, DeliveryOf;
      AccountFor(copies);
      delivery := DeliverFirst(copies);
      assert delivery.Some? ==> delivery.value == DeliveryOf(old(Value()), copies) by {
        SameDelivery(old(Value()), copies);
      }
    }

    method DeliverFirst(copies: seq<Copy>) returns (delivery: Option<Delivery>)
      requires Valid() && copies != [] && copies[0].path < |paths|
      modifies dedupe, this`deliveredByPath
      ensures Valid()
      ensures Value() == DeliverGroup(old(Value()), copies)
      ensures delivery == if old(Value()).window.Judge(copies[0].pkt.seqNo) == Deliver
                          then Some(DeliveryOf(old(Value()), copies)) else None
    {
      ghost var was := PathValues();
      var first := copies[0].pkt;
      var verdict := dedupe.Observe(first.seqNo);
      assert PathValues() == was;
      if verdict != Deliver {
        return None;
      }
      var winner := paths[copies[0].path];
      deliveredByPath := deliveredByPath[winner.name := Count(deliveredByPath, winner.name) + 1];
      assert PathValues() == was;
      return Some(Delivery(first.seqNo, first.payload, first.trafficClass, winner.name, winner.pathId));
    }

    /** What the caller and the two `last_poll` fields are told about a poll's deliveries. */
    ghost predicate Reports(ds: seq<Delivery>, delivered: seq<seq<byte>>)
      reads this`lastPollWinners, this`lastPollClasses
    {
      delivered == Payloads(ds) && lastPollWinners == Winners(ds) && lastPollClasses == Classes(ds)
    }

    method Note(d: Delivery, ghost ds: seq<Delivery>, ghost delivered: seq<seq<byte>>)
      requires Reports(ds, delivered)
      modifies this`lastPollWinners, this`lastPollClasses
      ensures Reports(ds + [d], delivered + [d.payload])
    {
      lastPollWinners := lastPollWinners + [Winner(d.winner, d.pathId, d.seqNo)];
      lastPollClasses := lastPollClasses + [d.trafficClass];
    }

    /** Nothing won yet in this poll. */
    method Forget() returns (ghost ds: seq<Delivery>, delivered: seq<seq<byte>>)
      modifies this`lastPollWinners, this`lastPollClasses
      ensures ds == [] && delivered == [] && Reports(ds, delivered)
      ensures Value() == old(Value())
    {
      ds, delivered := [], [];
      lastPollWinners, lastPollClasses := [], [];
      assert PathValues() == old(PathValues());
    }

    method TakeEach(data: seq<Copy>, order: seq<int>, bySeq: map<int, seq<Copy>>) returns (ghost ds: seq<Delivery>, delivered: seq<seq<byte>>)
      requires Valid() && (forall k :: 0 <= k < |data| ==> data[k].path < |paths|)
      requires forall n :: n in order ==> CopiesOf(data, n) != []
      requires forall k :: 0 <= k < |order| ==> order[k] in bySeq && bySeq[order[k]] == CopiesOf(data, order[k])
      modifies paths, dedupe, this`deliveredByPath, this`lastPollWinners, this`lastPollClasses
      ensures Valid()
      ensures Polled(Value(), ds) == TakeGroups(old(Value()), data, order)
      ensures Reports(ds, delivered)
    {
      hide TakeGroup, DeliveryOf, CopiesOf, TakeGroups, PathValues, Payloads, Winners, Classes;
      ghost var was := Value();
      ds, delivered := Forget();
      TakeGroupsNone(was, data);
      for k := 0 to |order|
        invariant Valid()
        invariant Polled(Value(), ds) == TakeGroups(was, data, order[..k])
        invariant Reports(ds, delivered)
      {
        assert order[..k + 1][..k] == order[..k];
        TakeGroupsTurn(was, data, order[..k + 1]);
        var delivery := TakeCopies(bySeq[order[k]]);
        if delivery.Some? {
          Note(delivery.value, ds, delivered);
          ds := ds + [delivery.value];
          delivered := delivered + [delivery.value.payload];
        }
      }
      assert order[..|order|] == order;
    }

    /** Read every socket, process the frames, and return the newly delivered payloads. */
    method Poll(nowUs: int) returns (delivered: seq<seq<byte>>)
      requires Valid()
      modifies paths, dedupe, this`deliveredByPath, this`lastPollWinners, this`lastPollClasses
      ensures Valid()
      ensures Value() == MlinkSteps.Poll(config, old(Value()), nowUs).session
      ensures Reports(MlinkSteps.Poll(config, old(Value()), nowUs).delivered, delivered)
    {
      hide AbsorbAll, TakeGroups, DataCopies, FirstSeen, CopiesOf, Incoming, Accepted, PathValues;
      IncomingFits(PathValues());
      var incoming := ReadAll();
      var heard := DecodeAll(incoming);
      var data := AbsorbEach(heard, nowUs);
      var order, bySeq := GroupBySeq(data);
      ghost var ds;
      ds, delivered := TakeEach(data, order, bySeq);
    }
  }
}
