/**
  What a poll does with the frames that wait in each inbox, path by path: whom it has heard, the
  echo it sends for every heartbeat, the round-trip time it learns from every echo.
 */
module MlinkReads {
  import opened Wrappers
  import opened Bytes
  import opened MlinkHeader
  import opened MlinkDedupe
  import opened MlinkPath
  import opened MlinkSteps
  import opened MlinkNetwork
  import opened MlinkSafety
  import opened MlinkTiming

  // ---------- The packets of a path ----------

  /** The packets of this session among the frames, in order. */
  function PacketsOf(c: Config, frames: seq<Frame>): seq<Packet> {
    if frames == [] then []
    else
      PacketsOf(c, frames[..|frames| - 1])
      + if IsOurs(c, frames[|frames| - 1]) then [Decode(frames[|frames| - 1]).value] else []
  }

  /** Those heard on path i. */
  function PathPackets(heard: seq<Copy>, i: nat): seq<Packet> {
    if heard == [] then []
    else PathPackets(heard[..|heard| - 1], i) + if heard[|heard| - 1].path == i then [heard[|heard| - 1].pkt] else []
  }

  function ArrivalPackets(c: Config, incoming: seq<Arrival>, i: nat): seq<Packet> {
    if incoming == [] then []
    else
      ArrivalPackets(c, incoming[..|incoming| - 1], i) + PacketOn(c, incoming[|incoming| - 1], i)
  }

  function PacketOn(c: Config, a: Arrival, i: nat): seq<Packet> {
    if a.path == i && IsOurs(c, a.frame) then [Decode(a.frame).value] else []
  }

  lemma OneMorePacket(heard: seq<Copy>, copy: Copy, i: nat)
    ensures PathPackets(heard + [copy], i) == PathPackets(heard, i) + if copy.path == i then [copy.pkt] else []
  {
    assert (heard + [copy])[..|heard|] == heard;
  }

  lemma AcceptedTurn(c: Config, incoming: seq<Arrival>)
    requires incoming != []
    ensures var init, last := incoming[..|incoming| - 1], incoming[|incoming| - 1];
            Accepted(c, incoming)
            == if IsOurs(c, last.frame) then Accepted(c, init) + [Copy(last.path, Decode(last.frame).value)] else Accepted(c, init)
  {
    hide Decode;
  }

  lemma {:induction false} AcceptedPackets(c: Config, incoming: seq<Arrival>, i: nat)
    ensures PathPackets(Accepted(c, incoming), i) == ArrivalPackets(c, incoming, i)
  {
    if incoming != [] {
      hide Decode, Accepted, PathPackets;
      var init, last := incoming[..|incoming| - 1], incoming[|incoming| - 1];
      AcceptedPackets(c, init, i);
      AcceptedTurn(c, incoming);
      if IsOurs(c, last.frame) {
        OneMorePacket(Accepted(c, init), Copy(last.path, Decode(last.frame).value), i);
      } else {
        assert ArrivalPackets(c, incoming, i) == ArrivalPackets(c, init, i) + [];
      }
    } else {
      assert Accepted(c, []) == [];
    }
  }

  lemma {:induction false} ArrivalsAppend(c: Config, some: seq<Arrival>, more: seq<Arrival>, i: nat)
    ensures ArrivalPackets(c, some + more, i) == ArrivalPackets(c, some, i) + ArrivalPackets(c, more, i)
  {
    if more == [] {
      assert some + more == some;
    } else {
      hide PacketOn;
      ArrivalsAppend(c, some, more[..|more| - 1], i);
      assert (some + more)[..|some + more| - 1] == some + more[..|more| - 1];
      Regroup(ArrivalPackets(c, some, i), ArrivalPackets(c, more[..|more| - 1], i), PacketOn(c, more[|more| - 1], i));
    }
  }

  lemma Regroup(a: seq<Packet>, b: seq<Packet>, x: seq<Packet>)
    ensures (a + b) + x == a + (b + x)
  {
  }

  lemma {:induction false} WaitingPackets(c: Config, path: nat, inbox: seq<Frame>, i: nat)
    ensures ArrivalPackets(c, Waiting(path, inbox), i) == if path == i then PacketsOf(c, inbox) else []
  {
    if inbox != [] {
      hide Decode;
      var init := inbox[..|inbox| - 1];
      WaitingPackets(c, path, init, i);
      assert Waiting(path, inbox)[..|inbox| - 1] == Waiting(path, init);
    }
  }

  lemma {:induction false} IncomingPackets(c: Config, paths: seq<PathValue>, i: nat)
    ensures ArrivalPackets(c, Incoming(paths), i) == if i < |paths| then PacketsOf(c, paths[i].inbox) else []
  {
    if paths != [] {
      hide ArrivalPackets, PacketsOf, Waiting;
      var init, last := paths[..|paths| - 1], paths[|paths| - 1];
      IncomingPackets(c, init, i);
      ArrivalsAppend(c, Incoming(init), Waiting(|init|, last.inbox), i);
      WaitingPackets(c, |init|, last.inbox, i);
      assert Incoming(paths) == Incoming(init) + Waiting(|init|, last.inbox);
      assert i < |init| ==> paths[i] == init[i];
    } else {
      assert Incoming(paths) == [] && ArrivalPackets(c, [], i) == [];
    }
  }

  /** What a poll hears on a path is what waits in its inbox. */
  lemma HeardIsInbox(c: Config, s: SessionValue, i: nat)
    requires i < |s.paths|
    ensures PathPackets(HeardBy(c, s), i) == PacketsOf(c, s.paths[i].inbox)
  {
    hide Accepted, Incoming, PacketsOf, PathPackets, ArrivalPackets;
    AcceptedPackets(c, Incoming(s.paths), i);
    IncomingPackets(c, s.paths, i);
  }

  // ---------- One path absorbs its packets ----------

  function AbsorbPackets(c: Config, p: PathValue, packets: seq<Packet>, nowUs: int): (r: PathValue)
    requires 0 <= p.pathId <= 255
    ensures r.pathId == p.pathId
  {
    if packets == [] then p
    else Absorb(c, AbsorbPackets(c, p, packets[..|packets| - 1], nowUs), packets[|packets| - 1], nowUs)
  }

  lemma {:induction false} AbsorbAllByPath(c: Config, paths: seq<PathValue>, heard: seq<Copy>, nowUs: int, i: nat)
    requires PathIdsFit(paths) && (forall k :: 0 <= k < |heard| ==> heard[k].path < |paths|) && i < |paths|
    ensures AbsorbAll(c, paths, heard, nowUs)[i] == AbsorbPackets(c, paths[i], PathPackets(heard, i), nowUs)
  {
    hide Absorb;
    if heard == [] {
      AbsorbNothing(c, paths, nowUs);
    } else {
      hide AbsorbAll;
      var before, last := heard[..|heard| - 1], heard[|heard| - 1];
      AbsorbAllByPath(c, paths, before, nowUs, i);
      AbsorbAllTurn(c, paths, heard, nowUs);
      var packets := PathPackets(before, i);
      assert (packets + [last.pkt])[..|packets|] == packets;
      assert packets + [] == packets;
    }
  }

  /** What the echoes sent say: number, time stamp and whether a probe is answered. */
  datatype Echo = Echo(seqNo: int, timestampUs: int, probe: bool)

  function EchoesOwed(packets: seq<Packet>): seq<Echo> {
    if packets == [] then []
    else
      var pkt := packets[|packets| - 1];
      EchoesOwed(packets[..|packets| - 1])
      + if pkt.IsControlPlane() && !pkt.IsEcho() then [Echo(pkt.seqNo, pkt.timestampUs, pkt.IsProbe())] else []
  }

  /** A frame of ours that answers: an echo on its own path, numbered and stamped as what it answers. */
  predicate Answers(c: Config, p: PathValue, f: Frame, e: Echo) {
    && Decode(f).Ok?
    && var pkt := Decode(f).value;
       && pkt.IsControlPlane() && pkt.IsEcho() && pkt.IsProbe() == e.probe && pkt.seqNo == e.seqNo
       && pkt.timestampUs == e.timestampUs && pkt.payload == [] && pkt.trafficClass == TC_CONTROL
       && pkt.pathId == p.pathId && pkt.sessionId == c.sessionId % WRAP
  }

  ghost predicate AllAnswered(c: Config, p: PathValue, frames: seq<Frame>, echoes: seq<Echo>) {
    |frames| == |echoes| && forall k :: 0 <= k < |frames| ==> Answers(c, p, frames[k], echoes[k])
  }

  /** A packet as it comes off the wire. */
  predicate OffTheWire(pkt: Packet) {
    Masked(pkt) == pkt
  }

  lemma ReadsBack(pkt: Packet)
    requires pkt.version == VERSION && |pkt.payload| <= MAX_PAYLOAD && 0 <= pkt.pathId <= 255 && pkt.trafficClass in {TC_CONTROL, TC_MEDIA}
    ensures Encode(pkt).Ok? && Decode(Encode(pkt).value) == Ok(Masked(pkt))
  {
    DecodeEncode(pkt, []);
    assert Encode(pkt).value + [] == Encode(pkt).value;
  }

  lemma EchoAnswers(c: Config, p: PathValue, pkt: Packet)
    requires 0 <= p.pathId <= 255 && OffTheWire(pkt)
    ensures Encode(EchoPacket(c, p.pathId, pkt)).Ok?
    ensures Answers(c, p, Encode(EchoPacket(c, p.pathId, pkt)).value, Echo(pkt.seqNo, pkt.timestampUs, pkt.IsProbe()))
  {
    hide Encode, Decode;
    ReadsBack(EchoPacket(c, p.pathId, pkt));
  }

  lemma {:induction false} PacketsOffTheWire(c: Config, frames: seq<Frame>)
    ensures forall k :: 0 <= k < |PacketsOf(c, frames)| ==> OffTheWire(PacketsOf(c, frames)[k])
  {
    if frames != [] {
      hide Decode, OffTheWire;
      var init, last := frames[..|frames| - 1], frames[|frames| - 1];
      PacketsOffTheWire(c, init);
      if IsOurs(c, last) {
        assert OffTheWire(Decode(last).value) by { DecodedIsMasked(last); assert OffTheWire(Decode(last).value); }
      }
    }
  }

  /** The round-trip samples: how long ago the echoed heartbeats left, unless in the future. */
  function Samples(packets: seq<Packet>, nowUs: int): seq<int> {
    if packets == [] then []
    else
      var pkt := packets[|packets| - 1];
      Samples(packets[..|packets| - 1], nowUs)
      + if pkt.IsControlPlane() && pkt.IsEcho() && nowUs >= pkt.timestampUs then [nowUs - pkt.timestampUs] else []
  }

  /** The first sample as it is, and each further one weighed in by alpha. */
  function Learned(alpha: real, rtt: Option<real>, samples: seq<int>): Option<real> {
    if samples == [] then rtt
    else
      var was, sample := Learned(alpha, rtt, samples[..|samples| - 1]), samples[|samples| - 1] as real;
      Some(if was == None then sample else WeighIn(alpha, was.value, sample))
  }

  /** A share alpha of the way from what it was to the sample. */
  function WeighIn(alpha: real, was: real, sample: real): real {
    was + Portion(alpha, sample - was)
  }

  function Portion(alpha: real, x: real): real {
    alpha * x
  }

  ghost predicate Absorbed(c: Config, p: PathValue, q: PathValue, packets: seq<Packet>, nowUs: int) {
    && |q.sent| >= |p.sent| && q.sent[..|p.sent|] == p.sent && AllAnswered(c, p, q.sent[|p.sent|..], EchoesOwed(packets))
    && q.up == (p.up || packets != []) && q.lastHeardUs == (if packets == [] then p.lastHeardUs else nowUs)
    && q.rttUs == Learned(p.rttAlpha, p.rttUs, Samples(packets, nowUs))
    && q.pathId == p.pathId && q.name == p.name && q.rttAlpha == p.rttAlpha && q.dataOutcomes == p.dataOutcomes
    && q.lossWindow == p.lossWindow && q.hbSeq == p.hbSeq && q.lastHbTxUs == p.lastHbTxUs && q.lastProbeTxUs == p.lastProbeTxUs
    && q.inbox == p.inbox
  }

  lemma SmoothedIs(alpha: real, sample: real, was: real)
    ensures Smoothed(alpha, sample, was) == WeighIn(alpha, was, sample)
  {
    assert alpha * (sample - was) == alpha * sample - alpha * was;
    assert (1.0 - alpha) * was == was - alpha * was;
  }

  lemma LearnsOne(alpha: real, rtt: Option<real>, samples: seq<int>, sample: int)
    ensures var was := Learned(alpha, rtt, samples);
            Learned(alpha, rtt, samples + [sample])
            == Some(if was == None then sample as real else Smoothed(alpha, sample as real, was.value))
  {
    hide Smoothed, WeighIn;
    var all, was := samples + [sample], Learned(alpha, rtt, samples);
    assert all[..|all| - 1] == samples && all[|all| - 1] == sample;
    if was.Some? {
      SmoothedIs(alpha, sample as real, was.value);
    }
  }

  lemma OwesOne(packets: seq<Packet>, pkt: Packet)
    ensures EchoesOwed(packets + [pkt])
         == EchoesOwed(packets) + if pkt.IsControlPlane() && !pkt.IsEcho() then [Echo(pkt.seqNo, pkt.timestampUs, pkt.IsProbe())] else []
  {
    assert (packets + [pkt])[..|packets|] == packets;
  }

  lemma SamplesOne(packets: seq<Packet>, pkt: Packet, nowUs: int)
    ensures Samples(packets + [pkt], nowUs)
         == Samples(packets, nowUs)
            + if pkt.IsControlPlane() && pkt.IsEcho() && nowUs >= pkt.timestampUs then [nowUs - pkt.timestampUs] else []
  {
    assert (packets + [pkt])[..|packets|] == packets;
  }

  /** One more packet. */
  lemma AbsorbsOne(c: Config, p: PathValue, q: PathValue, packets: seq<Packet>, pkt: Packet, nowUs: int)
    requires 0 <= p.pathId <= 255 && Absorbed(c, p, q, packets, nowUs) && OffTheWire(pkt)
    ensures Absorbed(c, p, Absorb(c, q, pkt, nowUs), packets + [pkt], nowUs)
  {
    hide Encode, Answers, Learned, EchoesOwed, Samples, PathValue.ObserveHeartbeat, OffTheWire, Smoothed;
    HeartbeatOnlyStats(q.MarkHeard(nowUs), pkt.seqNo);
    OwesOne(packets, pkt);
    SamplesOne(packets, pkt, nowUs);
    var echoes, samples := EchoesOwed(packets), Samples(packets, nowUs);
    assert echoes + [] == echoes && samples + [] == samples;
    if pkt.IsControlPlane() {
      if pkt.IsEcho() {
        if nowUs >= pkt.timestampUs {
          LearnsOne(p.rttAlpha, p.rttUs, samples, nowUs - pkt.timestampUs);
        }
      } else {
        EchoAnswers(c, q, pkt);
        AnswersOnPath(c, q, p, Encode(EchoPacket(c, q.pathId, pkt)).value, Echo(pkt.seqNo, pkt.timestampUs, pkt.IsProbe()));
        var f := Encode(EchoPacket(c, q.pathId, pkt)).value;
        assert (q.sent + [f])[..|p.sent|] == p.sent;
        assert (q.sent + [f])[|p.sent|..] == q.sent[|p.sent|..] + [f];
      }
    }
  }

  lemma AnswersOnPath(c: Config, q: PathValue, p: PathValue, f: Frame, e: Echo)
    requires q.pathId == p.pathId && Answers(c, q, f, e)
    ensures Answers(c, p, f, e)
  {
  }

  lemma {:induction false} AbsorbsAll(c: Config, p: PathValue, packets: seq<Packet>, nowUs: int)
    requires 0 <= p.pathId <= 255 && forall k :: 0 <= k < |packets| ==> OffTheWire(packets[k])
    ensures Absorbed(c, p, AbsorbPackets(c, p, packets, nowUs), packets, nowUs)
  {
    if packets == [] {
      assert p.sent[..|p.sent|] == p.sent;
    } else {
      hide Absorbed, Absorb, OffTheWire;
      var init, last := packets[..|packets| - 1], packets[|packets| - 1];
      AbsorbsAll(c, p, init, nowUs);
      assert init + [last] == packets;
      AbsorbsOne(c, p, AbsorbPackets(c, p, init, nowUs), init, last, nowUs);
    }
  }

  // ---------- What a poll leaves ----------

  /** Only the data outcomes change when the groups are taken. */
  lemma {:induction false} GroupsOnlyOutcomes(s: SessionValue, data: seq<Copy>, numbers: seq<int>, i: nat)
    requires CopiesFit(s, data) && (forall n :: n in numbers ==> CopiesOf(data, n) != []) && i < |s.paths|
    ensures var q := TakeGroups(s, data, numbers).session.paths[i]; q == s.paths[i].(dataOutcomes := q.dataOutcomes)
  {
    hide TakeGroups, CopiesOf;
    if numbers == [] {
      TakeGroupsNone(s, data);
    } else {
      GroupsOnlyOutcomes(s, data, numbers[..|numbers| - 1], i);
      TakeGroupsTurn(s, data, numbers);
    }
  }

  /**
    A poll, path by path and from the frames that wait: it empties the inbox; the path is up, and
    heard now, if any frame of the session was there; it answers every heartbeat and probe, in
    order, with an echo of the same number and time stamp on the same path, and sends nothing else;
    and the round-trip time learns from the echoes, in order.
   */
  lemma PollAnswers(c: Config, s: SessionValue, nowUs: int, i: nat)
    requires PathIdsFit(s.paths) && i < |s.paths|
    ensures var p, q, packets := s.paths[i], Poll(c, s, nowUs).session.paths[i], PacketsOf(c, s.paths[i].inbox);
            && q.inbox == [] && |q.sent| >= |p.sent| && q.sent[..|p.sent|] == p.sent
            && AllAnswered(c, p, q.sent[|p.sent|..], EchoesOwed(packets))
            && q.up == (p.up || packets != []) && q.lastHeardUs == (if packets == [] then p.lastHeardUs else nowUs)
            && q.rttUs == Learned(p.rttAlpha, p.rttUs, Samples(packets, nowUs))
            && q.hbSeq == p.hbSeq && q.lastHbTxUs == p.lastHbTxUs && q.lastProbeTxUs == p.lastProbeTxUs
  {
    hide AbsorbAll, TakeGroups, HeardBy, PacketsOf, EchoesOwed, Samples, Learned, Answers, AbsorbPackets, PathPackets;
    var heard, p := HeardBy(c, s), s.paths[i];
    var drained := Drained(s.paths);
    var absorbed := AbsorbAll(c, drained, heard, nowUs);
    AbsorbAllByPath(c, drained, heard, nowUs, i);
    HeardIsInbox(c, s, i);
    var packets := PacketsOf(c, p.inbox);
    PacketsOffTheWire(c, p.inbox);
    AbsorbsAll(c, drained[i], packets, nowUs);
    assert AllAnswered(c, p, absorbed[i].sent[|p.sent|..], EchoesOwed(packets)) by {
      hide Answers;
      SameAnswers(c, drained[i], p, absorbed[i].sent[|p.sent|..], EchoesOwed(packets));
    }
    var data := DataCopies(heard);
    GroupsOnlyOutcomes(s.(paths := absorbed), data, FirstSeen(data), i);
  }

  lemma SameAnswers(c: Config, q: PathValue, p: PathValue, frames: seq<Frame>, echoes: seq<Echo>)
    requires q.pathId == p.pathId && AllAnswered(c, q, frames, echoes)
    ensures AllAnswered(c, p, frames, echoes)
  {
    hide Answers;
    forall k | 0 <= k < |frames| ensures Answers(c, p, frames[k], echoes[k]) {
      AnswersOnPath(c, q, p, frames[k], echoes[k]);
    }
  }

  lemma {:induction false} LearnedBetween(alpha: real, rtt: Option<real>, samples: seq<int>, low: real, high: real)
    requires 0.0 <= alpha <= 1.0 && (rtt.Some? ==> low <= rtt.value <= high)
    requires forall k :: 0 <= k < |samples| ==> low <= samples[k] as real <= high
    ensures var r := Learned(alpha, rtt, samples); (r == None <==> rtt == None && samples == []) && (r.Some? ==> low <= r.value <= high)
  {
    if samples != [] {
      hide WeighIn;
      LearnedBetween(alpha, rtt, samples[..|samples| - 1], low, high);
      var was, sample := Learned(alpha, rtt, samples[..|samples| - 1]), samples[|samples| - 1] as real;
      if was.Some? {
        Between(alpha, was.value, sample, low, high);
      }
    }
  }

  lemma Between(alpha: real, was: real, sample: real, low: real, high: real)
    requires 0.0 <= alpha <= 1.0 && low <= was <= high && low <= sample <= high
    ensures low <= WeighIn(alpha, was, sample) <= high
  {
    hide Portion;
    if sample >= was {
      PortionUp(alpha, sample - was);
    } else {
      PortionDown(alpha, sample - was);
    }
  }

  lemma NotNegative(a: real, b: real)
    requires a >= 0.0 && b >= 0.0
    ensures Portion(a, b) >= 0.0
  {
  }

  lemma Rest(alpha: real, x: real)
    ensures Portion(1.0 - alpha, x) == x - Portion(alpha, x)
  {
  }

  lemma Opposite(alpha: real, x: real)
    ensures Portion(alpha, -x) == -Portion(alpha, x)
  {
  }

  lemma PortionUp(alpha: real, x: real)
    requires 0.0 <= alpha <= 1.0 && x >= 0.0
    ensures 0.0 <= Portion(alpha, x) <= x
  {
    hide Portion;
    NotNegative(alpha, x);
    NotNegative(1.0 - alpha, x);
    Rest(alpha, x);
  }

  lemma PortionDown(alpha: real, x: real)
    requires 0.0 <= alpha <= 1.0 && x <= 0.0
    ensures x <= Portion(alpha, x) <= 0.0
  {
    hide Portion;
    PortionUp(alpha, -x);
    Opposite(alpha, x);
  }

  // ---------- What a tick and an emit send ----------

  /** A heartbeat frame, field by field. */
  predicate IsBeatFrame(c: Config, p: PathValue, f: Frame, number: int, probe: bool, stampUs: int) {
    && Decode(f).Ok?
    && var pkt := Decode(f).value;
       && pkt.IsControlPlane() && !pkt.IsEcho() && pkt.IsProbe() == probe && pkt.seqNo == number % WRAP && pkt.payload == []
       && pkt.timestampUs == stampUs % 0x1_0000_0000_0000_0000 && pkt.trafficClass == TC_CONTROL
       && pkt.pathId == p.pathId && pkt.sessionId == c.sessionId % WRAP
  }

  lemma BeatFrameIs(c: Config, p: PathValue, probe: bool, number: int, stampUs: int)
    requires 0 <= p.pathId <= 255
    ensures Encode(BeatPacket(c, p.pathId, probe, number, stampUs)).Ok?
    ensures IsBeatFrame(c, p, Encode(BeatPacket(c, p.pathId, probe, number, stampUs)).value, number, probe, stampUs)
  {
    hide Encode, Decode;
    ReadsBack(BeatPacket(c, p.pathId, probe, number, stampUs));
  }

  /**
    A tick sends on each path at most one frame: a heartbeat if the path is still up and its last
    one is an interval ago, a probe if it is down and its last one is a probe interval ago, under
    the path's next number; and it changes nothing else but whether the path is up.
   */
  lemma TickSendsBeats(c: Config, s: SessionValue, nowUs: int, clock: seq<int>, i: nat)
    requires PathIdsFit(s.paths) && i < |s.paths|
    ensures var p, q := s.paths[i], Tick(c, s, nowUs, clock).paths[i];
            var up := p.up && nowUs - p.lastHeardUs < c.downTimeoutUs;
            var due := if up then nowUs - p.lastHbTxUs >= c.heartbeatIntervalUs else nowUs - p.lastProbeTxUs >= c.probeIntervalUs;
            && q.up == up
            && (!due ==> q == p.(up := up))
            && (due ==>
                  && |q.sent| == |p.sent| + 1 && q.sent[..|p.sent|] == p.sent && q.hbSeq == p.hbSeq + 1
                  && IsBeatFrame(c, p, q.sent[|p.sent|], p.hbSeq + 1, !up, Reading(clock, i))
                  && q.lastHbTxUs == (if up then nowUs else p.lastHbTxUs) && q.lastProbeTxUs == (if up then p.lastProbeTxUs else nowUs)
                  && q == p.(up := up, sent := q.sent, hbSeq := q.hbSeq, lastHbTxUs := q.lastHbTxUs, lastProbeTxUs := q.lastProbeTxUs))
  {
    hide Encode, IsBeatFrame;
    var p := s.paths[i];
    BeatFrameIs(c, p, false, p.hbSeq + 1, Reading(clock, i));
    BeatFrameIs(c, p, true, p.hbSeq + 1, Reading(clock, i));
  }

  /** A data copy, field by field. */
  predicate IsCopyFrame(c: Config, p: PathValue, f: Frame, item: Datagram, number: int, stampUs: int) {
    && Decode(f).Ok?
    && var pkt := Decode(f).value;
       && !pkt.IsControlPlane() && pkt.seqNo == number % WRAP && pkt.payload == item.payload && pkt.trafficClass == item.trafficClass
       && pkt.timestampUs == stampUs % 0x1_0000_0000_0000_0000 && pkt.pathId == p.pathId && pkt.sessionId == c.sessionId % WRAP
  }

  lemma CopyFrameIs(c: Config, p: PathValue, item: Datagram, number: int, stampUs: int)
    requires Encodable(item) && 0 <= p.pathId <= 255
    ensures Encode(DataPacket(c, p.pathId, item, number, stampUs)).Ok?
    ensures IsCopyFrame(c, p, Encode(DataPacket(c, p.pathId, item, number, stampUs)).value, item, number, stampUs)
  {
    hide Encode, Decode;
    ReadsBack(DataPacket(c, p.pathId, item, number, stampUs));
  }

  /**
    An emit takes the next number and sends one copy on each path that is up with its loss within
    the threshold, the same payload, class, number and time stamp under that path's id; the other
    paths are untouched.
   */
  lemma EmitSendsCopies(c: Config, s: SessionValue, item: Datagram, nowUs: int, i: nat)
    requires PathIdsFit(s.paths) && i < |s.paths| && Encodable(item)
    ensures var t := Emit(c, s, item, nowUs);
            var p, q := s.paths[i], t.paths[i];
            && t.seqNo == s.seqNo + 1
            && (p.up && p.Loss() <= c.lossThreshold ==>
                  && |q.sent| == |p.sent| + 1 && q.sent[..|p.sent|] == p.sent && q == p.(sent := q.sent)
                  && IsCopyFrame(c, p, q.sent[|p.sent|], item, s.seqNo + 1, nowUs))
            && (!(p.up && p.Loss() <= c.lossThreshold) ==> q == p)
  {
    hide Encode, IsCopyFrame, Encodable, PathValue.Loss;
    CopyFrameIs(c, s.paths[i], item, s.seqNo + 1, nowUs);
  }

  // ---------- When a path was last heard, over every run ----------

  /** The moment of the last poll that found a frame of the session waiting on path i. */
  function LastHeardAt(cs: Configs, w: World, es: seq<Event>, side: Side, i: nat): int
    requires w.Fits() && i < |w.Of(side).session.paths|
  {
    if es == [] then PathAt(w, side, i).lastHeardUs
    else
      var before := Run(cs, w, es[..|es| - 1]);
      if es[|es| - 1] == PollCall(side) && i < |before.Of(side).session.paths|
         && PacketsOf(cs.Of(side), PathAt(before, side, i).inbox) != []
      then before.nowUs else LastHeardAt(cs, w, es[..|es| - 1], side, i)
  }

  lemma StepHeard(cs: Configs, w: World, e: Event, side: Side, i: nat)
    requires w.Fits() && i < |w.Of(side).session.paths|
    ensures i < |Step(cs, w, e).Of(side).session.paths|
    ensures PathAt(Step(cs, w, e), side, i).lastHeardUs
         == if e == PollCall(side) && PacketsOf(cs.Of(side), PathAt(w, side, i).inbox) != [] then w.nowUs
            else PathAt(w, side, i).lastHeardUs
  {
    hide BeatSeqs, DataSent, HearsOn, PacketsOf, Poll, Flush, FlushLog, TickPath;
    StepHealth(cs, w, e, side, i);
    if e == PollCall(side) {
      PollAnswers(cs.Of(side), w.Of(side).session, w.nowUs, i);
    }
  }

  lemma {:induction false} RunHeard(cs: Configs, w: World, es: seq<Event>, side: Side, i: nat)
    requires w.Fits() && i < |w.Of(side).session.paths|
    ensures i < |Run(cs, w, es).Of(side).session.paths|
    ensures PathAt(Run(cs, w, es), side, i).lastHeardUs == LastHeardAt(cs, w, es, side, i)
  {
    if es != [] {
      hide Step, PacketsOf;
      RunHeard(cs, w, es[..|es| - 1], side, i);
      StepHeard(cs, Run(cs, w, es[..|es| - 1]), es[|es| - 1], side, i);
    }
  }

  /** After every tick a path is up exactly when a frame of the session was read on it less than the timeout ago. */
  lemma UpWhileFramesCome(cs: Configs, w: World, es: seq<Event>, side: Side, i: nat)
    requires w.Fits() && i < |w.Of(side).session.paths| && Timely(cs.Of(side), HealthAt(w, side, i), w.nowUs)
    requires es != [] && MlinkTiming.Ticks(es[|es| - 1], side)
    ensures i < |Run(cs, w, es).Of(side).session.paths|
    ensures PathAt(Run(cs, w, es), side, i).up <==>
            Run(cs, w, es).nowUs - LastHeardAt(cs, w, es, side, i) < cs.Of(side).downTimeoutUs
  {
    hide Run, LastHeardAt;
    UpWhileHeard(cs, w, es, side, i);
    RunHeard(cs, w, es, side, i);
  }
}
