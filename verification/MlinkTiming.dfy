/** Path liveness over every run: down timeout, silence while down, and the pace of heartbeats. */
module MlinkTiming {
  import opened Wrappers
  import opened Bytes
  import opened MlinkHeader
  import opened MlinkDedupe
  import opened MlinkPath
  import opened MlinkSteps
  import opened MlinkNetwork
  import opened MlinkSafety
  import opened MlinkDelivery

  /** A heartbeat or probe of our own, not an echo. */
  predicate IsBeat(f: Frame) {
    Decode(f).Ok? && Decode(f).value.IsControlPlane() && !Decode(f).value.IsEcho()
  }

  predicate IsCopy(f: Frame) {
    Decode(f).Ok? && !Decode(f).value.IsControlPlane()
  }

  /** The numbers on the heartbeats and probes sent, in order. */
  function BeatSeqs(sent: seq<Frame>): seq<int> {
    if sent == [] then []
    else
      var last := sent[|sent| - 1];
      BeatSeqs(sent[..|sent| - 1]) + if IsBeat(last) then [Decode(last).value.seqNo] else []
  }

  /** The data copies sent, in order. */
  function DataSent(sent: seq<Frame>): seq<Frame> {
    if sent == [] then []
    else DataSent(sent[..|sent| - 1]) + if IsCopy(sent[|sent| - 1]) then [sent[|sent| - 1]] else []
  }

  /** What liveness is about. */
  datatype Health = Health(up: bool, lastHeardUs: int, lastHbTxUs: int, lastProbeTxUs: int, hbSeq: int,
                           beats: seq<int>, data: seq<Frame>)

  function HealthOf(p: PathValue): Health {
    Health(p.up, p.lastHeardUs, p.lastHbTxUs, p.lastProbeTxUs, p.hbSeq, BeatSeqs(p.sent), DataSent(p.sent))
  }

  predicate BeatsNow(c: Config, h: Health, probe: bool, nowUs: int) {
    var up := h.up && nowUs - h.lastHeardUs < c.downTimeoutUs;
    if probe then !up && nowUs - h.lastProbeTxUs >= c.probeIntervalUs
    else up && nowUs - h.lastHbTxUs >= c.heartbeatIntervalUs
  }

  function TickHealth(c: Config, h: Health, nowUs: int): Health {
    var next := h.(up := h.up && nowUs - h.lastHeardUs < c.downTimeoutUs);
    if BeatsNow(c, h, false, nowUs) then
      next.(hbSeq := h.hbSeq + 1, beats := h.beats + [(h.hbSeq + 1) % WRAP], lastHbTxUs := nowUs)
    else if BeatsNow(c, h, true, nowUs) then
      next.(hbSeq := h.hbSeq + 1, beats := h.beats + [(h.hbSeq + 1) % WRAP], lastProbeTxUs := nowUs)
    else next
  }

  // ---------- Each call's effect on a path's health ----------

  lemma {:induction false} OneMoreSent(sent: seq<Frame>, f: Frame)
    ensures BeatSeqs(sent + [f]) == BeatSeqs(sent) + if IsBeat(f) then [Decode(f).value.seqNo] else []
    ensures DataSent(sent + [f]) == DataSent(sent) + if IsCopy(f) then [f] else []
  {
    hide IsBeat, IsCopy, Decode;
    assert (sent + [f])[..|sent|] == sent;
  }

  lemma TickPathHealth(c: Config, p: PathValue, nowUs: int, stampUs: int)
    requires 0 <= p.pathId <= 255
    ensures HealthOf(TickPath(c, p, nowUs, stampUs)) == TickHealth(c, HealthOf(p), nowUs)
  {
    hide Encode, IsBeat, IsCopy, BeatSeqs, DataSent;
    forall probe ensures SentBeat(c, p, probe, stampUs) {
      BeatIsBeat(c, p, probe, stampUs);
    }
    assert SentBeat(c, p, true, stampUs) && SentBeat(c, p, false, stampUs);
    OneMoreSent(p.sent, Encode(BeatPacket(c, p.pathId, true, p.hbSeq + 1, stampUs)).value) by { EncodesBeat(c, p, true, stampUs); }
    OneMoreSent(p.sent, Encode(BeatPacket(c, p.pathId, false, p.hbSeq + 1, stampUs)).value) by { EncodesBeat(c, p, false, stampUs); }
    EncodesBeat(c, p, true, stampUs);
    EncodesBeat(c, p, false, stampUs);
  }

  predicate SentBeat(c: Config, p: PathValue, probe: bool, nowUs: int) {
    var f := Encode(BeatPacket(c, p.pathId, probe, p.hbSeq + 1, nowUs));
    f.Ok? && IsBeat(f.value) && !IsCopy(f.value) && Decode(f.value).value.seqNo == (p.hbSeq + 1) % WRAP
  }

  lemma BeatIsBeat(c: Config, p: PathValue, probe: bool, nowUs: int)
    requires 0 <= p.pathId <= 255
    ensures SentBeat(c, p, probe, nowUs)
  {
    var pkt := BeatPacket(c, p.pathId, probe, p.hbSeq + 1, nowUs);
    DecodeEncode(pkt, []);
    assert Encode(pkt).value + [] == Encode(pkt).value;
  }

  lemma EchoIsNeither(c: Config, p: PathValue, pkt: Packet)
    requires 0 <= p.pathId <= 255
    ensures var f := Encode(EchoPacket(c, p.pathId, pkt)); f.Ok? && !IsBeat(f.value) && !IsCopy(f.value)
  {
    var echo := EchoPacket(c, p.pathId, pkt);
    DecodeEncode(echo, []);
    assert Encode(echo).value + [] == Encode(echo).value;
  }

  lemma CopyIsNoBeat(c: Config, pathId: int, item: Datagram, seqNo: int, nowUs: int)
    requires Encodable(item) && 0 <= pathId <= 255
    ensures !IsBeat(Encode(DataPacket(c, pathId, item, seqNo, nowUs)).value)
  {
    var pkt := DataPacket(c, pathId, item, seqNo, nowUs);
    DecodeEncode(pkt, []);
    assert Encode(pkt).value + [] == Encode(pkt).value;
  }

  /** Emitting changes the data sent, and not even that on a path that is down. */
  ghost predicate OnlyCopies(p: PathValue, q: PathValue) {
    && q == p.(sent := q.sent)
    && HealthOf(q) == HealthOf(p).(data := HealthOf(q).data)
    && (!p.up ==> q == p)
  }

  lemma EmitHealth(c: Config, s: SessionValue, item: Datagram, nowUs: int, i: nat)
    requires PathIdsFit(s.paths) && i < |s.paths|
    ensures OnlyCopies(s.paths[i], Emit(c, s, item, nowUs).paths[i])
  {
    hide Encode, IsBeat, IsCopy, Encodable, BeatSeqs, DataSent, PathValue.Loss;
    var p := s.paths[i];
    if Encodable(item) {
      CopyIsNoBeat(c, p.pathId, item, s.seqNo + 1, nowUs);
      OneMoreSent(p.sent, Encode(DataPacket(c, p.pathId, item, s.seqNo + 1, nowUs)).value) by { Encodes(c, p.pathId, item, s.seqNo + 1, nowUs); }
      Encodes(c, p.pathId, item, s.seqNo + 1, nowUs);
    }
  }

  lemma Encodes(c: Config, pathId: int, item: Datagram, seqNo: int, nowUs: int)
    requires Encodable(item) && 0 <= pathId <= 255
    ensures Encode(DataPacket(c, pathId, item, seqNo, nowUs)).Ok?
  {
  }

  lemma {:induction false} FlushHealth(c: Config, s: SessionValue, clock: seq<int>, i: nat)
    requires PathIdsFit(s.paths) && i < |s.paths|
    ensures |Flush(c, s, clock).session.paths| == |s.paths|
    ensures OnlyCopies(s.paths[i], Flush(c, s, clock).session.paths[i])
    decreases |s.qControl| + |s.qMedia|
  {
    hide Emit, EmitRaises, Head, Flush, BeatSeqs, DataSent;
    if s.qControl == [] && s.qMedia == [] {
      FlushDone(c, s, clock);
    } else {
      FlushTurn(c, s, clock);
      EmitHealth(c, Popped(s), Head(s), Reading(clock, 0), i);
      EmitOnlySent(c, Popped(s), Head(s), Reading(clock, 0));
      if !EmitRaises(c, Popped(s), Head(s)) {
        FlushHealth(c, Emit(c, Popped(s), Head(s), Reading(clock, 0)), Later(clock), i);
      }
    }
  }

  predicate HeardOn(heard: seq<Copy>, i: nat) {
    exists k :: 0 <= k < |heard| && heard[k].path == i
  }

  function HeardHealth(h: Health, heard: bool, nowUs: int): Health {
    if heard then h.(up := true, lastHeardUs := nowUs) else h
  }

  lemma AbsorbHealth(c: Config, p: PathValue, pkt: Packet, nowUs: int)
    requires 0 <= p.pathId <= 255
    ensures HealthOf(Absorb(c, p, pkt, nowUs)) == HeardHealth(HealthOf(p), true, nowUs)
  {
    hide Encode, IsBeat, IsCopy, BeatSeqs, DataSent, PathValue.ObserveHeartbeat;
    EchoIsNeither(c, p, pkt);
    OneMoreSent(p.sent, Encode(EchoPacket(c, p.pathId, pkt)).value);
    HeartbeatOnlyStats(p.MarkHeard(nowUs), pkt.seqNo);
  }

  lemma HeartbeatOnlyStats(p: PathValue, seqNo: int)
    ensures var q := p.ObserveHeartbeat(seqNo); q == p.(hbOutcomes := q.hbOutcomes, lastHbRx := q.lastHbRx)
  {
  }

  lemma {:induction false} AbsorbAllHealth(c: Config, paths: seq<PathValue>, heard: seq<Copy>, nowUs: int, i: nat)
    requires PathIdsFit(paths) && (forall k :: 0 <= k < |heard| ==> heard[k].path < |paths|) && i < |paths|
    ensures HealthOf(AbsorbAll(c, paths, heard, nowUs)[i]) == HeardHealth(HealthOf(paths[i]), HeardOn(heard, i), nowUs)
  {
    hide Absorb, HealthOf;
    if heard == [] {
      AbsorbNothing(c, paths, nowUs);
    } else {
      var before, last := heard[..|heard| - 1], heard[|heard| - 1];
      AbsorbAllHealth(c, paths, before, nowUs, i);
      AbsorbAllTurn(c, paths, heard, nowUs);
      AbsorbHealth(c, AbsorbAll(c, paths, before, nowUs)[last.path], last.pkt, nowUs);
      HeardOnTurn(heard, i);
    }
  }

  lemma HeardOnTurn(heard: seq<Copy>, i: nat)
    requires heard != []
    ensures HeardOn(heard, i) <==> HeardOn(heard[..|heard| - 1], i) || heard[|heard| - 1].path == i
  {
    var before := heard[..|heard| - 1];
    if HeardOn(before, i) {
      var k :| 0 <= k < |before| && before[k].path == i;
      assert heard[k].path == i;
    }
  }

  lemma {:induction false} GroupsHealth(s: SessionValue, data: seq<Copy>, numbers: seq<int>, i: nat)
    requires CopiesFit(s, data) && (forall n :: n in numbers ==> CopiesOf(data, n) != []) && i < |s.paths|
    ensures HealthOf(TakeGroups(s, data, numbers).session.paths[i]) == HealthOf(s.paths[i])
  {
    hide TakeGroups, CopiesOf, BeatSeqs, DataSent;
    if numbers == [] {
      TakeGroupsNone(s, data);
    } else {
      GroupsHealth(s, data, numbers[..|numbers| - 1], i);
      TakeGroupsTurn(s, data, numbers);
    }
  }

  lemma PollHealth(c: Config, s: SessionValue, nowUs: int, i: nat)
    requires PathIdsFit(s.paths) && i < |s.paths|
    ensures HealthOf(Poll(c, s, nowUs).session.paths[i]) == HeardHealth(HealthOf(s.paths[i]), HeardOn(HeardBy(c, s), i), nowUs)
  {
    hide AbsorbAll, TakeGroups, HeardBy, HeardOn, BeatSeqs, DataSent;
    var heard := HeardBy(c, s);
    var absorbed := AbsorbAll(c, Drained(s.paths), heard, nowUs);
    AbsorbAllHealth(c, Drained(s.paths), heard, nowUs, i);
    var data := DataCopies(heard);
    GroupsHealth(s.(paths := absorbed), data, FirstSeen(data), i);
  }

  function PathAt(w: World, side: Side, i: nat): PathValue
    requires i < |w.Of(side).session.paths|
  {
    w.Of(side).session.paths[i]
  }

  function HealthAt(w: World, side: Side, i: nat): Health
    requires i < |w.Of(side).session.paths|
  {
    HealthOf(PathAt(w, side, i))
  }

  predicate Sends(e: Event, side: Side) {
    (e.SendCall? || e.FlushCall?) && e.side == side
  }

  predicate Ticks(e: Event, side: Side) {
    e.TickCall? && e.side == side
  }

  predicate HearsOn(cs: Configs, w: World, side: Side, i: nat) {
    HeardOn(HeardBy(cs.Of(side), w.Of(side).session), i)
  }

  /** What any event does to the health of path i of a side. */
  lemma StepHealth(cs: Configs, w: World, e: Event, side: Side, i: nat)
    requires w.Fits() && i < |w.Of(side).session.paths|
    ensures i < |Step(cs, w, e).Of(side).session.paths|
    ensures var h, h' := HealthAt(w, side, i), HealthAt(Step(cs, w, e), side, i);
            && (Ticks(e, side) ==> h' == TickHealth(cs.Of(side), h, w.nowUs))
            && (e == PollCall(side) ==> h' == HeardHealth(h, HearsOn(cs, w, side, i), w.nowUs))
            && (Sends(e, side) ==> h' == h.(data := h'.data) && (!h.up ==> h' == h))
            && (!Ticks(e, side) && e != PollCall(side) && !Sends(e, side) ==> h' == h)
    ensures Step(cs, w, e).nowUs == w.nowUs + if e.Wait? then e.us else 0
  {
    hide Called, BeatSeqs, DataSent, TickHealth, HeardHealth, HearsOn;
    StepSamePaths(cs, w, e);
    if !e.Wait? && !e.Carry? && e.side == side {
      CalledHealth(cs, w.Of(side), e, w.nowUs, i);
      assert HearsOn(cs, w, side, i) == HeardOn(HeardBy(cs.Of(side), w.Of(side).session), i) by { HearsOnIs(cs, w, side, i); }
    }
  }

  lemma HearsOnIs(cs: Configs, w: World, side: Side, i: nat)
    ensures HearsOn(cs, w, side, i) == HeardOn(HeardBy(cs.Of(side), w.Of(side).session), i)
  {
  }

  lemma CalledHealth(cs: Configs, en: Endpoint, e: Event, nowUs: int, i: nat)
    requires PathIdsFit(en.session.paths) && !e.Carry? && !e.Wait? && i < |en.session.paths|
    ensures |Called(cs, en, e, nowUs).session.paths| == |en.session.paths|
    ensures var h, h' := HealthOf(en.session.paths[i]), HealthOf(Called(cs, en, e, nowUs).session.paths[i]);
            && (e.TickCall? ==> h' == TickHealth(cs.Of(e.side), h, nowUs))
            && (e.PollCall? ==> h' == HeardHealth(h, HeardOn(HeardBy(cs.Of(e.side), en.session), i), nowUs))
            && (e.SendCall? || e.FlushCall? ==> h' == h.(data := h'.data) && (!h.up ==> h' == h))
            && (e.EnqueueCall? ==> h' == h)
  {
    hide Flush, FlushLog, Poll, TickPath, BeatSeqs, DataSent, TickHealth, HeardHealth, HeardBy, HeardOn;
    var c, s := cs.Of(e.side), en.session;
    match e
    case SendCall(_, item, clock) => FlushHealth(c, Queued(c, s, item), clock, i);
    case FlushCall(_, clock) => FlushHealth(c, s, clock, i);
    case PollCall(_) => PollHealth(c, s, nowUs, i);
    case TickCall(_, clock) => TickPathHealth(c, s.paths[i], nowUs, Reading(clock, i));
    case EnqueueCall(_, _) =>
  }

  // ---------- Up exactly while recently heard ----------

  /** Constructed no later than now; a down path has been silent for the timeout. */
  predicate Timely(c: Config, h: Health, nowUs: int) {
    h.lastHeardUs <= nowUs && (!h.up ==> nowUs - h.lastHeardUs >= c.downTimeoutUs)
  }

  lemma {:induction false} RunTimely(cs: Configs, w: World, es: seq<Event>, side: Side, i: nat)
    requires w.Fits() && i < |w.Of(side).session.paths| && Timely(cs.Of(side), HealthAt(w, side, i), w.nowUs)
    ensures i < |Run(cs, w, es).Of(side).session.paths|
    ensures Timely(cs.Of(side), HealthAt(Run(cs, w, es), side, i), Run(cs, w, es).nowUs)
  {
    if es != [] {
      hide Step, HealthOf, HearsOn;
      RunTimely(cs, w, es[..|es| - 1], side, i);
      StepHealth(cs, Run(cs, w, es[..|es| - 1]), es[|es| - 1], side, i);
    }
  }

  /** After every tick a path is up exactly when it was heard less than `down_timeout_us` ago. */
  lemma {:induction false} UpWhileHeard(cs: Configs, w: World, es: seq<Event>, side: Side, i: nat)
    requires w.Fits() && i < |w.Of(side).session.paths| && Timely(cs.Of(side), HealthAt(w, side, i), w.nowUs)
    requires es != [] && Ticks(es[|es| - 1], side)
    ensures i < |Run(cs, w, es).Of(side).session.paths|
    ensures var p := PathAt(Run(cs, w, es), side, i);
            p.up <==> Run(cs, w, es).nowUs - p.lastHeardUs < cs.Of(side).downTimeoutUs
  {
    hide Step, BeatSeqs, DataSent, HearsOn;
    RunTimely(cs, w, es[..|es| - 1], side, i);
    StepHealth(cs, Run(cs, w, es[..|es| - 1]), es[|es| - 1], side, i);
  }

  // ---------- No data on a silent path ----------

  /** No poll in the run hears a frame of this session on path i. */
  ghost predicate Silent(cs: Configs, w: World, es: seq<Event>, side: Side, i: nat)
    requires w.Fits()
  {
    forall k :: 0 <= k < |es| && es[k] == PollCall(side) ==> !HearsOn(cs, Run(cs, w, es[..k]), side, i)
  }

  /** From a down state, no data copy leaves until a valid frame arrives; probes are all that goes out. */
  lemma {:induction false} NoDataWhileDown(cs: Configs, w: World, es: seq<Event>, side: Side, i: nat)
    requires w.Fits() && i < |w.Of(side).session.paths| && !PathAt(w, side, i).up && Silent(cs, w, es, side, i)
    ensures i < |Run(cs, w, es).Of(side).session.paths|
    ensures !PathAt(Run(cs, w, es), side, i).up
    ensures DataSent(PathAt(Run(cs, w, es), side, i).sent) == DataSent(PathAt(w, side, i).sent)
  {
    if es != [] {
      hide Step, BeatSeqs, DataSent, HearsOn;
      var init := es[..|es| - 1];
      forall k | 0 <= k < |init| && init[k] == PollCall(side) ensures !HearsOn(cs, Run(cs, w, init[..k]), side, i) {
        assert es[k] == init[k] && init[..k] == es[..k];
      }
      NoDataWhileDown(cs, w, init, side, i);
      StepHealth(cs, Run(cs, w, init), es[|es| - 1], side, i);
    }
  }

  // ---------- Numbering and pace ----------

  predicate Numbered(h: Health) {
    h.hbSeq == |h.beats| && forall k :: 0 <= k < |h.beats| ==> h.beats[k] == (k + 1) % WRAP
  }

  /** `hb_seq` counts the heartbeats and probes sent, and the k-th of them carries number k. */
  lemma {:induction false} BeatsAreNumbered(cs: Configs, w: World, es: seq<Event>, side: Side, i: nat)
    requires w.Fits() && i < |w.Of(side).session.paths| && Numbered(HealthAt(w, side, i))
    ensures i < |Run(cs, w, es).Of(side).session.paths| && Numbered(HealthAt(Run(cs, w, es), side, i))
  {
    if es != [] {
      hide Step, HealthOf, HearsOn, TickHealth, Numbered, HeardHealth;
      var before, last := Run(cs, w, es[..|es| - 1]), es[|es| - 1];
      BeatsAreNumbered(cs, w, es[..|es| - 1], side, i);
      StepHealth(cs, before, last, side, i);
      TickNumbered(cs.Of(side), HealthAt(before, side, i), before.nowUs);
      SameBeats(HealthAt(before, side, i), HealthAt(Run(cs, w, es), side, i));
      HeardSameBeats(HealthAt(before, side, i), HearsOn(cs, before, side, i), before.nowUs);
    }
  }

  lemma TickNumbered(c: Config, h: Health, nowUs: int)
    requires Numbered(h)
    ensures Numbered(TickHealth(c, h, nowUs))
  {
  }

  lemma HeardSameBeats(h: Health, heard: bool, nowUs: int)
    ensures var g := HeardHealth(h, heard, nowUs); g.beats == h.beats && g.hbSeq == h.hbSeq
  {
  }

  lemma SameBeats(h: Health, g: Health)
    ensures g.beats == h.beats && g.hbSeq == h.hbSeq ==> (Numbered(h) <==> Numbered(g))
  {
  }

  /** The moments at which this side's ticks put a heartbeat (or a probe) on path i. */
  function BeatTimes(cs: Configs, w: World, es: seq<Event>, side: Side, i: nat, probe: bool): seq<int>
    requires w.Fits()
  {
    if es == [] then []
    else
      var before := Run(cs, w, es[..|es| - 1]);
      BeatTimes(cs, w, es[..|es| - 1], side, i, probe)
      + if Ticks(es[|es| - 1], side) && i < |before.Of(side).session.paths|
           && BeatsNow(cs.Of(side), HealthAt(before, side, i), probe, before.nowUs)
        then [before.nowUs] else []
  }

  lemma BeatTimesTurn(cs: Configs, w: World, es: seq<Event>, side: Side, i: nat, probe: bool)
    requires w.Fits() && es != []
    ensures var before := Run(cs, w, es[..|es| - 1]);
            && Run(cs, w, es) == Step(cs, before, es[|es| - 1])
            && BeatTimes(cs, w, es, side, i, probe)
               == BeatTimes(cs, w, es[..|es| - 1], side, i, probe)
                  + if Ticks(es[|es| - 1], side) && i < |before.Of(side).session.paths|
                       && BeatsNow(cs.Of(side), HealthAt(before, side, i), probe, before.nowUs)
                    then [before.nowUs] else []
  {
  }

  function Interval(c: Config, probe: bool): int {
    if probe then c.probeIntervalUs else c.heartbeatIntervalUs
  }

  function LastTx(h: Health, probe: bool): int {
    if probe then h.lastProbeTxUs else h.lastHbTxUs
  }

  predicate Spaced(times: seq<int>, interval: int) {
    forall k :: 0 < k < |times| ==> times[k] - times[k - 1] >= interval
  }

  lemma {:induction false} BeatsAreSpaced(cs: Configs, w: World, es: seq<Event>, side: Side, i: nat, probe: bool)
    requires w.Fits() && i < |w.Of(side).session.paths|
    ensures i < |Run(cs, w, es).Of(side).session.paths|
    ensures var times := BeatTimes(cs, w, es, side, i, probe);
            && Spaced(times, Interval(cs.Of(side), probe))
            && LastTx(HealthAt(Run(cs, w, es), side, i), probe)
               == if times == [] then LastTx(HealthAt(w, side, i), probe) else times[|times| - 1]
  {
    if es == [] {
      assert Run(cs, w, es) == w;
    } else {
      hide Step, HealthOf, HearsOn, TickHealth, HeardHealth, BeatsNow, Spaced, BeatTimes, Run;
      BeatTimesTurn(cs, w, es, side, i, probe);
      var before, last := Run(cs, w, es[..|es| - 1]), es[|es| - 1];
      BeatsAreSpaced(cs, w, es[..|es| - 1], side, i, probe);
      var h, earlier := HealthAt(before, side, i), BeatTimes(cs, w, es[..|es| - 1], side, i, probe);
      StepHealth(cs, before, last, side, i);
      TickPace(cs.Of(side), h, probe, before.nowUs);
      HeardPace(h, HearsOn(cs, before, side, i), probe, before.nowUs);
      assert earlier + [] == earlier;
      OneMoreBeat(earlier, before.nowUs, Interval(cs.Of(side), probe));
    }
  }

  lemma TickPace(c: Config, h: Health, probe: bool, nowUs: int)
    ensures BeatsNow(c, h, probe, nowUs) ==> nowUs - LastTx(h, probe) >= Interval(c, probe)
    ensures LastTx(TickHealth(c, h, nowUs), probe) == if BeatsNow(c, h, probe, nowUs) then nowUs else LastTx(h, probe)
  {
  }

  lemma HeardPace(h: Health, heard: bool, probe: bool, nowUs: int)
    ensures LastTx(HeardHealth(h, heard, nowUs), probe) == LastTx(h, probe)
  {
  }

  lemma OneMoreBeat(times: seq<int>, nowUs: int, interval: int)
    requires Spaced(times, interval)
    ensures times == [] || nowUs - times[|times| - 1] >= interval ==> Spaced(times + [nowUs], interval)
  {
  }

  lemma {:induction false} SpacedSpan(times: seq<int>, interval: int, j: nat, k: nat)
    requires Spaced(times, interval) && j <= k < |times|
    ensures times[k] - times[j] >= (k - j) * interval
  {
    if j < k {
      SpacedSpan(times, interval, j, k - 1);
      assert (k - j) * interval == (k - 1 - j) * interval + interval;
    }
  }

  /** What a tick adds to the frames sent is what the two guards say. */
  lemma TickSends(c: Config, h: Health, nowUs: int)
    ensures var t := TickHealth(c, h, nowUs);
            var sent := (if BeatsNow(c, h, false, nowUs) then 1 else 0) + (if BeatsNow(c, h, true, nowUs) then 1 else 0);
            t.hbSeq == h.hbSeq + sent && |t.beats| == |h.beats| + sent
  {
  }

  /** The times are those of the heartbeat and probe frames sent on the path: one time for each frame. */
  lemma {:induction false} TimesAreFrames(cs: Configs, w: World, es: seq<Event>, side: Side, i: nat)
    requires w.Fits() && i < |w.Of(side).session.paths|
    ensures i < |Run(cs, w, es).Of(side).session.paths|
    ensures var before, after := HealthAt(w, side, i), HealthAt(Run(cs, w, es), side, i);
            var count := |BeatTimes(cs, w, es, side, i, false)| + |BeatTimes(cs, w, es, side, i, true)|;
            |after.beats| == |before.beats| + count && after.hbSeq == before.hbSeq + count
  {
    if es == [] {
      assert Run(cs, w, es) == w;
    } else {
      hide Step, HealthOf, HearsOn, TickHealth, HeardHealth, BeatsNow, BeatTimes, Run;
      BeatTimesTurn(cs, w, es, side, i, false);
      BeatTimesTurn(cs, w, es, side, i, true);
      var before, last := Run(cs, w, es[..|es| - 1]), es[|es| - 1];
      TimesAreFrames(cs, w, es[..|es| - 1], side, i);
      StepHealth(cs, before, last, side, i);
      TickSends(cs.Of(side), HealthAt(before, side, i), before.nowUs);
      HeardSameBeats(HealthAt(before, side, i), HearsOn(cs, before, side, i), before.nowUs);
    }
  }

  /**
    Heartbeats j..k of a path, sent within a span T, number at most 1 + T / interval; likewise
    probes with their own interval. The two kinds' times number exactly the frames sent.
   */
  lemma {:induction false} HeartbeatRate(cs: Configs, w: World, es: seq<Event>, side: Side, i: nat, probe: bool,
                                         j: nat, k: nat, span: int)
    requires w.Fits() && i < |w.Of(side).session.paths| && Interval(cs.Of(side), probe) > 0
    requires var times := BeatTimes(cs, w, es, side, i, probe); j <= k < |times| && times[k] - times[j] <= span
    ensures k - j + 1 <= 1 + span / Interval(cs.Of(side), probe)
    ensures i < |Run(cs, w, es).Of(side).session.paths|
    ensures |BeatTimes(cs, w, es, side, i, false)| + |BeatTimes(cs, w, es, side, i, true)|
         == |HealthAt(Run(cs, w, es), side, i).beats| - |HealthAt(w, side, i).beats|
  {
    hide BeatTimes, Run, Interval, Spaced, HealthOf;
    TimesAreFrames(cs, w, es, side, i);
    var times, interval := BeatTimes(cs, w, es, side, i, probe), Interval(cs.Of(side), probe);
    BeatsAreSpaced(cs, w, es, side, i, probe);
    SpacedSpan(times, interval, j, k);
    AtMostQuotient(k - j, span, interval);
  }

  lemma AtMostQuotient(n: nat, span: int, interval: int)
    requires interval > 0 && n * interval <= span
    ensures n <= span / interval
  {
    var q := span / interval;
    assert span < (q + 1) * interval;
    Product(n, q, interval);
  }

  lemma Product(n: int, q: int, interval: int)
    requires interval > 0 && n * interval < (q + 1) * interval
    ensures n <= q
  {
  }
}
