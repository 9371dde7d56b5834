/**
  Over every run of calls: a path's heartbeat loss is that of the heartbeats read on it, and the
  scheduler copies each datagram once onto the paths that this loss and their liveness allow.
 */
module MlinkLoss {
  import opened Wrappers
  import opened Bytes
  import opened MlinkHeader
  import opened MlinkDedupe
  import opened MlinkPath
  import opened MlinkSteps
  import opened MlinkNetwork
  import opened MlinkSafety
  import opened MlinkTiming

  // ---------- The heartbeats read, from the inboxes alone ----------

  /** A heartbeat or probe of this session, not an echo. */
  predicate IsHeartbeat(c: Config, f: Frame) {
    IsOurs(c, f) && IsBeat(f)
  }

  function NumberOf(c: Config, f: Frame): seq<int> {
    if IsHeartbeat(c, f) then [Decode(f).value.seqNo] else []
  }

  /** The numbers on the heartbeats among these frames, in order. */
  function BeatNumbers(c: Config, frames: seq<Frame>): seq<int> {
    if frames == [] then [] else BeatNumbers(c, frames[..|frames| - 1]) + NumberOf(c, frames[|frames| - 1])
  }

  /** The numbers this side has read on path i: at each poll, those of the frames waiting there. */
  function BeatsRead(cs: Configs, w: World, es: seq<Event>, side: Side, i: nat): seq<int>
    requires w.Fits()
  {
    if es == [] then []
    else
      var before := Run(cs, w, es[..|es| - 1]);
      BeatsRead(cs, w, es[..|es| - 1], side, i)
      + if es[|es| - 1] == PollCall(side) && i < |before.Of(side).session.paths|
        then BeatNumbers(cs.Of(side), PathAt(before, side, i).inbox) else []
  }

  lemma {:induction false} NumbersAreNatural(c: Config, frames: seq<Frame>)
    ensures forall k :: 0 <= k < |BeatNumbers(c, frames)| ==> BeatNumbers(c, frames)[k] >= 0
  {
    if frames != [] {
      NumbersAreNatural(c, frames[..|frames| - 1]);
    }
  }

  lemma {:induction false} ReadsAreNatural(cs: Configs, w: World, es: seq<Event>, side: Side, i: nat)
    requires w.Fits()
    ensures forall k :: 0 <= k < |BeatsRead(cs, w, es, side, i)| ==> BeatsRead(cs, w, es, side, i)[k] >= 0
  {
    if es != [] {
      hide Run, BeatNumbers;
      ReadsAreNatural(cs, w, es[..|es| - 1], side, i);
      var before := Run(cs, w, es[..|es| - 1]);
      if i < |before.Of(side).session.paths| {
        NumbersAreNatural(cs.Of(side), PathAt(before, side, i).inbox);
      }
    }
  }

  // ---------- What a poll makes of them ----------

  /** What loss is about. */
  datatype Record = Record(outcomes: seq<bool>, lastRx: Option<int>, window: nat)

  function RecordOf(p: PathValue): Record {
    Record(p.hbOutcomes, p.lastHbRx, p.lossWindow)
  }

  lemma SameObserved(p: PathValue, q: PathValue, seqNo: int)
    requires RecordOf(p) == RecordOf(q)
    ensures RecordOf(p.ObserveHeartbeat(seqNo)) == RecordOf(q.ObserveHeartbeat(seqNo))
  {
  }

  lemma {:induction false} SameHeard(p: PathValue, q: PathValue, calls: seq<int>)
    requires RecordOf(p) == RecordOf(q)
    ensures RecordOf(Heard(p, calls)) == RecordOf(Heard(q, calls))
  {
    if calls != [] {
      hide PathValue.ObserveHeartbeat;
      SameHeard(p, q, calls[..|calls| - 1]);
      SameObserved(Heard(p, calls[..|calls| - 1]), Heard(q, calls[..|calls| - 1]), calls[|calls| - 1]);
    }
  }

  lemma {:induction false} HeardAppends(p: PathValue, calls: seq<int>, more: seq<int>)
    ensures Heard(p, calls + more) == Heard(Heard(p, calls), more)
  {
    if more == [] {
      assert calls + more == calls;
    } else {
      HeardAppends(p, calls, more[..|more| - 1]);
      assert (calls + more)[..|calls + more| - 1] == calls + more[..|more| - 1];
    }
  }

  lemma HeardOneMore(p: PathValue, calls: seq<int>, seqNo: int)
    ensures Heard(p, calls + [seqNo]) == Heard(p, calls).ObserveHeartbeat(seqNo)
  {
    assert (calls + [seqNo])[..|calls|] == calls;
  }

  /** The heartbeats among the copies that came on path i. */
  function CopyBeats(heard: seq<Copy>, i: nat): seq<int> {
    if heard == [] then []
    else
      var last := heard[|heard| - 1];
      CopyBeats(heard[..|heard| - 1], i)
      + if last.path == i && last.pkt.IsControlPlane() && !last.pkt.IsEcho() then [last.pkt.seqNo] else []
  }

  function ArrivalBeats(c: Config, incoming: seq<Arrival>, i: nat): seq<int> {
    if incoming == [] then []
    else
      var last := incoming[|incoming| - 1];
      ArrivalBeats(c, incoming[..|incoming| - 1], i) + if last.path == i then NumberOf(c, last.frame) else []
  }

  lemma OneMoreBeat(heard: seq<Copy>, copy: Copy, i: nat)
    ensures CopyBeats(heard + [copy], i)
         == CopyBeats(heard, i) + if copy.path == i && copy.pkt.IsControlPlane() && !copy.pkt.IsEcho() then [copy.pkt.seqNo] else []
  {
    assert (heard + [copy])[..|heard|] == heard;
  }

  lemma AcceptedTurn(c: Config, incoming: seq<Arrival>)
    requires incoming != []
    ensures var init, last := incoming[..|incoming| - 1], incoming[|incoming| - 1];
            Accepted(c, incoming)
            == if IsOurs(c, last.frame) then Accepted(c, init) + [Copy(last.path, Decode(last.frame).value)] else Accepted(c, init)
  {
    hide Decode;
  }

  lemma {:induction false} AcceptedBeats(c: Config, incoming: seq<Arrival>, i: nat)
    ensures CopyBeats(Accepted(c, incoming), i) == ArrivalBeats(c, incoming, i)
  {
    if incoming != [] {
      hide Decode, Accepted, CopyBeats;
      var init, last := incoming[..|incoming| - 1], incoming[|incoming| - 1];
      AcceptedBeats(c, init, i);
      AcceptedTurn(c, incoming);
      if IsOurs(c, last.frame) {
        OneMoreBeat(Accepted(c, init), Copy(last.path, Decode(last.frame).value), i);
      } else {
        assert ArrivalBeats(c, incoming, i) == ArrivalBeats(c, init, i) + [];
      }
    } else {
      assert Accepted(c, []) == [];
    }
  }

  lemma {:induction false} ArrivalsAppend(c: Config, some: seq<Arrival>, more: seq<Arrival>, i: nat)
    ensures ArrivalBeats(c, some + more, i) == ArrivalBeats(c, some, i) + ArrivalBeats(c, more, i)
  {
    if more == [] {
      assert some + more == some;
    } else {
      hide NumberOf;
      ArrivalsAppend(c, some, more[..|more| - 1], i);
      assert (some + more)[..|some + more| - 1] == some + more[..|more| - 1];
    }
  }

  lemma {:induction false} WaitingBeats(c: Config, path: nat, inbox: seq<Frame>, i: nat)
    ensures ArrivalBeats(c, Waiting(path, inbox), i) == if path == i then BeatNumbers(c, inbox) else []
  {
    if inbox != [] {
      hide NumberOf;
      var init := inbox[..|inbox| - 1];
      WaitingBeats(c, path, init, i);
      assert Waiting(path, inbox)[..|inbox| - 1] == Waiting(path, init);
    }
  }

  lemma {:induction false} IncomingBeats(c: Config, paths: seq<PathValue>, i: nat)
    ensures ArrivalBeats(c, Incoming(paths), i) == if i < |paths| then BeatNumbers(c, paths[i].inbox) else []
  {
    if paths != [] {
      hide ArrivalBeats, BeatNumbers, Waiting;
      var init, last := paths[..|paths| - 1], paths[|paths| - 1];
      IncomingBeats(c, init, i);
      ArrivalsAppend(c, Incoming(init), Waiting(|init|, last.inbox), i);
      WaitingBeats(c, |init|, last.inbox, i);
      assert Incoming(paths) == Incoming(init) + Waiting(|init|, last.inbox);
      assert i < |init| ==> paths[i] == init[i];
    } else {
      assert Incoming(paths) == [] && ArrivalBeats(c, [], i) == [];
    }
  }

  lemma AbsorbRecord(c: Config, p: PathValue, pkt: Packet, nowUs: int)
    requires 0 <= p.pathId <= 255
    ensures RecordOf(Absorb(c, p, pkt, nowUs))
         == if pkt.IsControlPlane() && !pkt.IsEcho() then RecordOf(p.ObserveHeartbeat(pkt.seqNo)) else RecordOf(p)
  {
    hide Encode, PathValue.ObserveHeartbeat;
    SameObserved(p, p.MarkHeard(nowUs), pkt.seqNo);
  }

  lemma {:induction false} AbsorbAllRecord(c: Config, paths: seq<PathValue>, heard: seq<Copy>, nowUs: int, i: nat)
    requires PathIdsFit(paths) && (forall k :: 0 <= k < |heard| ==> heard[k].path < |paths|) && i < |paths|
    ensures RecordOf(AbsorbAll(c, paths, heard, nowUs)[i]) == RecordOf(Heard(paths[i], CopyBeats(heard, i)))
  {
    hide Absorb, PathValue.ObserveHeartbeat, RecordOf;
    if heard == [] {
      AbsorbNothing(c, paths, nowUs);
    } else {
      hide AbsorbAll, CopyBeats, Heard;
      var before, last := heard[..|heard| - 1], heard[|heard| - 1];
      AbsorbAllRecord(c, paths, before, nowUs, i);
      AbsorbAllTurn(c, paths, heard, nowUs);
      assert heard == before + [last];
      OneMoreBeat(before, last, i);
      var numbers := CopyBeats(before, i);
      assert numbers + [] == numbers;
      if last.path == i {
        var p := AbsorbAll(c, paths, before, nowUs)[i];
        AbsorbRecord(c, p, last.pkt, nowUs);
        SameObserved(p, Heard(paths[i], numbers), last.pkt.seqNo);
        HeardOneMore(paths[i], numbers, last.pkt.seqNo);
      }
    }
  }

  lemma {:induction false} GroupsRecord(s: SessionValue, data: seq<Copy>, numbers: seq<int>, i: nat)
    requires CopiesFit(s, data) && (forall n :: n in numbers ==> CopiesOf(data, n) != []) && i < |s.paths|
    ensures RecordOf(TakeGroups(s, data, numbers).session.paths[i]) == RecordOf(s.paths[i])
  {
    hide TakeGroups, CopiesOf;
    if numbers == [] {
      TakeGroupsNone(s, data);
    } else {
      GroupsRecord(s, data, numbers[..|numbers| - 1], i);
      TakeGroupsTurn(s, data, numbers);
    }
  }

  /** A poll adds to a path's record exactly the heartbeats waiting on it. */
  lemma PollRecord(c: Config, s: SessionValue, nowUs: int, i: nat)
    requires PathIdsFit(s.paths) && i < |s.paths|
    ensures RecordOf(Poll(c, s, nowUs).session.paths[i]) == RecordOf(Heard(s.paths[i], BeatNumbers(c, s.paths[i].inbox)))
  {
    hide AbsorbAll, TakeGroups, Accepted, Incoming, BeatNumbers, Heard, CopyBeats, ArrivalBeats;
    var heard := HeardBy(c, s);
    var absorbed := AbsorbAll(c, Drained(s.paths), heard, nowUs);
    AbsorbAllRecord(c, Drained(s.paths), heard, nowUs, i);
    AcceptedBeats(c, Incoming(s.paths), i);
    IncomingBeats(c, s.paths, i);
    SameHeard(Drained(s.paths)[i], s.paths[i], BeatNumbers(c, s.paths[i].inbox));
    var data := DataCopies(heard);
    GroupsRecord(s.(paths := absorbed), data, FirstSeen(data), i);
  }

  // ---------- What any event does to a path's record ----------

  lemma {:induction false} FlushRecord(c: Config, s: SessionValue, clock: seq<int>, i: nat)
    requires PathIdsFit(s.paths) && i < |s.paths|
    ensures |Flush(c, s, clock).session.paths| == |s.paths|
    ensures RecordOf(Flush(c, s, clock).session.paths[i]) == RecordOf(s.paths[i])
    decreases |s.qControl| + |s.qMedia|
  {
    hide Emit, EmitRaises, Head, Flush;
    if s.qControl == [] && s.qMedia == [] {
      FlushDone(c, s, clock);
    } else {
      FlushTurn(c, s, clock);
      EmitOnlySent(c, Popped(s), Head(s), Reading(clock, 0));
      if !EmitRaises(c, Popped(s), Head(s)) {
        FlushRecord(c, Emit(c, Popped(s), Head(s), Reading(clock, 0)), Later(clock), i);
      }
    }
  }

  lemma CalledRecord(cs: Configs, en: Endpoint, e: Event, nowUs: int, i: nat)
    requires PathIdsFit(en.session.paths) && !e.Carry? && !e.Wait? && i < |en.session.paths|
    ensures |Called(cs, en, e, nowUs).session.paths| == |en.session.paths|
    ensures var p, q := en.session.paths[i], Called(cs, en, e, nowUs).session.paths[i];
            RecordOf(q) == if e.PollCall? then RecordOf(Heard(p, BeatNumbers(cs.Of(e.side), p.inbox))) else RecordOf(p)
  {
    hide Flush, FlushLog, Poll, Heard, BeatNumbers, Encode, BeatDue;
    var c, s := cs.Of(e.side), en.session;
    match e
    case SendCall(_, item, clock) => FlushRecord(c, Queued(c, s, item), clock, i);
    case FlushCall(_, clock) => FlushRecord(c, s, clock, i);
    case PollCall(_) => PollRecord(c, s, nowUs, i);
    case TickCall(_, clock) =>
    case EnqueueCall(_, _) =>
  }

  lemma StepRecord(cs: Configs, w: World, e: Event, side: Side, i: nat)
    requires w.Fits() && i < |w.Of(side).session.paths|
    ensures i < |Step(cs, w, e).Of(side).session.paths|
    ensures var p, q := PathAt(w, side, i), PathAt(Step(cs, w, e), side, i);
            RecordOf(q) == if e == PollCall(side) then RecordOf(Heard(p, BeatNumbers(cs.Of(side), p.inbox))) else RecordOf(p)
  {
    hide Called, Heard, BeatNumbers;
    StepSamePaths(cs, w, e);
    if !e.Wait? && !e.Carry? && e.side == side {
      CalledRecord(cs, w.Of(side), e, w.nowUs, i);
    }
  }

  lemma BeatsReadTurn(cs: Configs, w: World, es: seq<Event>, side: Side, i: nat)
    requires w.Fits() && es != []
    ensures var before := Run(cs, w, es[..|es| - 1]);
            && Run(cs, w, es) == Step(cs, before, es[|es| - 1])
            && BeatsRead(cs, w, es, side, i)
               == BeatsRead(cs, w, es[..|es| - 1], side, i)
                  + if es[|es| - 1] == PollCall(side) && i < |before.Of(side).session.paths|
                    then BeatNumbers(cs.Of(side), PathAt(before, side, i).inbox) else []
  {
  }

  lemma {:induction false} RunRecord(cs: Configs, w: World, es: seq<Event>, side: Side, i: nat)
    requires w.Fits() && i < |w.Of(side).session.paths|
    ensures i < |Run(cs, w, es).Of(side).session.paths|
    ensures RecordOf(PathAt(Run(cs, w, es), side, i)) == RecordOf(Heard(PathAt(w, side, i), BeatsRead(cs, w, es, side, i)))
  {
    if es == [] {
      assert Run(cs, w, es) == w;
    } else {
      hide Step, Run, BeatsRead, BeatNumbers, Heard, RecordOf;
      BeatsReadTurn(cs, w, es, side, i);
      var before := Run(cs, w, es[..|es| - 1]);
      RunRecord(cs, w, es[..|es| - 1], side, i);
      StepRecord(cs, before, es[|es| - 1], side, i);
      var p, calls := PathAt(before, side, i), BeatsRead(cs, w, es[..|es| - 1], side, i);
      var more := BeatNumbers(cs.Of(side), p.inbox);
      SameHeard(p, Heard(PathAt(w, side, i), calls), more);
      HeardAppends(PathAt(w, side, i), calls, more);
      assert calls + [] == calls;
    }
  }

  // ---------- Loss and eligibility ----------

  /** The missed share of the last window of recorded heartbeats; zero until the window fills. */
  function ReadLoss(window: nat, calls: seq<int>): real
    requires window >= 1
  {
    if |Recorded(calls)| < window then 0.0 else MissedShare(Last(window, Recorded(calls)))
  }

  /**
    Over every run, the heartbeat deque of a path is the last `loss_window` entries of the vector
    recorded from the heartbeats read on it; its loss is the missed share of those, and it is
    eligible exactly when it is up and that share is within the threshold.
   */
  lemma LossIsOfBeatsRead(cs: Configs, w: World, es: seq<Event>, side: Side, i: nat, threshold: real)
    requires w.Fits() && i < |w.Of(side).session.paths| && Unheard(PathAt(w, side, i))
    ensures i < |Run(cs, w, es).Of(side).session.paths|
    ensures var p, calls := PathAt(Run(cs, w, es), side, i), BeatsRead(cs, w, es, side, i);
            && p.lossWindow == PathAt(w, side, i).lossWindow
            && p.hbOutcomes == Last(p.lossWindow, Recorded(calls))
            && ((forall k :: 0 <= k < |calls| ==> calls[k] >= 1) ==> Recorded(calls) == Truth(calls))
            && p.Loss() == ReadLoss(p.lossWindow, calls)
            && (p.Eligible(threshold) <==> p.up && ReadLoss(p.lossWindow, calls) <= threshold)
  {
    hide Run, BeatsRead, Recorded, Heard, PathValue.Loss, MissedShare;
    var p0, calls := PathAt(w, side, i), BeatsRead(cs, w, es, side, i);
    RunRecord(cs, w, es, side, i);
    ReadsAreNatural(cs, w, es, side, i);
    OutcomesAreRecorded(p0, calls);
    LossOf(PathAt(Run(cs, w, es), side, i));
    if forall k :: 0 <= k < |calls| ==> calls[k] >= 1 {
      NoZero(calls);
    }
  }

  lemma NoZero(calls: seq<int>)
    requires forall k :: 0 <= k < |calls| ==> calls[k] >= 1
    ensures Recorded(calls) == Truth(calls)
  {
    assert [] + Truth(calls) == Truth(calls);
  }

  // ---------- The copies an emit makes ----------

  /** The numbers on the data copies sent, in order. */
  function CopyNumbers(sent: seq<Frame>): seq<int> {
    if sent == [] then []
    else
      CopyNumbers(sent[..|sent| - 1])
      + if IsCopy(sent[|sent| - 1]) then [Decode(sent[|sent| - 1]).value.seqNo] else []
  }

  /** Numbers as the wire carries them. */
  function OnWire(numbers: seq<int>): seq<int> {
    seq(|numbers|, k requires 0 <= k < |numbers| => numbers[k] % WRAP)
  }

  lemma {:induction false} OneMoreCopy(sent: seq<Frame>, f: Frame)
    ensures CopyNumbers(sent + [f]) == CopyNumbers(sent) + if IsCopy(f) then [Decode(f).value.seqNo] else []
  {
    assert (sent + [f])[..|sent|] == sent;
  }

  lemma CopyIsCopy(c: Config, pathId: int, item: Datagram, seqNo: int, nowUs: int)
    requires Encodable(item) && 0 <= pathId <= 255
    ensures var f := Encode(DataPacket(c, pathId, item, seqNo, nowUs));
            f.Ok? && IsCopy(f.value) && Decode(f.value).value.seqNo == seqNo % WRAP
  {
    var pkt := DataPacket(c, pathId, item, seqNo, nowUs);
    DecodeEncode(pkt, []);
    assert Encode(pkt).value + [] == Encode(pkt).value;
  }

  lemma EmitNumbers(c: Config, s: SessionValue, item: Datagram, nowUs: int, i: nat)
    requires PathIdsFit(s.paths) && i < |s.paths|
    ensures var p, q := s.paths[i], Emit(c, s, item, nowUs).paths[i];
            && (q.Eligible(c.lossThreshold) <==> p.Eligible(c.lossThreshold))
            && (!(p.Eligible(c.lossThreshold) && Encodable(item)) ==> q == p)
            && (p.Eligible(c.lossThreshold) && Encodable(item) ==>
                  CopyNumbers(q.sent) == CopyNumbers(p.sent) + [(s.seqNo + 1) % WRAP])
  {
    hide Encode, Encodable, CopyNumbers, PathValue.Eligible, Decode;
    var p := s.paths[i];
    forall sent ensures p.(sent := sent).Eligible(c.lossThreshold) == p.Eligible(c.lossThreshold) {
      SendingKeepsEligible(p, sent, c.lossThreshold);
    }
    if Encodable(item) {
      CopyIsCopy(c, p.pathId, item, s.seqNo + 1, nowUs);
      OneMoreCopy(p.sent, Encode(DataPacket(c, p.pathId, item, s.seqNo + 1, nowUs)).value);
    }
  }

  lemma SendingKeepsEligible(p: PathValue, sent: seq<Frame>, threshold: real)
    ensures p.(sent := sent).Eligible(threshold) == p.Eligible(threshold)
  {
  }

  lemma EligibleRaises(c: Config, s: SessionValue, item: Datagram, i: nat)
    requires i < |s.paths| && s.paths[i].Eligible(c.lossThreshold)
    ensures EmitRaises(c, s, item) <==> !Encodable(item)
  {
  }

  lemma {:induction false} FlushNumbers(c: Config, s: SessionValue, clock: seq<int>, i: nat)
    requires PathIdsFit(s.paths) && i < |s.paths|
    ensures var p, f := s.paths[i], Flush(c, s, clock);
            && |f.session.paths| == |s.paths|
            && if p.Eligible(c.lossThreshold) then CopyNumbers(f.session.paths[i].sent) == CopyNumbers(p.sent) + OnWire(f.seqs)
               else f.session.paths[i] == p
    decreases |s.qControl| + |s.qMedia|
  {
    hide Emit, EmitRaises, Head, Flush, CopyNumbers, PathValue.Eligible, Encodable;
    if s.qControl == [] && s.qMedia == [] {
      FlushDone(c, s, clock);
      assert CopyNumbers(s.paths[i].sent) + [] == CopyNumbers(s.paths[i].sent);
    } else {
      FlushTurn(c, s, clock);
      var p, item := s.paths[i], Head(s);
      var next := Emit(c, Popped(s), item, Reading(clock, 0));
      EmitNumbers(c, Popped(s), item, Reading(clock, 0), i);
      EmitOnlySent(c, Popped(s), item, Reading(clock, 0));
      if p.Eligible(c.lossThreshold) {
        EligibleRaises(c, Popped(s), item, i);
      }
      if EmitRaises(c, Popped(s), item) {
        assert CopyNumbers(p.sent) + OnWire([]) == CopyNumbers(p.sent);
      } else {
        FlushNumbers(c, next, Later(clock), i);
        var later := Flush(c, next, Later(clock)).seqs;
        assert OnWire([next.seqNo] + later) == [next.seqNo % WRAP] + OnWire(later);
      }
    }
  }

  /** The numbers an event makes a side give out and send. */
  function NumbersGiven(cs: Configs, w: World, e: Event, side: Side): seq<int>
    requires w.Fits()
  {
    var c, s := cs.Of(side), w.Of(side).session;
    match e
    case SendCall(who, item, clock) =>
      if who != side || SendRefusal(c, item) != None || MediaDropped(c, s, item) then []
      else Flush(c, Queued(c, s, item), clock).seqs
    case FlushCall(who, clock) => if who == side then Flush(c, s, clock).seqs else []
    case _ => []
  }

  lemma {:induction false} SentNoCopies(cs: Configs, w: World, e: Event, side: Side, i: nat)
    requires w.Fits() && i < |w.Of(side).session.paths| && !Sends(e, side)
    ensures i < |Step(cs, w, e).Of(side).session.paths|
    ensures DataSent(PathAt(Step(cs, w, e), side, i).sent) == DataSent(PathAt(w, side, i).sent)
  {
    hide Step, BeatSeqs, DataSent, HearsOn;
    StepHealth(cs, w, e, side, i);
  }

  lemma {:induction false} NumbersOfData(sent: seq<Frame>)
    ensures CopyNumbers(sent) == CopyNumbers(DataSent(sent))
  {
    if sent != [] {
      hide Decode, IsCopy;
      var init, last := sent[..|sent| - 1], sent[|sent| - 1];
      NumbersOfData(init);
      if IsCopy(last) {
        OneMoreCopy(DataSent(init), last);
      } else {
        assert DataSent(sent) == DataSent(init) && CopyNumbers(sent) == CopyNumbers(init);
      }
    }
  }

  /**
    Over every run, any event adds to the data copies sent on a path exactly the numbers it gives
    out, each once and in order, if the path is up and its loss, of the heartbeats read on it, is
    within the threshold; otherwise no data copy leaves on it.
   */
  lemma CopiesFollowLoss(cs: Configs, w: World, es: seq<Event>, e: Event, side: Side, i: nat)
    requires w.Fits() && i < |w.Of(side).session.paths| && Unheard(PathAt(w, side, i))
    ensures var before := Run(cs, w, es);
            var after := Step(cs, before, e);
            && i < |before.Of(side).session.paths| && i < |after.Of(side).session.paths|
            && var p, q := PathAt(before, side, i), PathAt(after, side, i);
               var allowed := p.up && ReadLoss(PathAt(w, side, i).lossWindow, BeatsRead(cs, w, es, side, i)) <= cs.Of(side).lossThreshold;
               CopyNumbers(q.sent) == CopyNumbers(p.sent) + if allowed then OnWire(NumbersGiven(cs, before, e, side)) else []
  {
    hide Run, ReadLoss, BeatsRead, CopyNumbers, OnWire, PathValue.Eligible, Flush, FlushLog, Poll, TickPath;
    LossIsOfBeatsRead(cs, w, es, side, i, cs.Of(side).lossThreshold);
    var before := Run(cs, w, es);
    var p := PathAt(before, side, i);
    assert CopyNumbers(p.sent) + [] == CopyNumbers(p.sent);
    assert OnWire([]) == [] by { NothingOnWire(); }
    if Sends(e, side) {
      var c, s := cs.Of(side), before.Of(side).session;
      if e.SendCall? {
        FlushNumbers(c, Queued(c, s, e.item), e.clock, i);
      } else {
        FlushNumbers(c, s, e.clock, i);
      }
    } else {
      SentNoCopies(cs, before, e, side, i);
      NumbersOfData(p.sent);
      NumbersOfData(PathAt(Step(cs, before, e), side, i).sent);
    }
  }

  lemma NothingOnWire()
    ensures OnWire([]) == []
  {
  }
}
