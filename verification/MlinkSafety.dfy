/**
  Over every run: no number is delivered twice, what is delivered is what the peer emitted under
  that number, and each path's counter counts the deliveries it won.
 */
module MlinkSafety {
  import opened Wrappers
  import opened Bytes
  import opened MlinkHeader
  import opened MlinkDedupe
  import opened MlinkPath
  import opened MlinkSteps
  import opened MlinkNetwork

  const WRAP: int := 0x1_0000_0000

  /** Control plane, or the datagram the sender emitted under this number. */
  predicate GoodPacket(emitted: seq<Datagram>, p: Packet) {
    p.IsControlPlane()
    || (1 <= p.seqNo <= |emitted| && emitted[p.seqNo - 1] == Datagram(p.payload, p.trafficClass))
  }

  predicate GoodFrame(emitted: seq<Datagram>, f: Frame) {
    Decode(f).Ok? && GoodPacket(emitted, Decode(f).value)
  }

  ghost predicate GoodFrames(emitted: seq<Datagram>, frames: seq<Frame>) {
    forall k :: 0 <= k < |frames| ==> GoodFrame(emitted, frames[k])
  }

  ghost predicate SentGood(emitted: seq<Datagram>, paths: seq<PathValue>) {
    forall i :: 0 <= i < |paths| ==> GoodFrames(emitted, paths[i].sent)
  }

  ghost predicate InboxGood(emitted: seq<Datagram>, paths: seq<PathValue>) {
    forall i :: 0 <= i < |paths| ==> GoodFrames(emitted, paths[i].inbox)
  }

  function Numbers(ds: seq<Delivery>): set<int> {
    set k | 0 <= k < |ds| :: ds[k].seqNo
  }

  function Wins(ds: seq<Delivery>, name: string): nat {
    if ds == [] then 0
    else Wins(ds[..|ds| - 1], name) + if ds[|ds| - 1].winner == name then 1 else 0
  }

  ghost predicate Distinct(ds: seq<Delivery>) {
    forall j, k :: 0 <= j < k < |ds| ==> ds[j].seqNo != ds[k].seqNo
  }

  /** Every delivery carries what was emitted under its number. */
  ghost predicate Authentic(ds: seq<Delivery>, emitted: seq<Datagram>) {
    forall k :: 0 <= k < |ds| ==>
      1 <= ds[k].seqNo <= |emitted| && emitted[ds[k].seqNo - 1] == Datagram(ds[k].payload, ds[k].trafficClass)
  }

  /** The window as it would be had it forgotten none of these deliveries. */
  function History(w: Window, ds: seq<Delivery>): Window {
    w.(delivered := Numbers(ds))
  }

  ghost predicate Received(s: SessionValue, ds: seq<Delivery>, emitted: seq<Datagram>) {
    && WindowAgrees(s.window, ds, emitted)
    && Distinct(ds) && Authentic(ds, emitted)
    && CountsAgree(s.deliveredByPath, ds)
  }

  ghost predicate WindowAgrees(w: Window, ds: seq<Delivery>, emitted: seq<Datagram>) {
    && Refines(w, History(w, ds))
    && (w.highest.Some? ==> w.highest.value <= |emitted|)
  }

  /** `delivered_by_path` against the log, path by path. */
  ghost predicate CountsAgree(counts: map<string, int>, ds: seq<Delivery>) {
    forall name :: Count(counts, name) == Wins(ds, name)
  }

  ghost predicate SideSafe(e: Endpoint, peerEmitted: seq<Datagram>) {
    && |e.emitted| == e.session.seqNo
    && SentGood(e.emitted, e.session.paths)
    && InboxGood(peerEmitted, e.session.paths)
    && Received(e.session, e.delivered, peerEmitted)
  }

  ghost predicate Safe(w: World) {
    SideSafe(w.a, w.b.emitted) && SideSafe(w.b, w.a.emitted)
  }

  // ---------- Frames made by the sender are good ----------

  lemma DataFrameGood(c: Config, pathId: int, item: Datagram, emitted: seq<Datagram>, nowUs: int)
    requires Encodable(item) && 0 <= pathId <= 255 && emitted != [] && emitted[|emitted| - 1] == item
    requires |emitted| < WRAP
    ensures GoodFrame(emitted, Encode(DataPacket(c, pathId, item, |emitted|, nowUs)).value)
  {
    var p := DataPacket(c, pathId, item, |emitted|, nowUs);
    DecodeEncode(p, []);
    assert Encode(p).value + [] == Encode(p).value;
  }

  lemma ControlFrameGood(p: Packet, emitted: seq<Datagram>)
    requires Encode(p).Ok? && 0 <= p.flags < 256 && p.IsControlPlane()
    ensures GoodFrame(emitted, Encode(p).value)
  {
    DecodeEncode(p, []);
    assert Encode(p).value + [] == Encode(p).value;
  }

  lemma MoreEmitted(emitted: seq<Datagram>, more: seq<Datagram>, frames: seq<Frame>)
    requires GoodFrames(emitted, frames)
    ensures GoodFrames(emitted + more, frames)
  {
    hide Decode;
  }

  lemma EmitGood(c: Config, s: SessionValue, emitted: seq<Datagram>, item: Datagram, nowUs: int)
    requires PathIdsFit(s.paths) && SentGood(emitted, s.paths) && s.seqNo == |emitted| && |emitted| + 1 < WRAP
    ensures SentGood(emitted + [item], Emit(c, s, item, nowUs).paths)
  {
    hide Encode, GoodFrame, Encodable, PathValue.Eligible;
    var paths := Emit(c, s, item, nowUs).paths;
    forall i | 0 <= i < |paths| ensures GoodFrames(emitted + [item], paths[i].sent) {
      MoreEmitted(emitted, [item], s.paths[i].sent);
      if Encodable(item) {
        DataFrameGood(c, s.paths[i].pathId, item, emitted + [item], nowUs);
      }
    }
  }

  /** A drain touches the queues, the counter and the sent frames only. */
  ghost predicate OnlySent(ps: seq<PathValue>, qs: seq<PathValue>) {
    |ps| == |qs| && forall i :: 0 <= i < |ps| ==> qs[i] == ps[i].(sent := qs[i].sent)
  }

  lemma EmitOnlySent(c: Config, s: SessionValue, item: Datagram, nowUs: int)
    requires PathIdsFit(s.paths)
    ensures var t := Emit(c, s, item, nowUs);
            && t.seqNo == s.seqNo + 1 && PathIdsFit(t.paths)
            && OnlySent(s.paths, t.paths) && t.window == s.window && t.deliveredByPath == s.deliveredByPath
  {
    hide Encode, Encodable, PathValue.Eligible;
  }

  lemma {:induction false} FlushGood(c: Config, s: SessionValue, emitted: seq<Datagram>, clock: seq<int>)
    requires PathIdsFit(s.paths) && SentGood(emitted, s.paths) && s.seqNo == |emitted|
    requires |emitted| + |FlushLog(c, s, clock)| < WRAP
    ensures var t := Flush(c, s, clock).session;
            && SentGood(emitted + FlushLog(c, s, clock), t.paths) && t.seqNo == |emitted| + |FlushLog(c, s, clock)|
            && OnlySent(s.paths, t.paths) && t.window == s.window && t.deliveredByPath == s.deliveredByPath
    decreases |s.qControl| + |s.qMedia|
  {
    hide SentGood, Emit, EmitRaises, Head, Flush, FlushLog;
    if s.qControl == [] && s.qMedia == [] {
      FlushDone(c, s, clock);
      FlushLogDone(c, s, clock);
      assert emitted + [] == emitted;
    } else {
      FlushLogTurn(c, s, clock);
      FlushTurn(c, s, clock);
      var item := Head(s);
      var next := Emit(c, Popped(s), item, Reading(clock, 0));
      EmitGood(c, Popped(s), emitted, item, Reading(clock, 0));
      EmitOnlySent(c, Popped(s), item, Reading(clock, 0));
      if !EmitRaises(c, Popped(s), item) {
        FlushGood(c, next, emitted + [item], Later(clock));
        assert emitted + [item] + FlushLog(c, next, Later(clock)) == emitted + FlushLog(c, s, clock);
      } else {
        assert FlushLog(c, s, clock) == [item];
      }
    }
  }

  lemma FlushLogDone(c: Config, s: SessionValue, clock: seq<int>)
    requires PathIdsFit(s.paths) && s.qControl == [] && s.qMedia == []
    ensures FlushLog(c, s, clock) == []
  {
  }

  lemma FlushLogTurn(c: Config, s: SessionValue, clock: seq<int>)
    requires PathIdsFit(s.paths) && (s.qControl != [] || s.qMedia != [])
    ensures var next := Emit(c, Popped(s), Head(s), Reading(clock, 0));
            && PathIdsFit(next.paths)
            && FlushLog(c, s, clock)
               == [Head(s)] + if EmitRaises(c, Popped(s), Head(s)) then [] else FlushLog(c, next, Later(clock))
  {
  }

  lemma BeatGood(c: Config, p: PathValue, emitted: seq<Datagram>, nowUs: int, stampUs: int)
    requires 0 <= p.pathId <= 255 && GoodFrames(emitted, p.sent)
    ensures GoodFrames(emitted, TickPath(c, p, nowUs, stampUs).sent) && TickPath(c, p, nowUs, stampUs).inbox == p.inbox
  {
    hide Encode, GoodFrame, BeatDue;
    ControlFrameGood(BeatPacket(c, p.pathId, false, p.hbSeq + 1, stampUs), emitted) by { EncodesBeat(c, p, false, stampUs); }
    ControlFrameGood(BeatPacket(c, p.pathId, true, p.hbSeq + 1, stampUs), emitted) by { EncodesBeat(c, p, true, stampUs); }
  }

  lemma EncodesBeat(c: Config, p: PathValue, probe: bool, nowUs: int)
    requires 0 <= p.pathId <= 255
    ensures Encode(BeatPacket(c, p.pathId, probe, p.hbSeq + 1, nowUs)).Ok?
  {
  }

  lemma EncodesEcho(c: Config, p: PathValue, pkt: Packet)
    requires 0 <= p.pathId <= 255
    ensures Encode(EchoPacket(c, p.pathId, pkt)).Ok?
  {
  }

  lemma EchoGood(c: Config, p: PathValue, pkt: Packet, emitted: seq<Datagram>, nowUs: int)
    requires 0 <= p.pathId <= 255 && GoodFrames(emitted, p.sent)
    ensures var q := Absorb(c, p, pkt, nowUs);
            GoodFrames(emitted, q.sent) && q.inbox == p.inbox && q.pathId == p.pathId
  {
    hide Encode, GoodFrame, PathValue.ObserveHeartbeat;
    EncodesEcho(c, p, pkt);
    ControlFrameGood(EchoPacket(c, p.pathId, pkt), emitted);
    assert p.ObserveHeartbeat(pkt.seqNo).sent == p.sent by { HeartbeatSendsNothing(p, pkt.seqNo); }
    HeartbeatSendsNothing(p.MarkHeard(nowUs), pkt.seqNo);
  }

  lemma HeartbeatSendsNothing(p: PathValue, seqNo: int)
    ensures p.ObserveHeartbeat(seqNo).sent == p.sent && p.ObserveHeartbeat(seqNo).inbox == p.inbox
    ensures p.ObserveHeartbeat(seqNo).pathId == p.pathId
  {
  }

  // ---------- What is heard is good, and is delivered once ----------

  lemma HeardGood(c: Config, s: SessionValue, emitted: seq<Datagram>)
    requires PathIdsFit(s.paths) && InboxGood(emitted, s.paths)
    ensures forall k :: 0 <= k < |HeardBy(c, s)| ==> GoodPacket(emitted, HeardBy(c, s)[k].pkt)
  {
    hide Decode, GoodPacket;
    IncomingFits(s.paths);
    var incoming, heard := Incoming(s.paths), HeardBy(c, s);
    forall k | 0 <= k < |heard| ensures GoodPacket(emitted, heard[k].pkt) {
      var j :| 0 <= j < |incoming| && IsCopyOf(c, incoming[j], heard[k]);
      var inbox := s.paths[incoming[j].path].inbox;
      var n :| 0 <= n < |inbox| && inbox[n] == incoming[j].frame;
      assert GoodFrame(emitted, inbox[n]);
    }
  }

  lemma {:induction false} AbsorbGood(c: Config, paths: seq<PathValue>, heard: seq<Copy>, emitted: seq<Datagram>, nowUs: int)
    requires PathIdsFit(paths) && forall k :: 0 <= k < |heard| ==> heard[k].path < |paths|
    requires SentGood(emitted, paths) && forall i :: 0 <= i < |paths| ==> paths[i].inbox == []
    ensures var qs := AbsorbAll(c, paths, heard, nowUs);
            SentGood(emitted, qs) && forall i :: 0 <= i < |qs| ==> qs[i].inbox == []
  {
    hide Absorb, GoodFrame;
    if heard == [] {
      AbsorbNothing(c, paths, nowUs);
    } else {
      var before, last := heard[..|heard| - 1], heard[|heard| - 1];
      AbsorbGood(c, paths, before, emitted, nowUs);
      AbsorbAllTurn(c, paths, heard, nowUs);
      EchoGood(c, AbsorbAll(c, paths, before, nowUs)[last.path], last.pkt, emitted, nowUs);
    }
  }

  lemma {:induction false} NumbersGrow(ds: seq<Delivery>, d: Delivery)
    ensures Numbers(ds + [d]) == Numbers(ds) + {d.seqNo}
    ensures forall name :: Wins(ds + [d], name) == Wins(ds, name) + if d.winner == name then 1 else 0
  {
    var more := ds + [d];
    assert more[..|more| - 1] == ds && more[|ds|] == d;
    forall n ensures n in Numbers(more) <==> n in Numbers(ds) || n == d.seqNo {
      if n in Numbers(ds) {
        var k :| 0 <= k < |ds| && ds[k].seqNo == n;
        assert more[k].seqNo == n;
      }
      if n == d.seqNo {
        assert more[|ds|].seqNo == n;
      }
    }
  }

  /** What one group adds to the log. */
  function Delivered(s: SessionValue, copies: seq<Copy>): seq<Delivery>
    requires copies != [] && forall k :: 0 <= k < |copies| ==> copies[k].path < |s.paths|
  {
    if s.window.Judge(copies[0].pkt.seqNo) == Deliver then [DeliveryOf(s, copies)] else []
  }

  lemma GroupReceived(s: SessionValue, ds: seq<Delivery>, emitted: seq<Datagram>, copies: seq<Copy>)
    requires copies != [] && forall k :: 0 <= k < |copies| ==> copies[k].path < |s.paths|
    requires Received(s, ds, emitted)
    requires !copies[0].pkt.IsControlPlane() && GoodPacket(emitted, copies[0].pkt)
    ensures Received(TakeGroup(s, copies), ds + Delivered(s, copies), emitted)
    ensures TakeGroup(s, copies).window == s.window.Observe(copies[0].pkt.seqNo)
  {
    hide Account, DeliveryOf, Window.Observe, Window.Judge, WindowAgrees, CountsAgree, Distinct, Authentic;
    var n := copies[0].pkt.seqNo;
    var d := DeliveryOf(s, copies);
    DeliveryFields(s, copies);
    SameDelivery(s, copies);
    WindowReceived(s.window, ds, d, emitted);
    if s.window.Judge(n) == Deliver {
      CountsReceived(s.deliveredByPath, ds, d);
      assert Authentic([d], emitted) by { OneAuthentic(d, emitted); }
      LogReceived(s.window, ds, d, emitted);
    } else {
      assert ds + [] == ds;
    }
  }

  lemma DeliveryFields(s: SessionValue, copies: seq<Copy>)
    requires copies != [] && copies[0].path < |s.paths|
    ensures var d, pkt := DeliveryOf(s, copies), copies[0].pkt;
            d.seqNo == pkt.seqNo && d.payload == pkt.payload && d.trafficClass == pkt.trafficClass
  {
  }

  lemma CountsReceived(counts: map<string, int>, ds: seq<Delivery>, d: Delivery)
    requires CountsAgree(counts, ds)
    ensures CountsAgree(counts[d.winner := Count(counts, d.winner) + 1], ds + [d])
  {
    hide Wins;
    NumbersGrow(ds, d);
  }

  lemma OneAuthentic(d: Delivery, emitted: seq<Datagram>)
    requires 1 <= d.seqNo <= |emitted| && emitted[d.seqNo - 1] == Datagram(d.payload, d.trafficClass)
    ensures Authentic([d], emitted)
  {
  }

  lemma LogReceived(w: Window, ds: seq<Delivery>, d: Delivery, emitted: seq<Datagram>)
    requires WindowAgrees(w, ds, emitted) && w.Judge(d.seqNo) == Deliver
    requires Distinct(ds) && Authentic(ds, emitted) && Authentic([d], emitted)
    ensures Distinct(ds + [d]) && Authentic(ds + [d], emitted)
  {
    NotDelivered(w, ds, d.seqNo);
    NotYet(ds, d.seqNo);
    assert Authentic([d], emitted) && [d][0] == d;
  }

  lemma NotDelivered(w: Window, ds: seq<Delivery>, n: int)
    requires Refines(w, History(w, ds)) && w.Judge(n) == Deliver
    ensures n !in Numbers(ds)
  {
    ObserveRefines(w, History(w, ds), n);
  }

  /** The window's next value still refines the history, and its highest number was emitted. */
  lemma WindowReceived(w: Window, ds: seq<Delivery>, d: Delivery, emitted: seq<Datagram>)
    requires WindowAgrees(w, ds, emitted) && d.seqNo <= |emitted|
    ensures WindowAgrees(w.Observe(d.seqNo), if w.Judge(d.seqNo) == Deliver then ds + [d] else ds, emitted)
  {
    ObserveRefines(w, History(w, ds), d.seqNo);
    NumbersGrow(ds, d);
    if w.Judge(d.seqNo) == Deliver {
      assert History(w.Observe(d.seqNo), ds + [d]) == History(w, ds).Remember(d.seqNo);
    }
  }

  lemma NotYet(ds: seq<Delivery>, n: int)
    requires n !in Numbers(ds)
    ensures forall k :: 0 <= k < |ds| ==> ds[k].seqNo != n
  {
  }

  lemma {:induction false} GroupsReceived(s: SessionValue, ds: seq<Delivery>, emitted: seq<Datagram>, data: seq<Copy>,
                                          numbers: seq<int>)
    requires CopiesFit(s, data) && forall n :: n in numbers ==> CopiesOf(data, n) != []
    requires Received(s, ds, emitted)
    requires forall k :: 0 <= k < |data| ==> !data[k].pkt.IsControlPlane() && GoodPacket(emitted, data[k].pkt)
    ensures var polled := TakeGroups(s, data, numbers);
            Received(polled.session, ds + polled.delivered, emitted)
  {
    hide GoodPacket, Received, TakeGroup, DeliveryOf, CopiesOf, TakeGroups;
    if numbers == [] {
      TakeGroupsNone(s, data);
      assert ds + [] == ds;
    } else {
      var before, last := numbers[..|numbers| - 1], numbers[|numbers| - 1];
      GroupsReceived(s, ds, emitted, data, before);
      TakeGroupsTurn(s, data, numbers);
      var polled := TakeGroups(s, data, before);
      var copies := CopiesOf(data, last);
      GroupReceived(polled.session, ds + polled.delivered, emitted, copies);
      assert ds + polled.delivered + Delivered(polled.session, copies)
          == ds + (polled.delivered + Delivered(polled.session, copies));
    }
  }

  /** Accounting and delivering send nothing. */
  lemma {:induction false} GroupsSendNothing(s: SessionValue, data: seq<Copy>, numbers: seq<int>)
    requires CopiesFit(s, data) && forall n :: n in numbers ==> CopiesOf(data, n) != []
    ensures var t := TakeGroups(s, data, numbers).session;
            && t.seqNo == s.seqNo && |t.paths| == |s.paths|
            && forall i :: 0 <= i < |s.paths| ==> t.paths[i].sent == s.paths[i].sent && t.paths[i].inbox == s.paths[i].inbox
  {
    hide CopiesOf, TakeGroups;
    if numbers == [] {
      TakeGroupsNone(s, data);
    } else {
      GroupsSendNothing(s, data, numbers[..|numbers| - 1]);
      TakeGroupsTurn(s, data, numbers);
    }
  }

  lemma PollSafe(c: Config, e: Endpoint, peerEmitted: seq<Datagram>, nowUs: int)
    requires PathIdsFit(e.session.paths) && SideSafe(e, peerEmitted)
    ensures var polled := Poll(c, e.session, nowUs);
            SideSafe(Endpoint(polled.session, e.emitted, e.delivered + polled.delivered), peerEmitted)
  {
    hide Received, GoodFrame, GoodPacket, AbsorbAll, TakeGroups, HeardBy;
    var s := e.session;
    var heard := HeardBy(c, s);
    var data := DataCopies(heard);
    HeardGood(c, s, peerEmitted);
    AbsorbGood(c, Drained(s.paths), heard, e.emitted, nowUs);
    var absorbed := s.(paths := AbsorbAll(c, Drained(s.paths), heard, nowUs));
    assert Received(absorbed, e.delivered, peerEmitted) by { SameReceived(s, absorbed, e.delivered, peerEmitted); }
    forall k | 0 <= k < |data| ensures !data[k].pkt.IsControlPlane() && GoodPacket(peerEmitted, data[k].pkt) {
      assert data[k] in heard;
    }
    GroupsReceived(absorbed, e.delivered, peerEmitted, data, FirstSeen(data));
    GroupsSendNothing(absorbed, data, FirstSeen(data));
  }

  lemma SameReceived(s: SessionValue, t: SessionValue, ds: seq<Delivery>, emitted: seq<Datagram>)
    requires Received(s, ds, emitted) && t.window == s.window && t.deliveredByPath == s.deliveredByPath
    ensures Received(t, ds, emitted)
  {
  }
}
