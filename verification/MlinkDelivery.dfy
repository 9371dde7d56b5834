/** Over every run no number is delivered twice and nothing is forged; what one clean path delivers follows in `MlinkCleanPath`. */
module MlinkDelivery {
  import opened Wrappers
  import opened Bytes
  import opened MlinkHeader
  import opened MlinkDedupe
  import opened MlinkPath
  import opened MlinkSteps
  import opened MlinkNetwork
  import opened MlinkSafety

  /** Both objects just constructed: nothing sent, heard, numbered or delivered. */
  ghost predicate JustStarted(s: SessionValue) {
    && s.seqNo == 0 && s.window.size >= 1 && s.window == Fresh(s.window.size)
    && |s.paths| <= 256
    && (forall i :: 0 <= i < |s.paths| ==> s.paths[i].pathId == i && s.paths[i].sent == [] && s.paths[i].inbox == [])
    && (forall name :: name in s.deliveredByPath ==> s.deliveredByPath[name] == 0)
  }

  ghost predicate Initial(w: World) {
    && JustStarted(w.a.session) && w.a.emitted == [] && w.a.delivered == []
    && JustStarted(w.b.session) && w.b.emitted == [] && w.b.delivered == []
  }

  /** Fewer than 2^32 numbers per side, so none wraps on the wire. */
  predicate NoWrap(w: World) {
    |w.a.emitted| < WRAP && |w.b.emitted| < WRAP
  }

  lemma InitialSafe(w: World)
    requires Initial(w)
    ensures Safe(w) && w.Fits()
  {
    assert Numbers([]) == {};
  }

  lemma CalledSafe(cs: Configs, e: Endpoint, event: Event, nowUs: int, peerEmitted: seq<Datagram>)
    requires PathIdsFit(e.session.paths) && !event.Carry? && !event.Wait?
    requires SideSafe(e, peerEmitted) && |Called(cs, e, event, nowUs).emitted| < WRAP
    ensures SideSafe(Called(cs, e, event, nowUs), peerEmitted)
    ensures e.emitted <= Called(cs, e, event, nowUs).emitted
  {
    hide Flush, FlushLog, Poll, Received, GoodFrames, TickPath;
    var c, s := cs.Of(event.side), e.session;
    var t := Called(cs, e, event, nowUs).session;
    match event
    case SendCall(_, item, clock) =>
      if SendRefusal(c, item) == None && !MediaDropped(c, s, item) {
        FlushGood(c, Queued(c, s, item), e.emitted, clock);
      } else {
        assert e.emitted + [] == e.emitted;
      }
      SameReceived(s, t, e.delivered, peerEmitted);
    case EnqueueCall(_, item) =>
      SameReceived(s, t, e.delivered, peerEmitted);
    case FlushCall(_, clock) =>
      FlushGood(c, s, e.emitted, clock);
      SameReceived(s, t, e.delivered, peerEmitted);
    case TickCall(_, clock) =>
      forall i | 0 <= i < |s.paths|
        ensures GoodFrames(e.emitted, t.paths[i].sent) && t.paths[i].inbox == s.paths[i].inbox
      {
        BeatGood(c, s.paths[i], e.emitted, nowUs, Reading(clock, i));
      }
      SameReceived(s, t, e.delivered, peerEmitted);
    case PollCall(_) => PollSafe(c, e, peerEmitted, nowUs);
  }

  lemma PeerStaysSafe(e: Endpoint, peerEmitted: seq<Datagram>, more: seq<Datagram>)
    requires SideSafe(e, peerEmitted) && peerEmitted <= more
    ensures SideSafe(e, more)
  {
    hide GoodFrame;
    assert more == peerEmitted + more[|peerEmitted|..];
    forall i | 0 <= i < |e.session.paths| ensures GoodFrames(more, e.session.paths[i].inbox) {
      MoreEmitted(peerEmitted, more[|peerEmitted|..], e.session.paths[i].inbox);
    }
  }

  lemma CarrySafe(w: World, sender: Side, frame: Frame, onto: nat)
    requires Safe(w) && onto < |w.Of(sender.Peer()).session.paths| && GoodFrame(w.Of(sender).emitted, frame)
    ensures var peer := w.Of(sender.Peer());
            SideSafe(peer.(session := peer.session.(paths := Arrive(peer.session.paths, onto, frame))),
                     w.Of(sender).emitted)
  {
    hide GoodFrame, Received;
    var peer := w.Of(sender.Peer());
    var t := peer.session.(paths := Arrive(peer.session.paths, onto, frame));
    SameReceived(peer.session, t, peer.delivered, w.Of(sender).emitted);
  }

  lemma StepSafe(cs: Configs, w: World, e: Event)
    requires w.Fits() && Safe(w) && NoWrap(Step(cs, w, e))
    ensures Safe(Step(cs, w, e))
    ensures w.a.emitted <= Step(cs, w, e).a.emitted && w.b.emitted <= Step(cs, w, e).b.emitted
  {
    hide Called, SideSafe;
    if e.Wait? {
    } else if e.Carry? {
      if CanCarry(w, e) {
        var frame := w.Of(e.sender).session.paths[e.path].sent[e.index];
        assert GoodFrame(w.Of(e.sender).emitted, frame) by { SentFrameGood(w, e.sender, e.path, e.index); }
        CarrySafe(w, e.sender, frame, e.onto);
      }
    } else {
      var peer := w.Of(e.side.Peer());
      CalledSafe(cs, w.Of(e.side), e, w.nowUs, peer.emitted);
      PeerStaysSafe(peer, w.Of(e.side).emitted, Called(cs, w.Of(e.side), e, w.nowUs).emitted);
    }
  }

  lemma SentFrameGood(w: World, side: Side, path: nat, index: nat)
    requires Safe(w) && path < |w.Of(side).session.paths| && index < |w.Of(side).session.paths[path].sent|
    ensures GoodFrame(w.Of(side).emitted, w.Of(side).session.paths[path].sent[index])
  {
    hide GoodFrame;
    assert GoodFrames(w.Of(side).emitted, w.Of(side).session.paths[path].sent);
  }

  /** Each step only adds to what either side has emitted. */
  lemma StepGrows(cs: Configs, w: World, e: Event)
    requires w.Fits()
    ensures w.a.emitted <= Step(cs, w, e).a.emitted && w.b.emitted <= Step(cs, w, e).b.emitted
  {
    hide Flush, FlushLog, Poll, TickPath;
  }

  lemma {:induction false} RunSafe(cs: Configs, w: World, es: seq<Event>)
    requires Initial(w) && w.Fits() && NoWrap(Run(cs, w, es))
    ensures Safe(Run(cs, w, es))
  {
    hide Safe, Step;
    if es == [] {
      InitialSafe(w);
    } else {
      var before := Run(cs, w, es[..|es| - 1]);
      StepGrows(cs, before, es[|es| - 1]);
      RunSafe(cs, w, es[..|es| - 1]);
      StepSafe(cs, before, es[|es| - 1]);
    }
  }

  // ---------- Counting by path ----------

  function Names(paths: seq<PathValue>): (r: seq<string>)
    ensures |r| == |paths| && forall i :: 0 <= i < |r| ==> r[i] == paths[i].name
  {
    seq(|paths|, i requires 0 <= i < |paths| => paths[i].name)
  }

  function Total(counts: map<string, int>, names: seq<string>): int {
    if names == [] then 0 else Total(counts, names[..|names| - 1]) + Count(counts, names[|names| - 1])
  }

  ghost predicate KnownWinners(ds: seq<Delivery>, names: seq<string>) {
    forall k :: 0 <= k < |ds| ==> ds[k].winner in names
  }

  lemma {:induction false} GroupsKnown(s: SessionValue, data: seq<Copy>, numbers: seq<int>)
    requires CopiesFit(s, data) && forall n :: n in numbers ==> CopiesOf(data, n) != []
    ensures KnownWinners(TakeGroups(s, data, numbers).delivered, Names(s.paths))
  {
    hide TakeGroups, CopiesOf, TakeGroup;
    if numbers == [] {
      TakeGroupsNone(s, data);
    } else {
      var before := TakeGroups(s, data, numbers[..|numbers| - 1]);
      GroupsKnown(s, data, numbers[..|numbers| - 1]);
      TakeGroupsTurn(s, data, numbers);
      GroupsSamePaths(s, data, numbers[..|numbers| - 1]);
      assert Names(before.session.paths) == Names(s.paths);
      var copies := CopiesOf(data, numbers[|numbers| - 1]);
      assert DeliveryOf(before.session, copies).winner == Names(before.session.paths)[copies[0].path];
    }
  }

  lemma PollKnown(c: Config, s: SessionValue, nowUs: int)
    requires PathIdsFit(s.paths)
    ensures KnownWinners(Poll(c, s, nowUs).delivered, Names(s.paths))
  {
    hide AbsorbAll, TakeGroups;
    var heard := HeardBy(c, s);
    var absorbed := AbsorbAll(c, Drained(s.paths), heard, nowUs);
    var data := DataCopies(heard);
    assert Names(absorbed) == Names(s.paths);
    GroupsKnown(s.(paths := absorbed), data, FirstSeen(data));
  }

  lemma {:induction false} RunKnown(cs: Configs, w: World, es: seq<Event>, side: Side)
    requires Initial(w) && w.Fits()
    ensures SamePaths(w.Of(side).session.paths, Run(cs, w, es).Of(side).session.paths)
    ensures KnownWinners(Run(cs, w, es).Of(side).delivered, Names(w.Of(side).session.paths))
  {
    if es != [] {
      hide Step, KnownWinners;
      var before := Run(cs, w, es[..|es| - 1]);
      RunKnown(cs, w, es[..|es| - 1], side);
      StepSamePaths(cs, before, es[|es| - 1]);
      assert Names(before.Of(side).session.paths) == Names(w.Of(side).session.paths);
      StepKnown(cs, before, es[|es| - 1], side);
    }
  }

  lemma StepKnown(cs: Configs, w: World, e: Event, side: Side)
    requires w.Fits() && KnownWinners(w.Of(side).delivered, Names(w.Of(side).session.paths))
    ensures KnownWinners(Step(cs, w, e).Of(side).delivered, Names(w.Of(side).session.paths))
  {
    hide Flush, FlushLog, Poll, TickPath;
    if e.PollCall? && e.side == side {
      PollKnown(cs.Of(side), w.Of(side).session, w.nowUs);
    }
  }

  lemma {:induction false} TotalIsLength(counts: map<string, int>, ds: seq<Delivery>, names: seq<string>)
    requires forall i, j :: 0 <= i < j < |names| ==> names[i] != names[j]
    requires CountsAgree(counts, ds)
    ensures KnownWinners(ds, names) ==> Total(counts, names) == |ds|
  {
    TotalIsWins(counts, ds, names);
    WinsAddUp(ds, names);
  }

  function WinsOf(ds: seq<Delivery>, names: seq<string>): nat {
    if names == [] then 0 else WinsOf(ds, names[..|names| - 1]) + Wins(ds, names[|names| - 1])
  }

  lemma {:induction false} TotalIsWins(counts: map<string, int>, ds: seq<Delivery>, names: seq<string>)
    requires CountsAgree(counts, ds)
    ensures Total(counts, names) == WinsOf(ds, names)
  {
    if names != [] {
      TotalIsWins(counts, ds, names[..|names| - 1]);
    }
  }

  lemma {:induction false} WinsAddUp(ds: seq<Delivery>, names: seq<string>)
    requires forall i, j :: 0 <= i < j < |names| ==> names[i] != names[j]
    ensures KnownWinners(ds, names) ==> WinsOf(ds, names) == |ds|
  {
    if ds == [] {
      NoWins(names);
    } else {
      WinsAddUp(ds[..|ds| - 1], names);
      OneMoreWin(ds, names);
    }
  }

  lemma {:induction false} NoWins(names: seq<string>)
    ensures WinsOf([], names) == 0
  {
    if names != [] {
      NoWins(names[..|names| - 1]);
    }
  }

  lemma {:induction false} OneMoreWin(ds: seq<Delivery>, names: seq<string>)
    requires ds != [] && forall i, j :: 0 <= i < j < |names| ==> names[i] != names[j]
    ensures WinsOf(ds, names) == WinsOf(ds[..|ds| - 1], names) + if ds[|ds| - 1].winner in names then 1 else 0
  {
    if names != [] {
      OneMoreWin(ds, names[..|names| - 1]);
      assert ds[|ds| - 1].winner in names <==>
             ds[|ds| - 1].winner in names[..|names| - 1] || ds[|ds| - 1].winner == names[|names| - 1];
    }
  }

  /**
    Whatever the network does and whatever is called on either side: no number is delivered
    twice, each delivered payload and class is what the peer emitted under that number, and
    `delivered_by_path` counts each path's wins and sums to the number of deliveries.
   */
  lemma {:induction false} NeverTwiceNeverForged(cs: Configs, w: World, es: seq<Event>, side: Side)
    requires Initial(w) && w.Fits() && NoWrap(Run(cs, w, es))
    requires var names := Names(w.Of(side).session.paths); forall i, j :: 0 <= i < j < |names| ==> names[i] != names[j]
    ensures var me, peer := Run(cs, w, es).Of(side), Run(cs, w, es).Of(side.Peer());
            && Distinct(me.delivered)
            && Authentic(me.delivered, peer.emitted)
            && CountsAgree(me.session.deliveredByPath, me.delivered)
            && Total(me.session.deliveredByPath, Names(w.Of(side).session.paths)) == |me.delivered|
  {
    RunSafe(cs, w, es);
    RunKnown(cs, w, es, side);
    var me := Run(cs, w, es).Of(side);
    TotalIsLength(me.session.deliveredByPath, me.delivered, Names(w.Of(side).session.paths));
  }

  // ---------- One clean path suffices ----------

  /** A data frame of this session, as the receiver's poll sees it. */
  predicate IsData(c: Config, f: Frame) {
    IsOurs(c, f) && !Decode(f).value.IsControlPlane()
  }

  lemma {:induction false} AcceptedAll(c: Config, incoming: seq<Arrival>, j: nat)
    requires j < |incoming| && IsOurs(c, incoming[j].frame)
    ensures exists k :: 0 <= k < |Accepted(c, incoming)| && IsCopyOf(c, incoming[j], Accepted(c, incoming)[k])
  {
    hide Decode;
    var before := Accepted(c, incoming[..|incoming| - 1]);
    if j < |incoming| - 1 {
      AcceptedAll(c, incoming[..|incoming| - 1], j);
      var k :| 0 <= k < |before| && IsCopyOf(c, incoming[j], before[k]);
      assert Accepted(c, incoming)[k] == before[k];
    } else {
      assert IsCopyOf(c, incoming[j], Accepted(c, incoming)[|before|]);
    }
  }

  lemma {:induction false} DataCopiesAll(heard: seq<Copy>, k: nat)
    requires k < |heard| && !heard[k].pkt.IsControlPlane()
    ensures exists n :: 0 <= n < |DataCopies(heard)| && DataCopies(heard)[n] == heard[k]
  {
    var before := DataCopies(heard[..|heard| - 1]);
    if k < |heard| - 1 {
      DataCopiesAll(heard[..|heard| - 1], k);
      var n :| 0 <= n < |before| && before[n] == heard[k];
      assert DataCopies(heard)[n] == heard[k];
    } else {
      assert DataCopies(heard)[|before|] == heard[k];
    }
  }

  lemma {:induction false} IncomingAll(paths: seq<PathValue>, i: nat, n: nat)
    requires i < |paths| && n < |paths[i].inbox|
    ensures exists j :: 0 <= j < |Incoming(paths)| && Incoming(paths)[j].frame == paths[i].inbox[n]
  {
    var before := Incoming(paths[..|paths| - 1]);
    if i < |paths| - 1 {
      IncomingAll(paths[..|paths| - 1], i, n);
      var j :| 0 <= j < |before| && before[j].frame == paths[i].inbox[n];
      assert Incoming(paths)[j] == before[j];
    } else {
      assert Incoming(paths)[|before| + n].frame == paths[i].inbox[n];
    }
  }

  /** A waiting data frame puts its number among the poll's. */
  lemma WaitingIsSeen(c: Config, s: SessionValue, i: nat, n: nat)
    requires PathIdsFit(s.paths) && i < |s.paths| && n < |s.paths[i].inbox| && IsData(c, s.paths[i].inbox[n])
    ensures Decode(s.paths[i].inbox[n]).value.seqNo in FirstSeen(DataCopies(HeardBy(c, s)))
  {
    hide Decode, FirstSeen, DataCopies, Accepted, Incoming;
    IncomingAll(s.paths, i, n);
    var incoming, heard := Incoming(s.paths), HeardBy(c, s);
    var j :| 0 <= j < |incoming| && incoming[j].frame == s.paths[i].inbox[n];
    AcceptedAll(c, incoming, j);
    var k :| 0 <= k < |heard| && IsCopyOf(c, incoming[j], heard[k]);
    DataCopiesAll(heard, k);
  }

  lemma {:induction false} GroupsDeliver(s: SessionValue, ds: seq<Delivery>, emitted: seq<Datagram>, data: seq<Copy>,
                                         numbers: seq<int>, n: int)
    requires CopiesFit(s, data) && forall m :: m in numbers ==> CopiesOf(data, m) != []
    requires Received(s, ds, emitted)
    requires forall k :: 0 <= k < |data| ==> !data[k].pkt.IsControlPlane() && GoodPacket(emitted, data[k].pkt)
    requires n in numbers && |emitted| - n < s.window.size
    ensures n in Numbers(ds + TakeGroups(s, data, numbers).delivered)
  {
    hide GoodPacket, Received, TakeGroup, DeliveryOf, CopiesOf, TakeGroups, Numbers;
    var before, last := numbers[..|numbers| - 1], numbers[|numbers| - 1];
    var polled := TakeGroups(s, data, before);
    var copies := CopiesOf(data, last);
    var log := ds + polled.delivered;
    TakeGroupsTurn(s, data, numbers);
    GroupsReceived(s, ds, emitted, data, before);
    GroupsKeepSize(s, data, before);
    assert log + Delivered(polled.session, copies) == ds + TakeGroups(s, data, numbers).delivered;
    if n == last {
      GroupDelivers(polled.session, log, emitted, copies);
    } else {
      assert n in before;
      GroupsDeliver(s, ds, emitted, data, before, n);
      NumbersKept(log, Delivered(polled.session, copies), n);
    }
  }

  lemma {:induction false} GroupsKeepSize(s: SessionValue, data: seq<Copy>, numbers: seq<int>)
    requires CopiesFit(s, data) && forall n :: n in numbers ==> CopiesOf(data, n) != []
    ensures TakeGroups(s, data, numbers).session.window.size == s.window.size
  {
    hide TakeGroups, CopiesOf;
    if numbers == [] {
      TakeGroupsNone(s, data);
    } else {
      GroupsKeepSize(s, data, numbers[..|numbers| - 1]);
      TakeGroupsTurn(s, data, numbers);
    }
  }

  lemma NumbersKept(ds: seq<Delivery>, more: seq<Delivery>, n: int)
    requires n in Numbers(ds)
    ensures n in Numbers(ds + more)
  {
    var k :| 0 <= k < |ds| && ds[k].seqNo == n;
    assert (ds + more)[k].seqNo == n;
  }

  /** A number close enough to everything emitted is in the log once its group was taken. */
  lemma GroupDelivers(s: SessionValue, ds: seq<Delivery>, emitted: seq<Datagram>, copies: seq<Copy>)
    requires copies != [] && forall k :: 0 <= k < |copies| ==> copies[k].path < |s.paths|
    requires Received(s, ds, emitted) && |emitted| - copies[0].pkt.seqNo < s.window.size
    ensures copies[0].pkt.seqNo in Numbers(ds + Delivered(s, copies))
  {
    hide DeliveryOf, Refines;
    var n := copies[0].pkt.seqNo;
    ObserveRefines(s.window, History(s.window, ds), n);
    DeliveryFields(s, copies);
    if s.window.Judge(n) == Deliver {
      NumbersGrow(ds, DeliveryOf(s, copies));
    } else {
      assert ds + [] == ds;
    }
  }

  /** A poll delivers, or already had, every waiting number fewer than `dedupe_window` emits old. */
  lemma PolledInTime(c: Config, e: Endpoint, peerEmitted: seq<Datagram>, nowUs: int, i: nat, n: nat)
    requires PathIdsFit(e.session.paths) && SideSafe(e, peerEmitted)
    requires i < |e.session.paths| && n < |e.session.paths[i].inbox| && IsData(c, e.session.paths[i].inbox[n])
    requires |peerEmitted| - Decode(e.session.paths[i].inbox[n]).value.seqNo < e.session.window.size
    ensures Decode(e.session.paths[i].inbox[n]).value.seqNo in Numbers(e.delivered + Poll(c, e.session, nowUs).delivered)
  {
    hide Received, GoodFrame, GoodPacket, AbsorbAll, TakeGroups, HeardBy, Decode, FirstSeen, DataCopies, Numbers;
    var s := e.session;
    var heard := HeardBy(c, s);
    var data := DataCopies(heard);
    WaitingIsSeen(c, s, i, n);
    HeardGood(c, s, peerEmitted);
    var absorbed := s.(paths := AbsorbAll(c, Drained(s.paths), heard, nowUs));
    assert Received(absorbed, e.delivered, peerEmitted) by { SameReceived(s, absorbed, e.delivered, peerEmitted); }
    forall k | 0 <= k < |data| ensures !data[k].pkt.IsControlPlane() && GoodPacket(peerEmitted, data[k].pkt) {
      assert data[k] in heard;
    }
    GroupsDeliver(absorbed, e.delivered, peerEmitted, data, FirstSeen(data), Decode(s.paths[i].inbox[n]).value.seqNo);
  }
}
