/**
  The two send queues over every run: control leaves before media, each queue in its order, and
  every datagram that was accepted is waiting or has got a number, once.
 */
module MlinkQueues {
  import opened Wrappers
  import opened Bytes
  import opened MlinkHeader
  import opened MlinkDedupe
  import opened MlinkPath
  import opened MlinkSteps
  import opened MlinkNetwork
  import opened MlinkSafety
  import opened MlinkDelivery

  function Waiting(s: SessionValue): seq<Datagram> {
    s.qControl + s.qMedia
  }

  /** The numbers after n, in order. */
  function NumbersFrom(n: int, count: nat): (r: seq<int>)
    ensures |r| == count && forall k :: 0 <= k < count ==> r[k] == n + 1 + k
  {
    seq(count, k => n + 1 + k)
  }

  lemma PopsHead(s: SessionValue)
    requires Waiting(s) != []
    ensures s.qControl != [] || s.qMedia != []
    ensures Waiting(s) == [Head(s)] + Waiting(Popped(s))
  {
  }

  /**
    A drain takes all control datagrams before any media one, each queue in its order, and numbers
    them consecutively. Only a datagram that cannot be encoded stops it: that one has its number
    and is lost, and what was behind it still waits.
   */
  lemma {:induction false} DrainsControlFirst(c: Config, s: SessionValue, clock: seq<int>)
    requires PathIdsFit(s.paths)
    ensures var log, f := FlushLog(c, s, clock), Flush(c, s, clock);
            && Waiting(s) == log + Waiting(f.session)
            && f.session.seqNo == s.seqNo + |log|
            && f.seqs == NumbersFrom(s.seqNo, if f.raised then |log| - 1 else |log|)
            && (f.raised ==> log != [] && !Encodable(log[|log| - 1]))
            && (!f.raised ==> Waiting(f.session) == [])
    decreases |s.qControl| + |s.qMedia|
  {
    hide Emit, EmitRaises, Flush, FlushLog;
    if s.qControl == [] && s.qMedia == [] {
      FlushDone(c, s, clock);
      FlushLogDone(c, s, clock);
    } else {
      FlushTurn(c, s, clock);
      FlushLogTurn(c, s, clock);
      PopsHead(s);
      var next := Emit(c, Popped(s), Head(s), Reading(clock, 0));
      EmitKeepsQueues(c, Popped(s), Head(s), Reading(clock, 0));
      if EmitRaises(c, Popped(s), Head(s)) {
        RaisesUnencodable(c, Popped(s), Head(s));
      } else {
        DrainsControlFirst(c, next, Later(clock));
        var rest, f := FlushLog(c, next, Later(clock)), Flush(c, next, Later(clock));
        assert [Head(s)] + (rest + Waiting(f.session)) == [Head(s)] + rest + Waiting(f.session);
        assert [next.seqNo] + NumbersFrom(next.seqNo, |f.seqs|) == NumbersFrom(s.seqNo, |f.seqs| + 1);
      }
    }
  }

  /** After a drain of n datagrams each queue has lost its front, control first. */
  ghost predicate Shortened(s: SessionValue, t: SessionValue, n: nat) {
    if n <= |s.qControl| then t.qControl == s.qControl[n..] && t.qMedia == s.qMedia
    else n - |s.qControl| <= |s.qMedia| && t.qControl == [] && t.qMedia == s.qMedia[n - |s.qControl|..]
  }

  lemma ShorterStill(s: SessionValue, t: SessionValue, n: nat)
    requires Waiting(s) != [] && Shortened(Popped(s), t, n)
    ensures Shortened(s, t, n + 1)
  {
  }

  lemma {:induction false} DrainShortens(c: Config, s: SessionValue, clock: seq<int>)
    requires PathIdsFit(s.paths)
    ensures Shortened(s, Flush(c, s, clock).session, |FlushLog(c, s, clock)|)
    decreases |s.qControl| + |s.qMedia|
  {
    hide Emit, EmitRaises, Flush, FlushLog, Head;
    if s.qControl == [] && s.qMedia == [] {
      FlushDone(c, s, clock);
      FlushLogDone(c, s, clock);
    } else {
      hide Shortened;
      FlushTurn(c, s, clock);
      FlushLogTurn(c, s, clock);
      var next := Emit(c, Popped(s), Head(s), Reading(clock, 0));
      EmitKeepsQueues(c, Popped(s), Head(s), Reading(clock, 0));
      if EmitRaises(c, Popped(s), Head(s)) {
        assert Shortened(Popped(s), next, 0) by { NoShorter(Popped(s), next); }
        ShorterStill(s, next, 0);
      } else {
        DrainShortens(c, next, Later(clock));
        var t, n := Flush(c, next, Later(clock)).session, |FlushLog(c, next, Later(clock))|;
        assert Shortened(Popped(s), t, n) by { SameQueues(Popped(s), next, t, n); }
        ShorterStill(s, t, n);
      }
    }
  }

  lemma NoShorter(s: SessionValue, t: SessionValue)
    requires t.qControl == s.qControl && t.qMedia == s.qMedia
    ensures Shortened(s, t, 0)
  {
  }

  lemma SameQueues(s: SessionValue, next: SessionValue, t: SessionValue, n: nat)
    requires next.qControl == s.qControl && next.qMedia == s.qMedia && Shortened(next, t, n)
    ensures Shortened(s, t, n)
  {
  }

  lemma EmitKeepsQueues(c: Config, s: SessionValue, item: Datagram, nowUs: int)
    requires PathIdsFit(s.paths)
    ensures var t := Emit(c, s, item, nowUs);
            t.qControl == s.qControl && t.qMedia == s.qMedia && t.seqNo == s.seqNo + 1 && PathIdsFit(t.paths)
  {
    EmitOnlySent(c, s, item, nowUs);
  }

  lemma RaisesUnencodable(c: Config, s: SessionValue, item: Datagram)
    requires EmitRaises(c, s, item)
    ensures !Encodable(item)
  {
  }

  // ---------- The number that send returns ----------

  /** The number under which an accepted datagram leaves: behind its own queue, and media behind control. */
  function OwnNumber(s: SessionValue, item: Datagram): int {
    s.seqNo + 1 + |s.qControl| + if item.trafficClass == TC_MEDIA then |s.qMedia| else 0
  }

  /**
    What `send` returns is the last number of the drain. It is the datagram's own number exactly
    when the datagram is media, or no media was waiting.
   */
  lemma SendReturnsLastNumber(c: Config, s: SessionValue, item: Datagram, clock: seq<int>)
    requires PathIdsFit(s.paths) && SendRefusal(c, item) == None && !MediaDropped(c, s, item)
    requires !Flush(c, Queued(c, s, item), clock).raised
    ensures var reply, log, own := SendReply(c, s, item, clock), SendLog(c, s, item, clock), OwnNumber(s, item);
            && reply.Ok? && reply.value.Some? && s.seqNo < own <= s.seqNo + |log| && log[own - s.seqNo - 1] == item
            && (reply.value.value == own <==> item.trafficClass == TC_MEDIA || s.qMedia == [])
  {
    hide Flush, FlushLog;
    var q := Queued(c, s, item);
    DrainsControlFirst(c, q, clock);
    assert Waiting(q) == SendLog(c, s, item, clock) + [] == SendLog(c, s, item, clock);
    assert Waiting(q)[OwnNumber(s, item) - s.seqNo - 1] == item;
  }

  /** A run of two calls in which it is not: media is queued, control is sent, and the media's number comes back. */
  lemma SendCanReturnAnother(c: Config, s: SessionValue, media: Datagram, control: Datagram, clock: seq<int>)
    requires JustStarted(s) && PathIdsFit(s.paths) && s.qControl == [] && s.qMedia == [] && c.maxMediaQueue >= 1
    requires Encodable(media) && Encodable(control) && |media.payload| <= c.maxPayload && |control.payload| <= c.maxPayload
    requires media.trafficClass == TC_MEDIA && control.trafficClass == TC_CONTROL
    ensures var queued := Enqueue(c, s, media);
            && SendReply(c, queued, control, clock) == Ok(Some(2)) && SendLog(c, queued, control, clock) == [control, media]
  {
    hide Flush, FlushLog;
    var queued := Enqueue(c, s, media);
    var q := Queued(c, queued, control);
    assert queued.qMedia == [media] && q.qControl == [control];
    DrainsControlFirst(c, q, clock);
    assert Waiting(q) == [control, media];
    AllEncodable(c, q, clock);
    assert SendLog(c, queued, control, clock) + [] == [control, media];
  }

  lemma AllEncodable(c: Config, s: SessionValue, clock: seq<int>)
    requires PathIdsFit(s.paths) && forall k :: 0 <= k < |Waiting(s)| ==> Encodable(Waiting(s)[k])
    ensures !Flush(c, s, clock).raised
  {
    hide Flush, FlushLog, Encodable;
    DrainsControlFirst(c, s, clock);
    var log, rest := FlushLog(c, s, clock), Waiting(Flush(c, s, clock).session);
    assert forall k :: 0 <= k < |log| ==> log[k] == (log + rest)[k];
  }

  // ---------- Over every run ----------

  predicate OfClass(item: Datagram, media: bool) {
    (item.trafficClass == TC_MEDIA) == media
  }

  /** Those of one class, in order. */
  function Only(items: seq<Datagram>, media: bool): seq<Datagram> {
    if items == [] then []
    else Only(items[..|items| - 1], media) + if OfClass(items[|items| - 1], media) then [items[|items| - 1]] else []
  }

  lemma {:induction false} OnlyAppends(a: seq<Datagram>, b: seq<Datagram>, media: bool)
    ensures Only(a + b, media) == Only(a, media) + Only(b, media)
  {
    if b == [] {
      assert a + b == a;
    } else {
      hide OfClass;
      OnlyAppends(a, b[..|b| - 1], media);
      assert (a + b)[..|a + b| - 1] == a + b[..|b| - 1];
    }
  }

  lemma {:induction false} OnlyAll(items: seq<Datagram>, media: bool)
    requires forall k :: 0 <= k < |items| ==> OfClass(items[k], media)
    ensures Only(items, media) == items && Only(items, !media) == []
  {
    if items != [] {
      OnlyAll(items[..|items| - 1], media);
    }
  }

  /** Each queue holds its class, and media waits within its limit. */
  ghost predicate Sorted(s: SessionValue) {
    && (forall k :: 0 <= k < |s.qControl| ==> OfClass(s.qControl[k], false))
    && (forall k :: 0 <= k < |s.qMedia| ==> OfClass(s.qMedia[k], true))
  }

  /** The datagram a call is given, if the call takes it in. */
  function TakenIn(c: Config, s: SessionValue, e: Event): seq<Datagram>
    requires !e.Carry? && !e.Wait?
  {
    var full := |s.qMedia| >= c.maxMediaQueue;
    match e
    case SendCall(_, item, _) =>
      if |item.payload| <= c.maxPayload && |item.payload| <= 1440
         && (item.trafficClass == TC_CONTROL || (item.trafficClass == TC_MEDIA && !full)) then [item] else []
    case EnqueueCall(_, item) =>
      if |item.payload| <= c.maxPayload && (item.trafficClass != TC_MEDIA || !full) then [item] else []
    case _ => []
  }

  /** Everything this side's calls took in, in order. */
  function AllTakenIn(cs: Configs, w: World, es: seq<Event>, side: Side): seq<Datagram>
    requires w.Fits()
  {
    if es == [] then []
    else
      var before, e := Run(cs, w, es[..|es| - 1]), es[|es| - 1];
      AllTakenIn(cs, w, es[..|es| - 1], side)
      + if !e.Carry? && !e.Wait? && e.side == side then TakenIn(cs.Of(side), before.Of(side).session, e) else []
  }

  function QueueOf(s: SessionValue, media: bool): seq<Datagram> {
    if media then s.qMedia else s.qControl
  }

  /** Numbered, then waiting. */
  function Account(e: Endpoint, media: bool): seq<Datagram> {
    Only(e.emitted, media) + QueueOf(e.session, media)
  }

  lemma QueuedSorted(c: Config, s: SessionValue, item: Datagram)
    requires Sorted(s)
    ensures Sorted(Queued(c, s, item))
  {
  }

  /** A drain moves datagrams from the queues to the numbered ones. */
  lemma FlushAccount(c: Config, s: SessionValue, emitted: seq<Datagram>, clock: seq<int>, media: bool)
    requires PathIdsFit(s.paths) && Sorted(s)
    ensures var t, log := Flush(c, s, clock).session, FlushLog(c, s, clock);
            && Sorted(t) && Only(emitted + log, media) + QueueOf(t, media) == Only(emitted, media) + QueueOf(s, media)
  {
    hide Flush, FlushLog, Only, OfClass, Waiting, Shortened, Sorted, QueueOf;
    DrainsControlFirst(c, s, clock);
    DrainShortens(c, s, clock);
    var t, log := Flush(c, s, clock).session, FlushLog(c, s, clock);
    OnlyAppends(emitted, log, media);
    ShortenedAccount(s, t, log, media);
    assert Only(emitted, media) + Only(log, media) + QueueOf(t, media) == Only(emitted, media) + (Only(log, media) + QueueOf(t, media));
  }

  lemma ShortenedAccount(s: SessionValue, t: SessionValue, log: seq<Datagram>, media: bool)
    requires Sorted(s) && Shortened(s, t, |log|) && Waiting(s) == log + Waiting(t)
    ensures Sorted(t) && Only(log, media) + QueueOf(t, media) == QueueOf(s, media)
  {
    hide Only, OfClass;
    assert log == Waiting(s)[..|log|];
    if |log| <= |s.qControl| {
      assert log == s.qControl[..|log|];
      ControlShortened(s, t, log, media);
    } else {
      var sent := s.qMedia[..|log| - |s.qControl|];
      assert log == s.qControl + sent;
      MediaShortened(s, t, sent, media);
    }
  }

  lemma ControlShortened(s: SessionValue, t: SessionValue, log: seq<Datagram>, media: bool)
    requires Sorted(s) && s.qControl == log + t.qControl && t.qMedia == s.qMedia
    ensures Sorted(t) && Only(log, media) + QueueOf(t, media) == QueueOf(s, media)
  {
    hide Only, OfClass;
    forall k | 0 <= k < |log| ensures OfClass(log[k], false) {
      assert log[k] == s.qControl[k];
    }
    forall k | 0 <= k < |t.qControl| ensures OfClass(t.qControl[k], false) {
      assert t.qControl[k] == s.qControl[|log| + k];
    }
    OnlyAll(log, false);
    assert [] + t.qMedia == t.qMedia;
  }

  lemma MediaShortened(s: SessionValue, t: SessionValue, sent: seq<Datagram>, media: bool)
    requires Sorted(s) && t.qControl == [] && s.qMedia == sent + t.qMedia
    ensures Sorted(t) && Only(s.qControl + sent, media) + QueueOf(t, media) == QueueOf(s, media)
  {
    hide Only, OfClass;
    forall k | 0 <= k < |sent| ensures OfClass(sent[k], true) {
      assert sent[k] == s.qMedia[k];
    }
    forall k | 0 <= k < |t.qMedia| ensures OfClass(t.qMedia[k], true) {
      assert t.qMedia[k] == s.qMedia[|sent| + k];
    }
    OnlyAppends(s.qControl, sent, media);
    OnlyAll(s.qControl, false);
    OnlyAll(sent, true);
    assert s.qControl + [] == s.qControl && [] + sent == sent;
  }

  lemma CalledAccount(cs: Configs, en: Endpoint, e: Event, nowUs: int, media: bool)
    requires PathIdsFit(en.session.paths) && !e.Carry? && !e.Wait? && Sorted(en.session)
    ensures var t := Called(cs, en, e, nowUs);
            && Sorted(t.session)
            && Account(t, media) == Account(en, media) + Only(TakenIn(cs.Of(e.side), en.session, e), media)
            && (|en.session.qMedia| <= cs.Of(e.side).maxMediaQueue ==> |t.session.qMedia| <= cs.Of(e.side).maxMediaQueue)
  {
    hide Flush, FlushLog, Poll, TickPath, Only;
    var c, s := cs.Of(e.side), en.session;
    assert Account(en, media) + [] == Account(en, media);
    assert Only([], media) == [] by { OnlyAll([], media); }
    match e
    case SendCall(_, item, clock) =>
      if TakenIn(c, s, e) == [item] {
        OneTaken(en, Queued(c, s, item), item, media);
        QueuedSorted(c, s, item);
        FlushAccount(c, Queued(c, s, item), en.emitted, clock, media);
        DrainShortens(c, Queued(c, s, item), clock);
      } else {
        assert en.emitted + [] == en.emitted;
      }
    case EnqueueCall(_, item) =>
      QueuedSorted(c, s, item);
      if TakenIn(c, s, e) == [item] {
        OneTaken(en, Queued(c, s, item), item, media);
      }
    case FlushCall(_, clock) =>
      FlushAccount(c, s, en.emitted, clock, media);
      DrainShortens(c, s, clock);
    case TickCall(_, clock) =>
    case PollCall(_) => PollKeepsQueues(c, s, nowUs);
  }

  lemma OneTaken(en: Endpoint, t: SessionValue, item: Datagram, media: bool)
    requires t.qControl == if item.trafficClass == TC_MEDIA then en.session.qControl else en.session.qControl + [item]
    requires t.qMedia == if item.trafficClass == TC_MEDIA then en.session.qMedia + [item] else en.session.qMedia
    ensures Only(en.emitted, media) + QueueOf(t, media) == Account(en, media) + Only([item], media)
  {
    assert [item][..0] == [] && Only([], media) == [];
    assert Only([item], media) == [] + if OfClass(item, media) then [item] else [];
  }

  lemma {:induction false} GroupsKeepQueues(s: SessionValue, data: seq<Copy>, numbers: seq<int>)
    requires CopiesFit(s, data) && forall n :: n in numbers ==> CopiesOf(data, n) != []
    ensures var t := TakeGroups(s, data, numbers).session; t.qControl == s.qControl && t.qMedia == s.qMedia
  {
    hide TakeGroups, CopiesOf;
    if numbers == [] {
      TakeGroupsNone(s, data);
    } else {
      GroupsKeepQueues(s, data, numbers[..|numbers| - 1]);
      TakeGroupsTurn(s, data, numbers);
    }
  }

  lemma PollKeepsQueues(c: Config, s: SessionValue, nowUs: int)
    requires PathIdsFit(s.paths)
    ensures var t := Poll(c, s, nowUs).session; t.qControl == s.qControl && t.qMedia == s.qMedia
  {
    hide AbsorbAll, TakeGroups;
    var heard := HeardBy(c, s);
    var data := DataCopies(heard);
    GroupsKeepQueues(s.(paths := AbsorbAll(c, Drained(s.paths), heard, nowUs)), data, FirstSeen(data));
  }

  lemma StepAccount(cs: Configs, w: World, e: Event, side: Side, media: bool)
    requires w.Fits() && Sorted(w.Of(side).session)
    ensures var en, t := w.Of(side), Step(cs, w, e).Of(side);
            && Sorted(t.session)
            && Account(t, media)
               == Account(en, media)
                  + Only(TakenBy(cs, w, e, side), media)
            && (|en.session.qMedia| <= cs.Of(side).maxMediaQueue ==> |t.session.qMedia| <= cs.Of(side).maxMediaQueue)
  {
    hide Called, Only, TakenIn;
    assert Account(w.Of(side), media) + [] == Account(w.Of(side), media);
    assert Only([], media) == [] by { OnlyAll([], media); }
    if !e.Carry? && !e.Wait? && e.side == side {
      CalledAccount(cs, w.Of(side), e, w.nowUs, media);
    }
  }

  /**
    Conservation. Over every run and whatever is called, each class's datagrams that a side's calls
    took in are, in order, those that have got a number followed by those that wait: none is lost,
    invented, doubled or overtaken within its class. Media never waits beyond its limit.
   */
  lemma {:induction false} QueuesConserve(cs: Configs, w: World, es: seq<Event>, side: Side, media: bool)
    requires w.Fits() && Sorted(w.Of(side).session)
    ensures Sorted(Run(cs, w, es).Of(side).session)
    ensures Account(Run(cs, w, es).Of(side), media) == Account(w.Of(side), media) + Only(AllTakenIn(cs, w, es, side), media)
    ensures |w.Of(side).session.qMedia| <= cs.Of(side).maxMediaQueue ==>
              |Run(cs, w, es).Of(side).session.qMedia| <= cs.Of(side).maxMediaQueue
  {
    if es == [] {
      assert Run(cs, w, es) == w && AllTakenIn(cs, w, es, side) == [];
      assert Account(w.Of(side), media) + [] == Account(w.Of(side), media);
    } else {
      hide Step, Run, Account, Only, Sorted, TakenIn, AllTakenIn, TakenBy;
      var before, e := Run(cs, w, es[..|es| - 1]), es[|es| - 1];
      QueuesConserve(cs, w, es[..|es| - 1], side, media);
      StepAccount(cs, before, e, side, media);
      TakenTurn(cs, w, es, side);
      AccountTurn(w.Of(side), before.Of(side), Run(cs, w, es).Of(side), AllTakenIn(cs, w, es[..|es| - 1], side),
                  TakenBy(cs, before, e, side), media);
    }
  }

  lemma AccountTurn(start: Endpoint, before: Endpoint, after: Endpoint, earlier: seq<Datagram>, taken: seq<Datagram>, media: bool)
    requires Account(before, media) == Account(start, media) + Only(earlier, media)
    requires Account(after, media) == Account(before, media) + Only(taken, media)
    ensures Account(after, media) == Account(start, media) + Only(earlier + taken, media)
  {
    hide Account, Only;
    OnlyAppends(earlier, taken, media);
    assert Account(start, media) + (Only(earlier, media) + Only(taken, media))
        == Account(start, media) + Only(earlier, media) + Only(taken, media);
  }

  function TakenBy(cs: Configs, w: World, e: Event, side: Side): seq<Datagram> {
    if !e.Carry? && !e.Wait? && e.side == side then TakenIn(cs.Of(side), w.Of(side).session, e) else []
  }

  lemma TakenTurn(cs: Configs, w: World, es: seq<Event>, side: Side)
    requires w.Fits() && es != []
    ensures var before, e := Run(cs, w, es[..|es| - 1]), es[|es| - 1];
            && Run(cs, w, es) == Step(cs, before, e)
            && AllTakenIn(cs, w, es, side) == AllTakenIn(cs, w, es[..|es| - 1], side) + TakenBy(cs, before, e, side)
  {
  }
}
