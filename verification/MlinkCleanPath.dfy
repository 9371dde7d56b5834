/** If one path is eligible at every emit and its copies are polled in time, nothing is lost. */
module MlinkCleanPath {
  import opened Wrappers
  import opened Bytes
  import opened MlinkHeader
  import opened MlinkDedupe
  import opened MlinkPath
  import opened MlinkSteps
  import opened MlinkNetwork
  import opened MlinkSafety
  import opened MlinkDelivery

  /** A data frame of this session under this number. */
  predicate IsNumber(sessionId: nat, f: Frame, q: int) {
    && Decode(f).Ok? && Decode(f).value.sessionId == sessionId && !Decode(f).value.IsControlPlane()
    && Decode(f).value.seqNo == q
  }

  ghost predicate CopiedOn(sessionId: nat, sent: seq<Frame>, q: int) {
    exists n :: 0 <= n < |sent| && IsNumber(sessionId, sent[n], q)
  }

  /** A number given to a datagram that the encoder accepts. */
  predicate IsNumbered(emitted: seq<Datagram>, q: int) {
    1 <= q <= |emitted| && Encodable(emitted[q - 1])
  }

  ghost predicate AllCopied(sessionId: nat, sent: seq<Frame>, emitted: seq<Datagram>) {
    forall q :: IsNumbered(emitted, q) ==> CopiedOn(sessionId, sent, q)
  }

  lemma StaysCopied(sessionId: nat, sent: seq<Frame>, more: seq<Frame>, emitted: seq<Datagram>)
    requires AllCopied(sessionId, sent, emitted) && sent <= more
    ensures AllCopied(sessionId, more, emitted)
  {
    hide IsNumber;
    forall q | IsNumbered(emitted, q) ensures CopiedOn(sessionId, more, q) {
      assert CopiedOn(sessionId, sent, q);
      var n :| 0 <= n < |sent| && IsNumber(sessionId, sent[n], q);
      assert more[n] == sent[n];
    }
  }

  lemma EncodedNumber(c: Config, pathId: int, item: Datagram, q: int, nowUs: int)
    requires Encodable(item) && 0 <= pathId <= 255 && 1 <= q < WRAP && c.sessionId < WRAP
    ensures IsNumber(c.sessionId, Encode(DataPacket(c, pathId, item, q, nowUs)).value, q)
  {
    var p := DataPacket(c, pathId, item, q, nowUs);
    DecodeEncode(p, []);
    assert Encode(p).value + [] == Encode(p).value;
  }

  lemma EmitCopies(c: Config, s: SessionValue, emitted: seq<Datagram>, item: Datagram, nowUs: int, i: nat)
    requires PathIdsFit(s.paths) && c.sessionId < WRAP && |emitted| + 1 < WRAP && s.seqNo == |emitted|
    requires i < |s.paths| && s.paths[i].Eligible(c.lossThreshold)
    requires AllCopied(c.sessionId, s.paths[i].sent, emitted)
    ensures var p := Emit(c, s, item, nowUs).paths[i];
            p.Eligible(c.lossThreshold) && AllCopied(c.sessionId, p.sent, emitted + [item])
  {
    hide Encode, IsNumber, Encodable, PathValue.Loss;
    var p, q := s.paths[i], Emit(c, s, item, nowUs).paths[i];
    if Encodable(item) {
      EncodedNumber(c, p.pathId, item, s.seqNo + 1, nowUs);
      assert IsNumber(c.sessionId, q.sent[|p.sent|], s.seqNo + 1);
    }
    StaysCopied(c.sessionId, p.sent, q.sent, emitted);
    EligibleSends(p, q, c.lossThreshold);
    forall n | IsNumbered(emitted + [item], n) ensures CopiedOn(c.sessionId, q.sent, n) {
      assert n == |emitted| + 1 || IsNumbered(emitted, n);
    }
  }

  lemma EligibleSends(p: PathValue, q: PathValue, threshold: real)
    requires q == p.(sent := q.sent)
    ensures p.Eligible(threshold) == q.Eligible(threshold)
  {
  }

  lemma {:induction false} FlushCopies(c: Config, s: SessionValue, emitted: seq<Datagram>, clock: seq<int>, i: nat)
    requires PathIdsFit(s.paths) && c.sessionId < WRAP && |emitted| + |FlushLog(c, s, clock)| < WRAP
    requires s.seqNo == |emitted| && i < |s.paths| && s.paths[i].Eligible(c.lossThreshold)
    requires AllCopied(c.sessionId, s.paths[i].sent, emitted)
    ensures |Flush(c, s, clock).session.paths| == |s.paths|
    ensures AllCopied(c.sessionId, Flush(c, s, clock).session.paths[i].sent, emitted + FlushLog(c, s, clock))
    decreases |s.qControl| + |s.qMedia|
  {
    hide AllCopied, Emit, EmitRaises, Head, Flush, FlushLog, PathValue.Eligible;
    if s.qControl == [] && s.qMedia == [] {
      FlushDone(c, s, clock);
      FlushLogDone(c, s, clock);
      assert emitted + [] == emitted;
    } else {
      FlushLogTurn(c, s, clock);
      FlushTurn(c, s, clock);
      var item := Head(s);
      var next := Emit(c, Popped(s), item, Reading(clock, 0));
      EmitOnlySent(c, Popped(s), item, Reading(clock, 0));
      EmitCopies(c, Popped(s), emitted, item, Reading(clock, 0), i);
      if !EmitRaises(c, Popped(s), item) {
        FlushCopies(c, next, emitted + [item], Later(clock), i);
        assert emitted + [item] + FlushLog(c, next, Later(clock)) == emitted + FlushLog(c, s, clock);
      } else {
        assert FlushLog(c, s, clock) == [item];
      }
    }
  }

  // ---------- What was sent stays sent ----------

  ghost predicate SentGrows(ps: seq<PathValue>, qs: seq<PathValue>) {
    |ps| == |qs| && forall i :: 0 <= i < |ps| ==> ps[i].sent <= qs[i].sent
  }

  lemma EmitSentGrows(c: Config, s: SessionValue, item: Datagram, nowUs: int)
    requires PathIdsFit(s.paths)
    ensures SentGrows(s.paths, Emit(c, s, item, nowUs).paths)
  {
    hide Encode, Encodable, PathValue.Eligible;
  }

  lemma {:induction false} FlushSentGrows(c: Config, s: SessionValue, clock: seq<int>)
    requires PathIdsFit(s.paths)
    ensures SentGrows(s.paths, Flush(c, s, clock).session.paths)
    decreases |s.qControl| + |s.qMedia|
  {
    hide Emit, EmitRaises, Head, Flush;
    if s.qControl == [] && s.qMedia == [] {
      FlushDone(c, s, clock);
    } else {
      FlushTurn(c, s, clock);
      EmitSentGrows(c, Popped(s), Head(s), Reading(clock, 0));
      if !EmitRaises(c, Popped(s), Head(s)) {
        FlushSentGrows(c, Emit(c, Popped(s), Head(s), Reading(clock, 0)), Later(clock));
      }
    }
  }

  lemma {:induction false} AbsorbSentGrows(c: Config, paths: seq<PathValue>, heard: seq<Copy>, nowUs: int)
    requires PathIdsFit(paths) && forall k :: 0 <= k < |heard| ==> heard[k].path < |paths|
    ensures SentGrows(paths, AbsorbAll(c, paths, heard, nowUs))
  {
    hide Encode, PathValue.ObserveHeartbeat;
    if heard == [] {
      AbsorbNothing(c, paths, nowUs);
    } else {
      var before, last := heard[..|heard| - 1], heard[|heard| - 1];
      AbsorbSentGrows(c, paths, before, nowUs);
      AbsorbAllTurn(c, paths, heard, nowUs);
      HeartbeatSendsNothing(AbsorbAll(c, paths, before, nowUs)[last.path].MarkHeard(nowUs), last.pkt.seqNo);
    }
  }

  lemma PollSentGrows(c: Config, s: SessionValue, nowUs: int)
    requires PathIdsFit(s.paths)
    ensures SentGrows(s.paths, Poll(c, s, nowUs).session.paths)
  {
    hide AbsorbAll, TakeGroups;
    var heard := HeardBy(c, s);
    var absorbed := AbsorbAll(c, Drained(s.paths), heard, nowUs);
    AbsorbSentGrows(c, Drained(s.paths), heard, nowUs);
    var data := DataCopies(heard);
    GroupsSendNothing(s.(paths := absorbed), data, FirstSeen(data));
  }

  lemma CalledSentGrows(cs: Configs, e: Endpoint, event: Event, nowUs: int)
    requires PathIdsFit(e.session.paths) && !event.Carry? && !event.Wait?
    ensures SentGrows(e.session.paths, Called(cs, e, event, nowUs).session.paths)
  {
    hide Flush, Poll, FlushLog, Encode;
    var c, s := cs.Of(event.side), e.session;
    match event
    case SendCall(_, item, clock) => FlushSentGrows(c, Queued(c, s, item), clock);
    case FlushCall(_, clock) => FlushSentGrows(c, s, clock);
    case PollCall(_) => PollSentGrows(c, s, nowUs);
    case EnqueueCall(_, _) =>
    case TickCall(_, clock) =>
  }

  lemma CalledCopies(cs: Configs, e: Endpoint, event: Event, nowUs: int, i: nat)
    requires PathIdsFit(e.session.paths) && !event.Carry? && !event.Wait?
    requires cs.Of(event.side).sessionId < WRAP && |Called(cs, e, event, nowUs).emitted| < WRAP
    requires e.session.seqNo == |e.emitted| && i < |e.session.paths|
    requires |Called(cs, e, event, nowUs).emitted| > |e.emitted| ==>
               e.session.paths[i].Eligible(cs.Of(event.side).lossThreshold)
    requires AllCopied(cs.Of(event.side).sessionId, e.session.paths[i].sent, e.emitted)
    ensures var e' := Called(cs, e, event, nowUs);
            |e'.session.paths| == |e.session.paths| && AllCopied(cs.Of(event.side).sessionId, e'.session.paths[i].sent, e'.emitted)
  {
    hide Flush, Poll, FlushLog, Encode, AllCopied, PathValue.Eligible;
    var c, s := cs.Of(event.side), e.session;
    var e' := Called(cs, e, event, nowUs);
    CalledSentGrows(cs, e, event, nowUs);
    if |e'.emitted| > |e.emitted| {
      match event
      case SendCall(_, item, clock) => FlushCopies(c, Queued(c, s, item), e.emitted, clock, i);
      case FlushCall(_, clock) => FlushCopies(c, s, e.emitted, clock, i);
      case _ =>
    } else {
      assert e'.emitted == e.emitted;
      StaysCopied(c.sessionId, s.paths[i].sent, e'.session.paths[i].sent, e.emitted);
    }
  }

  // ---------- The run ----------

  function At(cs: Configs, w: World, es: seq<Event>, k: nat): World
    requires w.Fits() && k <= |es|
  {
    Run(cs, w, es[..k])
  }

  /** If event k makes this side emit, path p was eligible. */
  ghost predicate EligibleIfEmits(cs: Configs, w: World, es: seq<Event>, side: Side, p: nat, k: nat)
    requires w.Fits() && k < |es|
  {
    var before, after := At(cs, w, es, k).Of(side), At(cs, w, es, k + 1).Of(side);
    |after.emitted| > |before.emitted| ==>
      p < |before.session.paths| && before.session.paths[p].Eligible(cs.Of(side).lossThreshold)
  }

  /** Path p is eligible whenever this side emits. */
  ghost predicate EligibleAtEveryEmit(cs: Configs, w: World, es: seq<Event>, side: Side, p: nat)
    requires w.Fits()
  {
    p < |w.Of(side).session.paths| && forall k :: 0 <= k < |es| ==> EligibleIfEmits(cs, w, es, side, p, k)
  }

  /** Event k is a poll by the peer with this frame waiting and fewer than a window of emits after it. */
  ghost predicate PolledAt(cs: Configs, w: World, es: seq<Event>, side: Side, f: Frame, k: nat)
    requires w.Fits() && k < |es|
  {
    && es[k] == PollCall(side.Peer()) && Decode(f).Ok?
    && (var now, peer := At(cs, w, es, k), At(cs, w, es, k).Of(side.Peer());
        && Waits(peer.session.paths, f)
        && |now.Of(side).emitted| - Decode(f).value.seqNo < peer.session.window.size)
  }

  ghost predicate Waits(paths: seq<PathValue>, f: Frame) {
    exists i, n :: 0 <= i < |paths| && 0 <= n < |paths[i].inbox| && paths[i].inbox[n] == f
  }

  /** Every data frame sent on path p is polled in time. */
  ghost predicate CopiesPolled(cs: Configs, w: World, es: seq<Event>, side: Side, p: nat)
    requires w.Fits()
  {
    var paths := Run(cs, w, es).Of(side).session.paths;
    && p < |paths|
    && forall n :: 0 <= n < |paths[p].sent| && IsData(cs.Of(side), paths[p].sent[n]) ==>
         exists k :: 0 <= k < |es| && PolledAt(cs, w, es, side, paths[p].sent[n], k)
  }

  lemma EligibleInPrefix(cs: Configs, w: World, es: seq<Event>, side: Side, p: nat)
    requires w.Fits() && es != [] && EligibleAtEveryEmit(cs, w, es, side, p)
    ensures EligibleAtEveryEmit(cs, w, es[..|es| - 1], side, p)
  {
    hide Run;
    var init := es[..|es| - 1];
    forall k | 0 <= k < |init| ensures EligibleIfEmits(cs, w, init, side, p, k) {
      assert EligibleIfEmits(cs, w, es, side, p, k);
      assert init[..k] == es[..k] && init[..k + 1] == es[..k + 1];
    }
  }

  lemma {:induction false} RunCopies(cs: Configs, w: World, es: seq<Event>, side: Side, p: nat)
    requires Initial(w) && w.Fits() && NoWrap(Run(cs, w, es)) && cs.Of(side).sessionId < WRAP
    requires EligibleAtEveryEmit(cs, w, es, side, p)
    ensures var e := Run(cs, w, es).Of(side);
            p < |e.session.paths| && AllCopied(cs.Of(side).sessionId, e.session.paths[p].sent, e.emitted)
  {
    if es != [] {
      hide Safe, Step, AllCopied, PathValue.Eligible, Run, EligibleAtEveryEmit;
      var init, last := es[..|es| - 1], es[|es| - 1];
      RunTurn(cs, w, es);
      StepGrows(cs, Run(cs, w, init), last);
      EligibleInPrefix(cs, w, es, side, p);
      RunCopies(cs, w, init, side, p);
      RunSafe(cs, w, init);
      EligibleAtLast(cs, w, es, side, p);
      StepCopies(cs, Run(cs, w, init), last, side, p);
    } else {
      assert Run(cs, w, es) == w;
    }
  }

  lemma RunTurn(cs: Configs, w: World, es: seq<Event>)
    requires w.Fits() && es != []
    ensures Run(cs, w, es) == Step(cs, Run(cs, w, es[..|es| - 1]), es[|es| - 1])
  {
  }

  lemma EligibleAtLast(cs: Configs, w: World, es: seq<Event>, side: Side, p: nat)
    requires w.Fits() && es != [] && EligibleAtEveryEmit(cs, w, es, side, p)
    ensures var before := Run(cs, w, es[..|es| - 1]).Of(side);
            |Run(cs, w, es).Of(side).emitted| > |before.emitted| ==>
              p < |before.session.paths| && before.session.paths[p].Eligible(cs.Of(side).lossThreshold)
  {
    hide Run;
    assert es[..|es|] == es;
    assert EligibleIfEmits(cs, w, es, side, p, |es| - 1);
  }

  lemma StepCopies(cs: Configs, w: World, e: Event, side: Side, p: nat)
    requires w.Fits() && Safe(w) && NoWrap(Step(cs, w, e)) && cs.Of(side).sessionId < WRAP
    requires p < |w.Of(side).session.paths|
    requires |Step(cs, w, e).Of(side).emitted| > |w.Of(side).emitted| ==>
               w.Of(side).session.paths[p].Eligible(cs.Of(side).lossThreshold)
    requires AllCopied(cs.Of(side).sessionId, w.Of(side).session.paths[p].sent, w.Of(side).emitted)
    ensures var e' := Step(cs, w, e).Of(side);
            p < |e'.session.paths| && AllCopied(cs.Of(side).sessionId, e'.session.paths[p].sent, e'.emitted)
  {
    hide Called, AllCopied, PathValue.Eligible, SentGood, InboxGood, Received;
    if e.Carry? || e.Wait? {
    } else if e.side == side {
      CalledCopies(cs, w.Of(side), e, w.nowUs, p);
    }
  }

  lemma {:induction false} DeliveredGrows(cs: Configs, w: World, es: seq<Event>, k: nat, side: Side)
    requires w.Fits() && k <= |es|
    ensures At(cs, w, es, k).Of(side).delivered <= Run(cs, w, es).Of(side).delivered
  {
    if k == |es| {
      assert es[..k] == es;
    } else {
      hide Step;
      var init := es[..|es| - 1];
      assert init[..k] == es[..k];
      DeliveredGrows(cs, w, init, k, side);
      StepDeliveredGrows(cs, Run(cs, w, init), es[|es| - 1], side);
    }
  }

  lemma StepDeliveredGrows(cs: Configs, w: World, e: Event, side: Side)
    requires w.Fits()
    ensures w.Of(side).delivered <= Step(cs, w, e).Of(side).delivered
  {
    hide Flush, FlushLog, Poll, TickPath;
  }

  /** The emitted logs never shrink, so an earlier moment wraps no more than the end. */
  lemma {:induction false} PrefixNoWrap(cs: Configs, w: World, es: seq<Event>, k: nat)
    requires w.Fits() && k <= |es| && NoWrap(Run(cs, w, es))
    ensures NoWrap(At(cs, w, es, k))
  {
    if k == |es| {
      assert es[..k] == es;
    } else {
      hide Step;
      var init := es[..|es| - 1];
      assert init[..k] == es[..k];
      StepGrows(cs, Run(cs, w, init), es[|es| - 1]);
      PrefixNoWrap(cs, w, init, k);
    }
  }

  /** By the end of that poll the number is in the peer's log. */
  lemma {:induction false} DeliveredByThatPoll(cs: Configs, w: World, es: seq<Event>, side: Side, f: Frame, k: nat)
    requires Initial(w) && w.Fits() && NoWrap(Run(cs, w, es)) && k < |es|
    requires cs.a.sessionId == cs.b.sessionId && IsData(cs.Of(side), f) && PolledAt(cs, w, es, side, f, k)
    ensures Decode(f).value.seqNo in Numbers(At(cs, w, es, k + 1).Of(side.Peer()).delivered)
  {
    hide Poll, SideSafe, Decode, Numbers;
    PrefixNoWrap(cs, w, es, k);
    RunSafe(cs, w, es[..k]);
    var now := At(cs, w, es, k);
    var peer := now.Of(side.Peer());
    var i, n :| 0 <= i < |peer.session.paths| && 0 <= n < |peer.session.paths[i].inbox| && peer.session.paths[i].inbox[n] == f;
    PolledInTime(cs.Of(side.Peer()), peer, now.Of(side).emitted, now.nowUs, i, n);
    assert es[..k + 1][..k] == es[..k] && es[..k + 1][k] == es[k];
  }

  ghost predicate DeliversOnce(ds: seq<Delivery>, q: int, item: Datagram) {
    exists k :: 0 <= k < |ds| && ds[k].seqNo == q && Datagram(ds[k].payload, ds[k].trafficClass) == item
                && forall j :: 0 <= j < |ds| && j != k ==> ds[j].seqNo != q
  }

  /**
    One clean path suffices. If path p is eligible at every emit and each of its copies is polled
    before the sender is a window ahead, every encodable datagram that got a number is delivered
    exactly once, unchanged, whatever happens on the other paths.
   */
  lemma {:induction false} OneCleanPathSuffices(cs: Configs, w: World, es: seq<Event>, side: Side, p: nat)
    requires Initial(w) && w.Fits() && NoWrap(Run(cs, w, es)) && cs.a.sessionId == cs.b.sessionId < WRAP
    requires EligibleAtEveryEmit(cs, w, es, side, p) && CopiesPolled(cs, w, es, side, p)
    ensures var me, peer := Run(cs, w, es).Of(side), Run(cs, w, es).Of(side.Peer());
            forall q :: IsNumbered(me.emitted, q) ==> DeliversOnce(peer.delivered, q, me.emitted[q - 1])
  {
    hide Run, SentGood, InboxGood, Decode, Numbers, EligibleAtEveryEmit, PolledAt;
    RunCopies(cs, w, es, side, p);
    RunSafe(cs, w, es);
    var me, peer := Run(cs, w, es).Of(side), Run(cs, w, es).Of(side.Peer());
    var sent := me.session.paths[p].sent;
    forall q | IsNumbered(me.emitted, q) ensures DeliversOnce(peer.delivered, q, me.emitted[q - 1]) {
      assert CopiedOn(cs.Of(side).sessionId, sent, q);
      var n :| 0 <= n < |sent| && IsNumber(cs.Of(side).sessionId, sent[n], q);
      var k :| 0 <= k < |es| && PolledAt(cs, w, es, side, sent[n], k);
      DeliveredByThatPoll(cs, w, es, side, sent[n], k);
      DeliveredGrows(cs, w, es, k + 1, side.Peer());
      InLog(At(cs, w, es, k + 1).Of(side.Peer()).delivered, peer.delivered, me.emitted, q);
    }
  }

  lemma InLog(earlier: seq<Delivery>, ds: seq<Delivery>, emitted: seq<Datagram>, q: int)
    requires earlier <= ds && q in Numbers(earlier) && 1 <= q <= |emitted|
    requires Distinct(ds) && Authentic(ds, emitted)
    ensures DeliversOnce(ds, q, emitted[q - 1])
  {
    var k :| 0 <= k < |earlier| && earlier[k].seqNo == q;
    assert ds[k] == earlier[k];
  }
}
