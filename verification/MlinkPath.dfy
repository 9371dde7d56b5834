/**
  One network path: up or down, sliding heartbeat loss, round-trip time, and the two ends of
  its socket (frames waiting to be read, frames handed to the network).
 */
module MlinkPath {
  import opened Wrappers
  import opened MlinkHeader

  /** What a deque with this maximum length holds after these appends. */
  function Last<T>(limit: nat, items: seq<T>): (r: seq<T>) {
    if |items| <= limit then items else items[|items| - limit..]
  }

  function Misses(count: nat): (r: seq<bool>)
    ensures |r| == count && forall k :: 0 <= k < count ==> !r[k]
  {
    seq(count, _ => false)
  }

  function Hits(outcomes: seq<bool>): (r: nat)
    ensures r <= |outcomes|
  {
    if outcomes == [] then 0 else (if outcomes[0] then 1 else 0) + Hits(outcomes[1..])
  }

  function Min(a: int, b: int): int { if a <= b then a else b }

  function Smoothed(alpha: real, sample: real, was: real): real {
    alpha * sample + (1.0 - alpha) * was
  }

  datatype PathValue = PathValue(
    pathId: int, name: string, lossWindow: nat, rttAlpha: real,
    up: bool, lastHeardUs: int, lastHbTxUs: int, lastProbeTxUs: int, hbSeq: int, rttUs: Option<real>,
    hbOutcomes: seq<bool>, dataOutcomes: seq<bool>, lastHbRx: Option<int>,
    inbox: seq<Frame>, sent: seq<Frame>)
  {
    /** Inbound heartbeat loss; zero until the window has filled. */
    function Loss(): real {
      if |hbOutcomes| < lossWindow || hbOutcomes == [] then 0.0
      else 1.0 - Hits(hbOutcomes) as real / |hbOutcomes| as real
    }

    /** The scheduler's test: copy on every up path whose loss is within the threshold. */
    predicate Eligible(threshold: real) {
      up && Loss() <= threshold
    }

    /** The heartbeats missed before this one, as far as the source records them. */
    function Gap(seqNo: int): int {
      match lastHbRx
      case None => if seqNo > 1 then Min(seqNo - 1, lossWindow) else 0
      case Some(last) => seqNo - last - 1
    }

    function ObserveHeartbeat(seqNo: int): PathValue {
      if Gap(seqNo) < 0 then this
      else this.(hbOutcomes := Last(lossWindow, hbOutcomes + Misses(Gap(seqNo)) + [true]),
                 lastHbRx := Some(seqNo))
    }

    function ObserveDataOutcome(received: bool): PathValue {
      this.(dataOutcomes := Last(lossWindow, dataOutcomes + [received]))
    }

    function ObserveRtt(sampleUs: int): PathValue {
      if sampleUs < 0 then this
      else
        var sample := sampleUs as real;
        this.(rttUs := Some(if rttUs == None then sample else Smoothed(rttAlpha, sample, rttUs.value)))
    }

    function MarkHeard(nowUs: int): PathValue {
      this.(lastHeardUs := nowUs, up := true)
    }

    function Send(frame: Frame): PathValue {
      this.(sent := sent + [frame])
    }
  }

  // ---------- The deque is the true vector of received and missed heartbeats ----------

  /** The highest heartbeat number observed. */
  function Newest(calls: seq<int>): int {
    if calls == [] then 0
    else
      var before, last := Newest(calls[..|calls| - 1]), calls[|calls| - 1];
      if last > before then last else before
  }

  /** The numbers that arrived ahead of every earlier arrival. The others count as missed. */
  function InOrder(calls: seq<int>): set<int> {
    if calls == [] then {}
    else
      var before, last := calls[..|calls| - 1], calls[|calls| - 1];
      InOrder(before) + (if last > Newest(before) then {last} else {})
  }

  /** Entry k says whether heartbeat k + 1 was received in order. */
  function Truth(calls: seq<int>): seq<bool> {
    Vector(InOrder(calls), if Newest(calls) >= 0 then Newest(calls) else 0)
  }

  function Vector(received: set<int>, count: nat): (r: seq<bool>)
    ensures |r| == count && forall k :: 0 <= k < count ==> r[k] == (k + 1 in received)
  {
    seq(count, k => k + 1 in received)
  }

  function Heard(p: PathValue, calls: seq<int>): PathValue {
    if calls == [] then p else Heard(p, calls[..|calls| - 1]).ObserveHeartbeat(calls[|calls| - 1])
  }

  predicate Unheard(p: PathValue) {
    p.lossWindow >= 1 && p.hbOutcomes == [] && p.lastHbRx == None
  }

  lemma {:induction false} InOrderBelow(calls: seq<int>)
    requires forall k :: 0 <= k < |calls| ==> calls[k] >= 0
    ensures Newest(calls) >= 0 && forall n :: n in InOrder(calls) ==> 1 <= n <= Newest(calls)
    ensures (exists k :: 0 <= k < |calls| && calls[k] >= 1) ==> Newest(calls) >= 1
  {
    if calls != [] {
      InOrderBelow(calls[..|calls| - 1]);
      assert forall k :: 0 <= k < |calls| - 1 ==> calls[..|calls| - 1][k] == calls[k];
    }
  }

  lemma LastOfLonger<T>(limit: nat, s: seq<T>, t: seq<T>)
    ensures Last(limit, Last(limit, s) + t) == Last(limit, s + t)
  {
  }

  lemma {:induction false} TruthGrows(calls: seq<int>, seqNo: int)
    requires seqNo >= 0 && forall k :: 0 <= k < |calls| ==> calls[k] >= 0
    ensures seqNo > Newest(calls) ==>
              Truth(calls + [seqNo]) == Truth(calls) + Misses(seqNo - Newest(calls) - 1) + [true]
    ensures seqNo <= Newest(calls) ==> Truth(calls + [seqNo]) == Truth(calls)
  {
    InOrderBelow(calls);
    var longer := calls + [seqNo];
    assert longer[..|calls|] == calls && longer[|calls|] == seqNo;
    InOrderGrows(calls, seqNo);
    if seqNo > Newest(calls) {
      VectorGrows(InOrder(calls), Newest(calls), seqNo);
    }
  }

  lemma {:induction false} InOrderGrows(calls: seq<int>, seqNo: int)
    ensures seqNo > Newest(calls) ==>
              InOrder(calls + [seqNo]) == InOrder(calls) + {seqNo} && Newest(calls + [seqNo]) == seqNo
    ensures seqNo <= Newest(calls) ==>
              InOrder(calls + [seqNo]) == InOrder(calls) && Newest(calls + [seqNo]) == Newest(calls)
  {
    var longer := calls + [seqNo];
    assert longer[..|calls|] == calls && longer[|calls|] == seqNo;
    assert InOrder(calls) + {} == InOrder(calls);
  }

  lemma VectorGrows(received: set<int>, count: nat, next: int)
    requires next > count && forall n :: n in received ==> n <= count
    ensures Vector(received + {next}, next) == Vector(received, count) + Misses(next - count - 1) + [true]
  {
  }

  /** The vector as the deque starts it: a first heartbeat that carries zero has an entry of its own. */
  function Recorded(calls: seq<int>): seq<bool> {
    (if calls != [] && calls[0] == 0 then [true] else []) + Truth(calls)
  }

  lemma RecordedGrows(calls: seq<int>, seqNo: int)
    requires calls != [] && seqNo >= 0 && forall k :: 0 <= k < |calls| ==> calls[k] >= 0
    ensures Recorded(calls + [seqNo])
         == if seqNo > Newest(calls) then Recorded(calls) + Misses(seqNo - Newest(calls) - 1) + [true] else Recorded(calls)
  {
    hide Truth, Newest, Misses;
    TruthGrows(calls, seqNo);
    assert (calls + [seqNo])[0] == calls[0];
    if seqNo > Newest(calls) {
      Regroup(if calls[0] == 0 then [true] else [], Truth(calls), Misses(seqNo - Newest(calls) - 1));
    }
  }

  lemma Regroup(zero: seq<bool>, truth: seq<bool>, gap: seq<bool>)
    ensures zero + (truth + gap + [true]) == zero + truth + gap + [true]
  {
  }

  lemma FirstRecorded(seqNo: int)
    requires seqNo >= 0
    ensures Newest([seqNo]) == seqNo && Recorded([seqNo]) == if seqNo == 0 then [true] else Misses(seqNo - 1) + [true]
  {
    assert [] + [seqNo] == [seqNo];
    TruthGrows([], seqNo);
    assert Truth([]) == [];
    if seqNo > 0 {
      assert [] + Misses(seqNo - 1) + [true] == Misses(seqNo - 1) + [true];
    }
  }

  /** The first heartbeat: the recorded misses are those before it, up to the window. */
  lemma FirstStep(p: PathValue, seqNo: int)
    requires Unheard(p) && seqNo >= 0
    ensures p.ObserveHeartbeat(seqNo) == p.(hbOutcomes := Last(p.lossWindow, Recorded([seqNo])), lastHbRx := Some(seqNo))
  {
    hide Recorded;
    FirstRecorded(seqNo);
    var gap := p.Gap(seqNo);
    assert [] + Misses(gap) + [true] == Misses(gap) + [true];
  }

  /** One more heartbeat: the deque and the vector grow alike. */
  lemma OutcomesStep(p: PathValue, recorded: seq<bool>, newest: int, seqNo: int)
    requires p.hbOutcomes == Last(p.lossWindow, recorded) && p.lastHbRx == Some(newest)
    ensures seqNo <= newest ==> p.ObserveHeartbeat(seqNo) == p
    ensures seqNo > newest ==>
              p.ObserveHeartbeat(seqNo)
              == p.(hbOutcomes := Last(p.lossWindow, recorded + Misses(seqNo - newest - 1) + [true]), lastHbRx := Some(seqNo))
  {
    if seqNo > newest {
      var gap := seqNo - newest - 1;
      assert p.hbOutcomes + Misses(gap) + [true] == p.hbOutcomes + (Misses(gap) + [true]);
      LastOfLonger(p.lossWindow, recorded, Misses(gap) + [true]);
      assert recorded + (Misses(gap) + [true]) == recorded + Misses(gap) + [true];
    }
  }

  /** For any numbers off the wire, the deque is the last `loss_window` entries of the recorded vector. */
  lemma {:induction false} OutcomesAreRecorded(p: PathValue, calls: seq<int>)
    requires Unheard(p) && forall k :: 0 <= k < |calls| ==> calls[k] >= 0
    ensures var q := Heard(p, calls);
            q == p.(hbOutcomes := Last(p.lossWindow, Recorded(calls)), lastHbRx := if calls == [] then None else Some(Newest(calls)))
  {
    if calls == [] {
      assert Recorded(calls) == [];
    } else {
      hide PathValue.ObserveHeartbeat, Last, Recorded, Newest;
      var before, last := calls[..|calls| - 1], calls[|calls| - 1];
      OutcomesAreRecorded(p, before);
      assert calls == before + [last];
      if before == [] {
        assert Heard(p, before) == p;
        FirstStep(p, last);
        FirstRecorded(last);
      } else {
        RecordedGrows(before, last);
        InOrderGrows(before, last);
        OutcomesStep(Heard(p, before), Recorded(before), Newest(before), last);
      }
    }
  }

  /** The deque is always the last `loss_window` entries of the true vector over heartbeats 1..n. */
  lemma {:induction false} OutcomesAreTruth(p: PathValue, calls: seq<int>)
    requires Unheard(p) && forall k :: 0 <= k < |calls| ==> calls[k] >= 1
    ensures Heard(p, calls).lossWindow == p.lossWindow && Heard(p, calls).up == p.up
    ensures Heard(p, calls).hbOutcomes == Last(p.lossWindow, Truth(calls))
    ensures Heard(p, calls).lastHbRx == if Newest(calls) == 0 then None else Some(Newest(calls))
  {
    hide Truth;
    OutcomesAreRecorded(p, calls);
    InOrderBelow(calls);
    assert [] + Truth(calls) == Truth(calls);
    if calls != [] {
      assert calls[0] >= 1;
    }
  }

  lemma {:induction false} AllHits(s: seq<bool>)
    requires forall k :: 0 <= k < |s| ==> s[k]
    ensures Hits(s) == |s|
  {
    if s != [] {
      AllHits(s[1..]);
    }
  }

  /** Once the window has filled, loss is exactly the missed share of the last window. */
  lemma {:induction false} LossIsExact(p: PathValue, calls: seq<int>)
    requires Unheard(p) && forall k :: 0 <= k < |calls| ==> calls[k] >= 1
    ensures Newest(calls) < p.lossWindow ==> Heard(p, calls).Loss() == 0.0
    ensures Newest(calls) >= p.lossWindow ==>
              Heard(p, calls).Loss() == MissedShare(Last(p.lossWindow, Truth(calls)))
  {
    OutcomesAreTruth(p, calls);
    InOrderBelow(calls);
    LossOf(Heard(p, calls));
  }

  /** Missed heartbeats over heartbeats sent. */
  function MissedShare(outcomes: seq<bool>): real
    requires outcomes != []
  {
    (|outcomes| - Hits(outcomes)) as real / |outcomes| as real
  }

  lemma LossOf(p: PathValue)
    requires p.lossWindow >= 1
    ensures |p.hbOutcomes| < p.lossWindow ==> p.Loss() == 0.0
    ensures |p.hbOutcomes| == p.lossWindow ==> p.Loss() == MissedShare(p.hbOutcomes)
  {
    if |p.hbOutcomes| == p.lossWindow {
      Complement(Hits(p.hbOutcomes) as real, p.lossWindow as real);
    }
  }

  lemma Complement(hits: real, window: real)
    requires window > 0.0
    ensures 1.0 - hits / window == (window - hits) / window
  {
    var share := hits / window;
    Cancel(1.0 - share, window);
    Cancel(hits, window);
    Divide(window - hits, 1.0 - share, window);
  }

  lemma Divide(x: real, y: real, window: real)
    requires window > 0.0 && x == y * window
    ensures x / window == y
  {
  }

  lemma Cancel(x: real, window: real)
    requires window > 0.0
    ensures x * window / window == x
  {
  }

  /** Heartbeats first, first + 1, ..., in order. */
  function Consecutive(first: int, count: nat): seq<int> {
    seq(count, k => first + k)
  }

  function Trues(count: nat): (r: seq<bool>)
    ensures |r| == count && forall k :: 0 <= k < count ==> r[k]
  {
    seq(count, _ => true)
  }

  lemma OneMoreHit(limit: nat, s: seq<bool>, count: nat)
    requires count >= 1
    ensures Last(limit, Last(limit, s + Trues(count - 1)) + [true]) == Last(limit, s + Trues(count))
  {
    LastOfLonger(limit, s + Trues(count - 1), [true]);
    assert s + Trues(count) == s + Trues(count - 1) + [true];
  }

  lemma {:induction false} RunOfHits(p: PathValue, first: int, count: nat)
    requires p.lossWindow >= 1 && |p.hbOutcomes| <= p.lossWindow
    requires first >= 1 && p.lastHbRx == if first == 1 then None else Some(first - 1)
    ensures var q := Heard(p, Consecutive(first, count));
            && q.lossWindow == p.lossWindow && q.up == p.up
            && q.hbOutcomes == Last(p.lossWindow, p.hbOutcomes + Trues(count))
            && q.lastHbRx == (if count == 0 then p.lastHbRx else Some(first + count - 1))
  {
    if count == 0 {
      assert p.hbOutcomes + Trues(0) == p.hbOutcomes;
    } else {
      RunOfHits(p, first, count - 1);
      var calls := Consecutive(first, count);
      assert calls[..count - 1] == Consecutive(first, count - 1);
      var q := Heard(p, Consecutive(first, count - 1));
      assert q.Gap(first + count - 1) == 0;
      OneMoreHit(p.lossWindow, p.hbOutcomes, count);
      assert q.hbOutcomes + Misses(0) + [true] == q.hbOutcomes + [true];
    }
  }

  /** After any history, `loss_window` consecutive heartbeats bring a path back to zero loss and into use. */
  lemma {:induction false} RecoversAfterOneWindow(p: PathValue, first: int, nowUs: int, threshold: real)
    requires p.lossWindow >= 1 && |p.hbOutcomes| <= p.lossWindow && threshold >= 0.0
    requires first >= 1 && p.lastHbRx == if first == 1 then None else Some(first - 1)
    ensures var q := Heard(p, Consecutive(first, p.lossWindow)).MarkHeard(nowUs);
            q.Loss() == 0.0 && q.Eligible(threshold)
  {
    RunOfHits(p, first, p.lossWindow);
    var q := Heard(p, Consecutive(first, p.lossWindow));
    assert q.hbOutcomes == Trues(p.lossWindow);
    NoLoss(q);
    NoLoss(q.MarkHeard(nowUs));
  }

  lemma NoLoss(p: PathValue)
    requires p.hbOutcomes == Trues(p.lossWindow) && p.lossWindow >= 1
    ensures p.Loss() == 0.0
  {
    AllHits(p.hbOutcomes);
  }

  // ---------- The object ----------

  class Path {
    const pathId: int
    const name: string
    const lossWindow: nat
    const rttAlpha: real
    var up: bool
    var lastHeardUs: int
    var lastHbTxUs: int
    var lastProbeTxUs: int
    var hbSeq: int
    var rttUs: Option<real>
    var hbOutcomes: seq<bool>
    var dataOutcomes: seq<bool>
    var lastHbRx: Option<int>
    var inbox: seq<Frame>
    var sent: seq<Frame>

    function Value(): PathValue
      reads this
    {
      PathValue(pathId, name, lossWindow, rttAlpha, up, lastHeardUs, lastHbTxUs, lastProbeTxUs, hbSeq, rttUs,
                hbOutcomes, dataOutcomes, lastHbRx, inbox, sent)
    }

    constructor (pathId: int, name: string, nowUs: int, lossWindow: nat, rttAlpha: real)
      ensures Value() == PathValue(pathId, name, lossWindow, rttAlpha, true, nowUs, nowUs, nowUs, 0, None,
                                   [], [], None, [], [])
    {
      this.pathId := pathId;
      this.name := name;
      this.lossWindow := lossWindow;
      this.rttAlpha := rttAlpha;
      up := true;
      lastHeardUs, lastHbTxUs, lastProbeTxUs := nowUs, nowUs, nowUs;
      hbSeq := 0;
      rttUs := None;
      hbOutcomes, dataOutcomes := [], [];
      lastHbRx := None;
      inbox, sent := [], [];
    }

    /** Append to the bounded heartbeat deque. */
    method PushOutcome(ok: bool)
      modifies this`hbOutcomes
      ensures hbOutcomes == Last(lossWindow, old(hbOutcomes) + [ok])
    {
      hbOutcomes := hbOutcomes + [ok];
      if |hbOutcomes| > lossWindow {
        hbOutcomes := hbOutcomes[|hbOutcomes| - lossWindow..];
      }
    }

    method PushMisses(count: nat)
      requires |hbOutcomes| <= lossWindow
      modifies this`hbOutcomes
      ensures hbOutcomes == Last(lossWindow, old(hbOutcomes) + Misses(count))
    {
      ghost var was := hbOutcomes;
      assert was + Misses(0) == was;
      for k := 0 to count
        invariant hbOutcomes == Last(lossWindow, was + Misses(k))
      {
        PushOutcome(false);
        LastOfLonger(lossWindow, was + Misses(k), [false]);
        assert was + Misses(k) + [false] == was + Misses(k + 1);
      }
    }

    method ObserveHeartbeat(seqNo: int)
      requires |hbOutcomes| <= lossWindow
      modifies this
      ensures Value() == old(Value()).ObserveHeartbeat(seqNo)
    {
      ghost var was := hbOutcomes;
      if lastHbRx == None {
        if seqNo > 1 {
          var missed := Min(seqNo - 1, lossWindow);
          PushMisses(missed);
        }
        assert was + Misses(0) == was;
        LastOfLonger(lossWindow, was + Misses(old(Value()).Gap(seqNo)), [true]);
        PushOutcome(true);
        lastHbRx := Some(seqNo);
        return;
      }
      var gap := seqNo - lastHbRx.value - 1;
      if gap < 0 {
        return;
      }
      PushMisses(gap);
      LastOfLonger(lossWindow, was + Misses(gap), [true]);
      PushOutcome(true);
      lastHbRx := Some(seqNo);
    }

    method ObserveDataOutcome(received: bool)
      modifies this
      ensures Value() == old(Value()).ObserveDataOutcome(received)
    {
      dataOutcomes := dataOutcomes + [received];
      if |dataOutcomes| > lossWindow {
        dataOutcomes := dataOutcomes[|dataOutcomes| - lossWindow..];
      }
    }

    method ObserveRtt(sampleUs: int)
      modifies this
      ensures Value() == old(Value()).ObserveRtt(sampleUs)
    {
      if sampleUs < 0 {
        return;
      }
      var sample := sampleUs as real;
      if rttUs == None {
        rttUs := Some(sample);
      } else {
        rttUs := Some(Smoothed(rttAlpha, sample, rttUs.value));
      }
    }

    method MarkHeard(nowUs: int)
      modifies this
      ensures Value() == old(Value()).MarkHeard(nowUs)
    {
      lastHeardUs := nowUs;
      up := true;
    }

    method SendTo(frame: Frame)
      modifies this
      ensures Value() == old(Value()).Send(frame)
    {
      sent := sent + [frame];
    }

    /** The next waiting frame, or None when the inbox is empty. */
    method RecvFrom() returns (frame: Option<Frame>)
      modifies this
      ensures Value() == old(Value()).(inbox := if old(inbox) == [] then [] else old(inbox)[1..])
      ensures frame == if old(inbox) == [] then None else Some(old(inbox)[0])
    {
      if inbox == [] {
        return None;
      }
      frame := Some(inbox[0]);
      inbox := inbox[1..];
    }
  }
}
