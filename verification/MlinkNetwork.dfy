/**
  Two mlink endpoints and a network that drops, duplicates, delays and reorders, but does not
  forge: a run is any sequence of calls on either endpoint, frame arrivals and waits. A frame
  may arrive any number of times, at any later moment, on any path of the peer, or never.
 */
module MlinkNetwork {
  import opened Wrappers
  import opened Bytes
  import opened MlinkHeader
  import opened MlinkDedupe
  import opened MlinkPath
  import opened MlinkSteps

  datatype Side = A | B {
    function Peer(): Side { if this == A then B else A }
  }

  datatype Configs = Configs(a: Config, b: Config) {
    function Of(side: Side): Config { if side == A then a else b }
  }

  /** A session, what it has given numbers to (number q is emitted[q - 1]), and what it has delivered. */
  datatype Endpoint = Endpoint(session: SessionValue, emitted: seq<Datagram>, delivered: seq<Delivery>)

  datatype World = World(a: Endpoint, b: Endpoint, nowUs: int) {
    function Of(side: Side): Endpoint { if side == A then a else b }

    function With(side: Side, e: Endpoint): World { if side == A then this.(a := e) else this.(b := e) }

    predicate Fits() { PathIdsFit(a.session.paths) && PathIdsFit(b.session.paths) }
  }

  datatype Event =
    | SendCall(side: Side, item: Datagram, clock: seq<int>)
    | EnqueueCall(side: Side, item: Datagram)
    | FlushCall(side: Side, clock: seq<int>)
    | TickCall(side: Side, clock: seq<int>)
    | PollCall(side: Side)
    | Carry(sender: Side, path: nat, index: nat, onto: nat)
    | Wait(us: nat)

  /** The datagrams a drain gives numbers to, in order. */
  function FlushLog(c: Config, s: SessionValue, clock: seq<int>): seq<Datagram>
    requires PathIdsFit(s.paths)
    decreases |s.qControl| + |s.qMedia|
  {
    if s.qControl == [] && s.qMedia == [] then []
    else
      var next := Emit(c, Popped(s), Head(s), Reading(clock, 0));
      [Head(s)] + if EmitRaises(c, Popped(s), Head(s)) then [] else FlushLog(c, next, Later(clock))
  }

  function SendLog(c: Config, s: SessionValue, item: Datagram, clock: seq<int>): seq<Datagram>
    requires PathIdsFit(s.paths)
  {
    if SendRefusal(c, item) != None || MediaDropped(c, s, item) then [] else FlushLog(c, Queued(c, s, item), clock)
  }

  predicate CanCarry(w: World, e: Event)
    requires e.Carry?
  {
    && e.path < |w.Of(e.sender).session.paths| && e.index < |w.Of(e.sender).session.paths[e.path].sent|
    && e.onto < |w.Of(e.sender.Peer()).session.paths|
  }

  function Arrive(paths: seq<PathValue>, onto: nat, frame: Frame): seq<PathValue>
    requires onto < |paths|
  {
    paths[onto := paths[onto].(inbox := paths[onto].inbox + [frame])]
  }

  function Called(cs: Configs, e: Endpoint, event: Event, nowUs: int): Endpoint
    requires PathIdsFit(e.session.paths) && !event.Carry? && !event.Wait?
  {
    var c := cs.Of(event.side);
    match event
    case SendCall(_, item, clock) =>
      Endpoint(Send(c, e.session, item, clock), e.emitted + SendLog(c, e.session, item, clock), e.delivered)
    case EnqueueCall(_, item) => e.(session := Enqueue(c, e.session, item))
    case FlushCall(_, clock) =>
      Endpoint(Flush(c, e.session, clock).session, e.emitted + FlushLog(c, e.session, clock), e.delivered)
    case TickCall(_, clock) => e.(session := Tick(c, e.session, nowUs, clock))
    case PollCall(_) =>
      var polled := Poll(c, e.session, nowUs);
      Endpoint(polled.session, e.emitted, e.delivered + polled.delivered)
  }

  function Step(cs: Configs, w: World, e: Event): World
    requires w.Fits()
  {
    if e.Wait? then w.(nowUs := w.nowUs + e.us)
    else if e.Carry? then
      if !CanCarry(w, e) then w
      else
        var frame := w.Of(e.sender).session.paths[e.path].sent[e.index];
        var peer := w.Of(e.sender.Peer());
        w.With(e.sender.Peer(), peer.(session := peer.session.(paths := Arrive(peer.session.paths, e.onto, frame))))
    else w.With(e.side, Called(cs, w.Of(e.side), e, w.nowUs))
  }

  // ---------- Paths keep their identity ----------

  ghost predicate SamePaths(ps: seq<PathValue>, qs: seq<PathValue>) {
    |ps| == |qs| && forall i :: 0 <= i < |ps| ==> ps[i].pathId == qs[i].pathId && ps[i].name == qs[i].name
                                                  && ps[i].lossWindow == qs[i].lossWindow
  }

  lemma {:induction false} FlushSamePaths(c: Config, s: SessionValue, clock: seq<int>)
    requires PathIdsFit(s.paths)
    ensures SamePaths(s.paths, Flush(c, s, clock).session.paths)
    decreases |s.qControl| + |s.qMedia|
  {
    if s.qControl == [] && s.qMedia == [] {
      FlushDone(c, s, clock);
    } else {
      FlushTurn(c, s, clock);
      if !EmitRaises(c, Popped(s), Head(s)) {
        FlushSamePaths(c, Emit(c, Popped(s), Head(s), Reading(clock, 0)), Later(clock));
      }
    }
  }

  lemma {:induction false} AbsorbSamePaths(c: Config, paths: seq<PathValue>, heard: seq<Copy>, nowUs: int)
    requires PathIdsFit(paths) && forall k :: 0 <= k < |heard| ==> heard[k].path < |paths|
    ensures SamePaths(paths, AbsorbAll(c, paths, heard, nowUs))
  {
    if heard == [] {
      AbsorbNothing(c, paths, nowUs);
    } else {
      AbsorbSamePaths(c, paths, heard[..|heard| - 1], nowUs);
      AbsorbAllTurn(c, paths, heard, nowUs);
    }
  }

  lemma {:induction false} GroupsSamePaths(s: SessionValue, data: seq<Copy>, numbers: seq<int>)
    requires CopiesFit(s, data) && forall n :: n in numbers ==> CopiesOf(data, n) != []
    ensures SamePaths(s.paths, TakeGroups(s, data, numbers).session.paths)
  {
    if numbers == [] {
      TakeGroupsNone(s, data);
    } else {
      GroupsSamePaths(s, data, numbers[..|numbers| - 1]);
      TakeGroupsTurn(s, data, numbers);
    }
  }

  lemma PollSamePaths(c: Config, s: SessionValue, nowUs: int)
    requires PathIdsFit(s.paths)
    ensures SamePaths(s.paths, Poll(c, s, nowUs).session.paths)
  {
    var heard := HeardBy(c, s);
    var absorbed := AbsorbAll(c, Drained(s.paths), heard, nowUs);
    AbsorbSamePaths(c, Drained(s.paths), heard, nowUs);
    var data := DataCopies(heard);
    GroupsSamePaths(s.(paths := absorbed), data, FirstSeen(data));
  }

  lemma CalledSamePaths(cs: Configs, e: Endpoint, event: Event, nowUs: int)
    requires PathIdsFit(e.session.paths) && !event.Carry? && !event.Wait?
    ensures SamePaths(e.session.paths, Called(cs, e, event, nowUs).session.paths)
  {
    hide Flush, Poll;
    var c, s := cs.Of(event.side), e.session;
    match event
    case SendCall(_, item, clock) => FlushSamePaths(c, Queued(c, s, item), clock);
    case FlushCall(_, clock) => FlushSamePaths(c, s, clock);
    case PollCall(_) => PollSamePaths(c, s, nowUs);
    case EnqueueCall(_, _) =>
    case TickCall(_, clock) => TickSamePaths(c, s, nowUs, clock);
  }

  lemma TickSamePaths(c: Config, s: SessionValue, nowUs: int, clock: seq<int>)
    requires PathIdsFit(s.paths)
    ensures SamePaths(s.paths, Tick(c, s, nowUs, clock).paths)
  {
    hide Encode, BeatDue;
  }

  lemma StepSamePaths(cs: Configs, w: World, e: Event)
    requires w.Fits()
    ensures SamePaths(w.a.session.paths, Step(cs, w, e).a.session.paths)
    ensures SamePaths(w.b.session.paths, Step(cs, w, e).b.session.paths)
    ensures Step(cs, w, e).Fits()
  {
    hide Called;
    if !e.Wait? && !e.Carry? {
      CalledSamePaths(cs, w.Of(e.side), e, w.nowUs);
    }
  }

  // ---------- Runs ----------

  /** The world after these events. */
  function Run(cs: Configs, w: World, es: seq<Event>): (r: World)
    requires w.Fits()
    ensures r.Fits()
  {
    if es == [] then w
    else
      var before := Run(cs, w, es[..|es| - 1]);
      StepSamePaths(cs, before, es[|es| - 1]);
      Step(cs, before, es[|es| - 1])
  }
}
