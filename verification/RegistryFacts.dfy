/**
  The rest of a record, from the trace alone: whether it is approved, who holds it by name, the
  phase and the stamp the dashboard shows, whether a start is pending and whether its holder has
  been told that it is stale.
 */
module RegistryFacts {
  import opened Wrappers
  import opened RegistryRecord
  import opened RegistrySteps
  import opened RegistryInvariant
  import opened RegistrySafety
  import opened RegistryTrace
  import opened RegistryRuns

  datatype Facts = Facts(approved: bool, name: Option<string>, phase: Phase, seen: Option<real>, starting: bool, noticed: bool)

  function FactsOf(r: Record): Facts {
    Facts(r.approved, r.operatorName, r.phase, r.lastSeen, r.startInProgress, r.sweepMark == Some(StaleMark))
  }

  const NEWBORN := Facts(false, None, Idle, None, false, false)

  /** What one entry of the trace says of a record. */
  function Tell(f: Facts, rec: RecId, e: Entry): Facts {
    if e.rec != rec then f
    else
      match e
      case TookSocket(_, _, stamp) => f.(seen := Some(stamp), noticed := false)
      case Approve(_) => f.(approved := true)
      case Attach(_, _, name) => f.(name := Some(name))
      case Detach(_) => f.(name := None, starting := false, noticed := false)
      case Relay(_, _, _, kind) => if kind.StartFrame? then f.(starting := true) else f
      case Seen(_, phase, stamp) => f.(phase := phase, seen := Some(stamp), noticed := false)
      case Reported(_, phase) => f.(phase := phase, starting := f.starting && phase !in {Ready, Stopped, Error})
      case StaleNotice(_, _, _) => f.(noticed := true)
      case Cancel(_, _) => f.(noticed := false)
      case _ => f
  }

  function TellAll(f: Facts, rec: RecId, trace: seq<Entry>): Facts {
    if trace == [] then f else Tell(TellAll(f, rec, trace[..|trace| - 1]), rec, trace[|trace| - 1])
  }

  lemma {:induction false} TellAppends(f: Facts, rec: RecId, some: seq<Entry>, more: seq<Entry>)
    ensures TellAll(f, rec, some + more) == TellAll(TellAll(f, rec, some), rec, more)
  {
    hide Tell;
    if more == [] {
      assert some + more == some;
    } else {
      TellAppends(f, rec, some, more[..|more| - 1]);
      assert (some + more)[..|some + more| - 1] == some + more[..|more| - 1];
    }
  }

  lemma {:induction false} TellOthers(f: Facts, rec: RecId, trace: seq<Entry>)
    requires forall k :: 0 <= k < |trace| ==> trace[k].rec != rec
    ensures TellAll(f, rec, trace) == f
  {
    if trace != [] {
      TellOthers(f, rec, trace[..|trace| - 1]);
    }
  }

  lemma TellOne(f: Facts, rec: RecId, e: Entry)
    ensures TellAll(f, rec, [e]) == Tell(f, rec, e)
  {
    assert [e][..0] == [];
    assert TellAll(f, rec, []) == f;
  }

  lemma TellTwo(f: Facts, rec: RecId, e: Entry, d: Entry)
    ensures TellAll(f, rec, [e, d]) == Tell(Tell(f, rec, e), rec, d)
  {
    hide Tell;
    assert [e, d][..1] == [e];
    TellOne(f, rec, e);
  }

  // ---------- What the stretches do to a record's facts ----------

  lemma StretchFacts(r: Record, rec: RecId, ws: Socket, stamp: real, utc: real, mono: real, phase: Phase, name: string)
    ensures var f := FactsOf(r);
            && FactsOf(r.Taken(ws, stamp)) == Tell(f, rec, TookSocket(rec, ws, stamp))
            && FactsOf(r.Released(utc)) == Tell(f, rec, Entry.Detach(rec))
            && FactsOf(r.Forgotten()) == Tell(f, rec, Entry.Detach(rec))
            && FactsOf(r.StaleStopped()) == Tell(f, rec, Entry.Detach(rec))
            && (r.robot == Some(ws) || r.operator == Some(ws) ==> FactsOf(r.Dropped(ws, utc)) == Tell(f, rec, Entry.Detach(rec)))
            && FactsOf(r.Hold(ws, Some(name))) == Tell(f, rec, Entry.Attach(rec, ws, name))
            && FactsOf(r.Presence(phase, utc)) == Tell(f, rec, Seen(rec, phase, utc.Floor as real))
            && FactsOf(r.ApplyStatus(phase)) == Tell(f, rec, Reported(rec, phase))
  {
    PresenceIsFresh(r, phase, utc);
  }

  lemma SweptFacts(r: Record, utc: real, mono: real)
    requires r.Paired()
    ensures FactsOf(r.Swept(utc, mono))
         == if r.SweepResult(utc, mono) == Notice then FactsOf(r).(noticed := true)
            else if r.robot.Some? && !r.IsStale(utc) then FactsOf(r).(noticed := false) else FactsOf(r)
    ensures r.SweepResult(utc, mono) != Sweep.Quiet ==> r.IsStale(utc) && r.robot.Some?
  {
  }

  // ---------- What an event does ----------

  /** The records' facts change as the new entries say, and these are about records there are. */
  ghost predicate Told(w: World, t: World, news: seq<Entry>) {
    && t.trace == w.trace + news && |t.hub.records| >= |w.hub.records|
    && (forall k :: 0 <= k < |news| ==> news[k].rec < |t.hub.records|)
    && (forall k: nat :: k < |t.hub.records| ==>
          FactsOf(t.hub.records[k]) == TellAll(if k < |w.hub.records| then FactsOf(w.hub.records[k]) else NEWBORN, k, news))
  }

  lemma NothingTold(w: World, t: World)
    requires t.trace == w.trace && t.hub.records == w.hub.records
    ensures Told(w, t, [])
  {
    assert w.trace + [] == w.trace;
  }

  /** One record changed as one entry about it says. */
  lemma OneTold(w: World, t: World, e: Entry)
    requires t.trace == w.trace + [e] && e.rec < |w.hub.records| == |t.hub.records|
    requires forall k :: 0 <= k < |w.hub.records| && k != e.rec ==> FactsOf(t.hub.records[k]) == FactsOf(w.hub.records[k])
    requires FactsOf(t.hub.records[e.rec]) == Tell(FactsOf(w.hub.records[e.rec]), e.rec, e)
    ensures Told(w, t, [e])
  {
    hide FactsOf, TellAll;
    forall k: nat | k < |t.hub.records| ensures FactsOf(t.hub.records[k]) == TellAll(FactsOf(w.hub.records[k]), k, [e]) {
      TellOne(FactsOf(w.hub.records[k]), k, e);
    }
  }

  lemma TwoTold(w: World, t: World, e: Entry, d: Entry)
    requires t.trace == w.trace + [e, d] && e.rec == d.rec < |w.hub.records| == |t.hub.records|
    requires forall k :: 0 <= k < |w.hub.records| && k != e.rec ==> FactsOf(t.hub.records[k]) == FactsOf(w.hub.records[k])
    requires FactsOf(t.hub.records[e.rec]) == Tell(Tell(FactsOf(w.hub.records[e.rec]), e.rec, e), e.rec, d)
    ensures Told(w, t, [e, d])
  {
    hide FactsOf, TellAll;
    forall k: nat | k < |t.hub.records| ensures FactsOf(t.hub.records[k]) == TellAll(FactsOf(w.hub.records[k]), k, [e, d]) {
      TellTwo(FactsOf(w.hub.records[k]), k, e, d);
    }
  }

  lemma HashedTold(w: World, ws: Socket, digest: int) returns (news: seq<Entry>)
    ensures Told(w, OnHashed(w, ws, digest), news)
  {
    hide Told, Hub.PendingCount, TellAll;
    var t := OnHashed(w, ws, digest);
    if t.trace == w.trace {
      news := [];
      NothingTold(w, t);
    } else {
      var e := TookSocket(|w.hub.records|, ws, w.utc.Floor as real);
      news := [e];
      BornTold(w, t, e, ws);
    }
  }

  lemma BornTold(w: World, t: World, e: Entry, ws: Socket)
    requires e == TookSocket(|w.hub.records|, ws, w.utc.Floor as real) && t.trace == w.trace + [e]
    requires |t.hub.records| == |w.hub.records| + 1 && t.hub.records[..|w.hub.records|] == w.hub.records
    requires FactsOf(t.hub.records[|w.hub.records|]) == Facts(false, None, Idle, Some(w.utc.Floor as real), false, false)
    ensures Told(w, t, [e])
  {
    hide FactsOf, TellAll;
    forall k: nat | k < |t.hub.records|
      ensures FactsOf(t.hub.records[k]) == TellAll(if k < |w.hub.records| then FactsOf(w.hub.records[k]) else NEWBORN, k, [e])
    {
      if k < |w.hub.records| {
        assert t.hub.records[k] == t.hub.records[..|w.hub.records|][k];
        TellOne(FactsOf(w.hub.records[k]), k, e);
      } else {
        TellOne(NEWBORN, k, e);
      }
    }
  }

  lemma TakeTold(w: World, ws: Socket) returns (news: seq<Entry>)
    ensures Told(w, OnTake(w, ws), news)
  {
    news := [];
    if ws in w.hub.pcs && w.hub.pcs[ws].TakeWait? && w.hub.Lockable(w.hub.pcs[ws].rec) {
      hide Told, FactsOf, Record.Taken;
      var TakeWait(rec, _, stamp) := w.hub.pcs[ws];
      StretchFacts(w.hub.records[rec], rec, ws, stamp, w.utc, w.mono, Idle, "");
      news := [TookSocket(rec, ws, stamp), Cancel(rec, NewSocket)];
      TwoTold(w, OnTake(w, ws), TookSocket(rec, ws, stamp), Cancel(rec, NewSocket));
    } else {
      NothingTold(w, OnTake(w, ws));
    }
  }

  lemma PresenceTold(w: World, ws: Socket, phase: Phase) returns (news: seq<Entry>)
    ensures Told(w, OnPresence(w, ws, phase), news)
  {
    hide Told, FactsOf, Record.Presence;
    var t := OnPresence(w, ws, phase);
    news := [];
    if t.trace == w.trace {
      NothingTold(w, t);
    } else {
      var rec := w.hub.pcs[ws].session.value;
      StretchFacts(w.hub.records[rec], rec, ws, 0.0, w.utc, w.mono, phase, "");
      news := [Seen(rec, phase, w.utc.Floor as real)];
      OneTold(w, t, Seen(rec, phase, w.utc.Floor as real));
    }
  }

  lemma ForwardTold(w: World, ws: Socket) returns (news: seq<Entry>)
    requires Inv(w.hub)
    ensures Told(w, OnForward(w, ws), news)
  {
    hide Told, Inv;
    var t := OnForward(w, ws);
    news := [];
    if t.trace == w.trace {
      NothingTold(w, t);
    } else {
      KindFitsSide(w.hub, ws);
      var e := t.trace[|w.trace|];
      assert t.trace == w.trace + [e];
      news := [e];
      OneTold(w, t, e);
    }
  }

  lemma RelayEndsTold(w: World, ws: Socket, delivered: bool) returns (news: seq<Entry>)
    ensures Told(w, OnRelayEnds(w, ws, delivered), news)
  {
    hide Told, FactsOf, Record.ApplyStatus;
    var t := OnRelayEnds(w, ws, delivered);
    news := [];
    if t.trace == w.trace {
      NothingTold(w, t);
    } else {
      var rec, phase := w.hub.pcs[ws].rec, w.hub.pcs[ws].kind.phase.value;
      StretchFacts(w.hub.records[rec], rec, ws, 0.0, w.utc, w.mono, phase, "");
      news := [Reported(rec, phase)];
      OneTold(w, t, Reported(rec, phase));
    }
  }

  lemma ApproveTold(w: World, ws: Socket, id: string) returns (news: seq<Entry>)
    ensures Told(w, OnApprove(w, ws, id), news)
  {
    hide Told;
    var t := OnApprove(w, ws, id);
    news := [];
    if t.trace == w.trace {
      NothingTold(w, t);
    } else {
      news := [Entry.Approve(w.hub.robots[id])];
      OneTold(w, t, Entry.Approve(w.hub.robots[id]));
    }
  }

  lemma AttachTold(w: World, ws: Socket, choice: Option<string>) returns (news: seq<Entry>)
    ensures Told(w, OnAttachLocked(w, ws, choice), news)
  {
    hide Told, FactsOf, Hub.HeldChoice, Record.AttachCode, Record.Hold;
    var t := OnAttachLocked(w, ws, choice);
    news := [];
    if t.trace == w.trace {
      NothingTold(w, t);
    } else {
      var rec, name := w.hub.pcs[ws].rec, w.hub.pcs[ws].username;
      StretchFacts(w.hub.records[rec], rec, ws, 0.0, w.utc, w.mono, Idle, name);
      news := [Entry.Attach(rec, ws, name)];
      OneTold(w, t, Entry.Attach(rec, ws, name));
    }
  }

  /** A hold ends, with or without the robot's socket. */
  lemma EndTold(w: World, t: World, rec: RecId, d: Record, gone: bool) returns (news: seq<Entry>)
    requires rec < |w.hub.records| && t.hub.records == w.hub.records[rec := d]
    requires t.trace == w.trace + if gone then [Entry.Detach(rec), SocketGone(rec)] else [Entry.Detach(rec)]
    requires FactsOf(d) == Tell(FactsOf(w.hub.records[rec]), rec, Entry.Detach(rec))
    ensures Told(w, t, news)
  {
    hide Told, FactsOf;
    if gone {
      news := [Entry.Detach(rec), SocketGone(rec)];
      TwoTold(w, t, Entry.Detach(rec), SocketGone(rec));
    } else {
      news := [Entry.Detach(rec)];
      OneTold(w, t, Entry.Detach(rec));
    }
  }

  lemma ReleaseTold(w: World, ws: Socket, rec: RecId, t: World) returns (news: seq<Entry>)
    requires rec < |w.hub.records|
    requires t.trace == ReleaseFrom(w, ws, rec).trace && t.hub.records == ReleaseFrom(w, ws, rec).hub.records
    ensures Told(w, t, news)
  {
    hide Told, FactsOf, Record.Released;
    news := [];
    if w.hub.records[rec].operator == Some(ws) {
      StretchFacts(w.hub.records[rec], rec, ws, 0.0, w.utc, w.mono, Idle, "");
      news := EndTold(w, t, rec, w.hub.records[rec].Released(w.utc), false);
    } else {
      NothingTold(w, t);
    }
  }

  lemma DropTold(w: World, ws: Socket, rec: RecId, t: World) returns (news: seq<Entry>)
    requires rec < |w.hub.records|
    requires t.trace == DropFrom(w, ws, rec).trace && t.hub.records == DropFrom(w, ws, rec).hub.records
    ensures Told(w, t, news)
  {
    hide Told, FactsOf, Record.Dropped, DropFrom;
    news := [];
    var r := w.hub.records[rec];
    DropFromIs(w, ws, rec);
    StretchFacts(r, rec, ws, 0.0, w.utc, w.mono, Idle, "");
    if r.robot == Some(ws) || r.operator == Some(ws) {
      news := EndTold(w, t, rec, r.Dropped(ws, w.utc), r.robot == Some(ws));
    } else {
      assert w.trace + [] == w.trace;
      NothingTold(w, t);
    }
  }

  lemma ForgetTold(w: World, id: string) returns (news: seq<Entry>)
    ensures Told(w, OnForget(w, id), news)
  {
    hide Told, FactsOf, Record.Forgotten;
    news := [];
    var t := OnForget(w, id);
    if t.trace == w.trace {
      NothingTold(w, t);
    } else {
      var rec := w.hub.robots[id];
      StretchFacts(w.hub.records[rec], rec, 0, 0.0, w.utc, w.mono, Idle, "");
      news := EndTold(w, t, rec, w.hub.records[rec].Forgotten(), true);
    }
  }

  lemma SweepTold(w: World, id: string) returns (news: seq<Entry>)
    requires Inv(w.hub)
    ensures Told(w, OnSweep(w, id), news)
  {
    hide Told, Inv, FactsOf, Record.Swept, Record.SweepResult, Record.IsStale;
    news := [];
    var t := OnSweep(w, id);
    if t == w {
      NothingTold(w, t);
    } else {
      var rec := w.hub.robots[id];
      GetRecord(w.hub, rec);
      SweptFacts(w.hub.records[rec], w.utc, w.mono);
      if t.trace == w.trace {
        SameTold(w, t);
      } else {
        var e := t.trace[|w.trace|];
        assert t.trace == w.trace + [e];
        news := [e];
        OneTold(w, t, e);
      }
    }
  }

  lemma SameTold(w: World, t: World)
    requires t.trace == w.trace && |t.hub.records| == |w.hub.records|
    requires forall k :: 0 <= k < |w.hub.records| ==> FactsOf(t.hub.records[k]) == FactsOf(w.hub.records[k])
    ensures Told(w, t, [])
  {
    assert w.trace + [] == w.trace;
  }

  lemma StaleStopTold(w: World) returns (news: seq<Entry>)
    ensures Told(w, OnStaleStop(w), news)
  {
    hide Told, FactsOf, Record.StaleStopped;
    news := [];
    var t := OnStaleStop(w);
    if t.trace == w.trace {
      NothingTold(w, t);
    } else {
      var StopWait(rec, robot, operator) := w.hub.maintain;
      StretchFacts(w.hub.records[rec], rec, 0, 0.0, w.utc, w.mono, Idle, "");
      news := [OwnStop(rec, robot, operator), Entry.Detach(rec)];
      TwoTold(w, t, OwnStop(rec, robot, operator), Entry.Detach(rec));
    }
  }

  lemma QuietTold(w: World, e: Event)
    requires RegistryTrace.Quiet(e)
    ensures Told(w, Step(w, e), [])
  {
    hide Told;
    if ByRobot(e) {
      hide OnRegister, OnMatched, OnTakeAgain, OnRelayFrame;
      match e {
        case RegisterFrame(ws, id) => RegisterIsQuiet(w, ws, id);
        case Matched(ws, ok) => MatchedIsQuiet(w, ws, ok);
        case TakeAgain(ws) => MatchedIsQuiet(w, ws, true);
        case RelayFrame(ws, kind, choice) => RelayFrameIsQuiet(w, ws, kind, choice);
      }
    } else if ByOperator(e) {
      QuietOperatorSame(w, e);
    } else {
      QuietRestSame(w, e);
    }
    NothingTold(w, Step(w, e));
  }

  lemma QuietOperatorSame(w: World, e: Event)
    requires RegistryTrace.Quiet(e) && ByOperator(e)
    ensures Step(w, e).trace == w.trace && Step(w, e).hub.records == w.hub.records
  {
    hide Hub.HeldChoice, Record.AttachCode;
  }

  lemma QuietRestSame(w: World, e: Event)
    requires RegistryTrace.Quiet(e) && !ByOperator(e) && !ByRobot(e)
    ensures Step(w, e).trace == w.trace && Step(w, e).hub.records == w.hub.records
  {
    hide Hub.HeldChoice, Hub.NamedChoice;
  }

  lemma LockedTold(w: World, e: Event) returns (news: seq<Entry>)
    requires e.ReleaseLocked? || e.DropLocked? || e.MaintainRelease? || e.MaintainDrop?
    ensures Told(w, Step(w, e), news)
  {
    hide Told, ReleaseFrom, DropFrom;
    news := [];
    if e.ReleaseLocked? && e.ws in w.hub.pcs && w.hub.pcs[e.ws].ReleaseWait? && w.hub.Lockable(w.hub.pcs[e.ws].rec) {
      news := ReleaseTold(w, e.ws, w.hub.pcs[e.ws].rec, Step(w, e));
    } else if e.DropLocked? && e.ws in w.hub.pcs && w.hub.pcs[e.ws].DropWait? && w.hub.Lockable(w.hub.pcs[e.ws].rec) {
      news := DropTold(w, e.ws, w.hub.pcs[e.ws].rec, Step(w, e));
    } else if e.MaintainRelease? && w.hub.maintain.ReleaseFor? && w.hub.Lockable(w.hub.maintain.rec) {
      news := ReleaseTold(w, w.hub.maintain.ws, w.hub.maintain.rec, Step(w, e));
    } else if e.MaintainDrop? && w.hub.maintain.DropFor? && w.hub.Lockable(w.hub.maintain.rec) {
      news := DropTold(w, w.hub.maintain.ws, w.hub.maintain.rec, Step(w, e));
    } else {
      NothingTold(w, Step(w, e));
    }
  }

  /** Every event changes the records' facts exactly as the entries it adds to the trace say. */
  lemma StepTold(w: World, e: Event) returns (news: seq<Entry>)
    requires Inv(w.hub)
    ensures Told(w, Step(w, e), news)
  {
    hide Told, Inv;
    if RegistryTrace.Quiet(e) {
      news := [];
      QuietTold(w, e);
    } else if e.ReleaseLocked? || e.DropLocked? || e.MaintainRelease? || e.MaintainDrop? {
      news := LockedTold(w, e);
    } else {
      hide OnApprove, OnHashed, OnTake, OnPresence, OnForward, OnRelayEnds, OnAttachLocked, OnForget, OnSweep, OnStaleStop;
      match e
      case Hashed(ws, digest) => news := HashedTold(w, ws, digest);
      case Take(ws) => news := TakeTold(w, ws);
      case PresenceFrame(ws, phase) => news := PresenceTold(w, ws, phase);
      case Forward(ws) => news := ForwardTold(w, ws);
      case RelayEnds(ws, delivered) => news := RelayEndsTold(w, ws, delivered);
      case ApproveFrame(ws, id) => news := ApproveTold(w, ws, id);
      case AttachLocked(ws, choice) => news := AttachTold(w, ws, choice);
      case Forget(id) => news := ForgetTold(w, id);
      case SweepRobot(id) => news := SweepTold(w, id);
      case StaleStop => news := StaleStopTold(w);
    }
  }

  // ---------- Whole runs ----------

  /** What a record starts from: its row, or nothing for a robot that registers during the run. */
  function Born(w: World, rec: RecId): Facts {
    if rec < |w.hub.records| then FactsOf(w.hub.records[rec]) else NEWBORN
  }

  ghost predicate FactsFollow(w: World, t: World) {
    && |t.hub.records| >= |w.hub.records|
    && (forall k: nat :: k < |t.hub.records| ==> FactsOf(t.hub.records[k]) == TellAll(Born(w, k), k, t.trace))
    && (forall k: nat :: k >= |t.hub.records| ==> TellAll(Born(w, k), k, t.trace) == NEWBORN)
  }

  lemma ToldFollows(w: World, m: World, t: World, news: seq<Entry>)
    requires FactsFollow(w, m) && Told(m, t, news)
    ensures FactsFollow(w, t)
  {
    hide FactsOf, TellAll, Born;
    forall k: nat ensures TellAll(Born(w, k), k, t.trace) == TellAll(TellAll(Born(w, k), k, m.trace), k, news) {
      TellAppends(Born(w, k), k, m.trace, news);
    }
    forall k: nat | k >= |t.hub.records| ensures TellAll(Born(w, k), k, t.trace) == NEWBORN {
      TellOthers(NEWBORN, k, news);
    }
  }

  /**
    Over every run, in every interleaving, each record is approved, named, in a phase, stamped,
    starting and noticed exactly as the trace says.
   */
  lemma {:induction false} RunFacts(w: World, es: seq<Event>)
    requires Initial(w)
    ensures FactsFollow(w, Run(w, es))
  {
    if es == [] {
      assert Run(w, es) == w && w.trace == [];
    } else {
      hide FactsFollow, Told, Inv, Step, Initial;
      RunFacts(w, es[..|es| - 1]);
      RunInv(w, es[..|es| - 1]);
      var news := StepTold(Run(w, es[..|es| - 1]), es[|es| - 1]);
      ToldFollows(w, Run(w, es[..|es| - 1]), Run(w, es), news);
    }
  }

  // ---------- What that means ----------

  lemma {:induction false} ApprovedSince(f: Facts, rec: RecId, trace: seq<Entry>)
    ensures TellAll(f, rec, trace).approved <==> f.approved || Entry.Approve(rec) in trace
  {
    if trace != [] {
      ApprovedSince(f, rec, trace[..|trace| - 1]);
      assert trace == trace[..|trace| - 1] + [trace[|trace| - 1]];
    }
  }

  /**
    Only an approval approves. Over every run, a record is approved exactly when its row was or an
    operator has approved it, and while it is not approved nobody holds it.
   */
  lemma UnapprovedIsFree(w: World, es: seq<Event>, rec: RecId)
    requires Initial(w) && rec < |Run(w, es).hub.records|
    ensures var t := Run(w, es);
            && (t.hub.records[rec].approved <==>
                  (rec < |w.hub.records| && w.hub.records[rec].approved) || Entry.Approve(rec) in t.trace)
            && (!t.hub.records[rec].approved ==> t.hub.records[rec].operator == None)
  {
    hide Run, TellAll;
    RunFacts(w, es);
    RunInv(w, es);
    GetRecord(Run(w, es).hub, rec);
    ApprovedSince(Born(w, rec), rec, Run(w, es).trace);
  }

  /** Every hold was taken while the record was approved: an event that logs an attach finds it so. */
  lemma AttachesAreApproved(w: World, es: seq<Event>, e: Event, rec: RecId, ws: Socket, name: string)
    requires Initial(w) && Step(Run(w, es), e).trace == Run(w, es).trace + [Entry.Attach(rec, ws, name)]
    ensures var before, after := Run(w, es), Step(Run(w, es), e);
            && rec < |before.hub.records| && rec < |after.hub.records| && before.hub.records[rec].approved
            && after.hub.records[rec].operator == Some(ws) && after.hub.records[rec].operatorName == Some(name)
  {
    hide Run, TellAll, FactsOf, HolderIn, RobotIn, NoticeIn, Initial, Inv, Step, Told;
    var before, after := Run(w, es), Step(Run(w, es), e);
    assert after == Run(w, es + [e]) by { OneMoreEvent(w, es, e); }
    RunInv(w, es);
    var news := StepTold(before, e);
    ToldTrace(before, after, news);
    assert before.trace + news == before.trace + [Entry.Attach(rec, ws, name)];
    assert news == [Entry.Attach(rec, ws, name)] by { SameTail(before.trace, news, [Entry.Attach(rec, ws, name)]); }
    OnlyAttachAttaches(before, after, rec, ws, name);
    AttachedIsApproved(w, es + [e], rec, ws, name);
  }

  lemma ToldTrace(w: World, t: World, news: seq<Entry>)
    requires Told(w, t, news)
    ensures t.trace == w.trace + news
  {
  }

  lemma SameTail(front: seq<Entry>, a: seq<Entry>, b: seq<Entry>)
    requires front + a == front + b
    ensures a == b
  {
    assert (front + a)[|front|..] == a && (front + b)[|front|..] == b;
  }

  lemma OneMoreEvent(w: World, es: seq<Event>, e: Event)
    ensures Run(w, es + [e]) == Step(Run(w, es), e)
  {
    assert (es + [e])[..|es|] == es;
  }

  lemma OnlyAttachAttaches(w: World, t: World, rec: RecId, ws: Socket, name: string)
    requires Told(w, t, [Entry.Attach(rec, ws, name)])
    ensures rec < |t.hub.records|
    ensures t.hub.records[rec].operatorName == Some(name)
    ensures rec < |w.hub.records| ==> t.hub.records[rec].approved == w.hub.records[rec].approved
    ensures rec >= |w.hub.records| ==> !t.hub.records[rec].approved
  {
    hide TellAll;
    var e := Entry.Attach(rec, ws, name);
    assert [e][0].rec < |t.hub.records|;
    TellOne(if rec < |w.hub.records| then FactsOf(w.hub.records[rec]) else NEWBORN, rec, e);
  }

  lemma AttachedIsApproved(w: World, es: seq<Event>, rec: RecId, ws: Socket, name: string)
    requires Initial(w) && rec < |Run(w, es).hub.records| && Run(w, es).trace != []
    requires Run(w, es).trace[|Run(w, es).trace| - 1] == Entry.Attach(rec, ws, name)
    ensures Run(w, es).hub.records[rec].operator == Some(ws) && Run(w, es).hub.records[rec].approved
  {
    hide Run;
    RunTrace(w, es);
    RunInv(w, es);
    GetRecord(Run(w, es).hub, rec);
    Mirrored(Run(w, es), rec);
  }

  /** What ends a pending start. */
  predicate EndsStart(e: Entry, rec: RecId) {
    e.rec == rec && (e.Detach? || (e.Reported? && e.phase in {Ready, Stopped, Error}))
  }

  predicate StartedFrom(trace: seq<Entry>, m: nat, rec: RecId) {
    && m < |trace| && trace[m].Relay? && trace[m].rec == rec && trace[m].kind.StartFrame?
    && forall k :: m < k < |trace| ==> !EndsStart(trace[k], rec)
  }

  lemma StartedBefore(trace: seq<Entry>, m: nat, rec: RecId)
    requires StartedFrom(trace, m, rec) && m < |trace| - 1
    ensures StartedFrom(trace[..|trace| - 1], m, rec) && !EndsStart(trace[|trace| - 1], rec)
  {
  }

  lemma {:induction false} StartsSince(f: Facts, rec: RecId, trace: seq<Entry>)
    requires !f.starting
    ensures TellAll(f, rec, trace).starting <==> exists m: nat :: StartedFrom(trace, m, rec)
  {
    if trace != [] {
      var init := trace[..|trace| - 1];
      StartsSince(f, rec, init);
      if exists m: nat :: StartedFrom(trace, m, rec) {
        var m: nat :| StartedFrom(trace, m, rec);
        if m < |init| {
          StartedBefore(trace, m, rec);
        }
      }
      if TellAll(f, rec, trace).starting {
        if TellAll(f, rec, init).starting {
          var m: nat :| StartedFrom(init, m, rec);
          assert StartedFrom(trace, m, rec);
        } else {
          assert StartedFrom(trace, |init|, rec);
        }
      }
    }
  }

  /**
    Over every run, a start is in progress exactly when the holder's start was relayed and since
    then the robot has not reported ready, stopped or an error and the hold has not ended.
   */
  lemma StartIsPending(w: World, es: seq<Event>, rec: RecId)
    requires Initial(w) && rec < |Run(w, es).hub.records|
    ensures Run(w, es).hub.records[rec].startInProgress <==> exists m: nat :: StartedFrom(Run(w, es).trace, m, rec)
  {
    hide Run, TellAll;
    RunFacts(w, es);
    if rec < |w.hub.records| {
      assert RegistrySteps.Unused(w.hub.records[rec]);
    }
    StartsSince(Born(w, rec), rec, Run(w, es).trace);
  }

  /** The answer to an attach, case by case: what an operator must find to be let in, and what it is told otherwise. */
  lemma AttachExactly(r: Record, ws: Socket, held: bool, utc: real)
    ensures var code := r.AttachCode(ws, held, utc);
            && (code == Attached <==> && r.approved && r.robot.Some? && !held
                                      && (r.operator == Some(ws) || (r.operator == None && !r.IsStale(utc))))
            && (code == Pending <==> !r.approved)
            && (code == Offline <==> r.approved && (r.robot == None || (r.operator == None && r.IsStale(utc))))
            && (code == Busy <==> r.approved && r.robot.Some? && r.operator.Some? && r.operator != Some(ws))
  {
  }

  /** An attach to a record that is not approved is told so and changes nothing, before the lock and under it. */
  lemma UnapprovedAttachDoesNothing(w: World, ws: Socket, id: string, choice: Option<string>)
    ensures id in w.hub.robots && w.hub.robots[id] < |w.hub.records| && !w.hub.records[w.hub.robots[id]].approved
            ==> OnAttach(w, ws, id, choice) == w && w.hub.records[w.hub.robots[id]].AttachCode(ws, choice.Some?, w.utc) == Pending
    ensures ws in w.hub.pcs && w.hub.pcs[ws].AttachWait? && w.hub.pcs[ws].rec < |w.hub.records|
            && !w.hub.records[w.hub.pcs[ws].rec].approved
            ==> var t := OnAttachLocked(w, ws, choice);
                t.trace == w.trace && t.hub.records == w.hub.records && t.hub == w.hub.(pcs := t.hub.pcs)
  {
    hide Hub.HeldChoice;
  }

  // ---------- What a sweep decides ----------

  /** The stamp is older than the limit, as the trace has it. */
  predicate SeenLongAgo(f: Facts, utc: real) {
    f.seen.Some? && utc - f.seen.value >= 30.0
  }

  /**
    Over every run, what a sweep decides of a record follows from the trace. With a robot socket, a
    holder and an old stamp: the holder is told once; and the stop is due when the last notice
    stands, uncancelled, and the wait has passed since. Otherwise neither.
   */
  lemma SweepIsDecided(w: World, es: seq<Event>, rec: RecId)
    requires Initial(w) && rec < |Run(w, es).hub.records|
    ensures var t := Run(w, es);
            var f, notice := TellAll(Born(w, rec), rec, t.trace), NoticeIn(t.trace, rec);
            var stale := RobotIn(t.trace, rec).Some? && HolderIn(t.trace, rec).Some? && SeenLongAgo(f, t.utc);
            var result := t.hub.records[rec].SweepResult(t.utc, t.mono);
            && (result == Notice <==> stale && !f.noticed)
            && (result == Due <==> stale && f.noticed && notice.Some? && t.mono >= notice.value.1 + 30.0)
  {
    hide Run, TellAll, NoticeIn, RobotIn, HolderIn;
    RunFacts(w, es);
    RunTrace(w, es);
    RunInv(w, es);
    GetRecord(Run(w, es).hub, rec);
    Mirrored(Run(w, es), rec);
  }
}
