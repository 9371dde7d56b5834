/**
  What every trace of the registry looks like: commands only from the holder, and the registry's
  own stop only after a notice that nothing cancelled.
 */
module RegistryTrace {
  import opened Wrappers
  import opened RegistryRecord
  import opened RegistrySteps
  import opened RegistryInvariant
  import opened RegistrySafety

  // ---------- Reading a trace ----------

  /** Who holds the record: the last attach, if no detach followed. */
  function HolderIn(trace: seq<Entry>, rec: RecId): Option<Socket> {
    if trace == [] then None
    else
      match trace[|trace| - 1]
      case Attach(r, s, _) => if r == rec then Some(s) else HolderIn(trace[..|trace| - 1], rec)
      case Detach(r) => if r == rec then None else HolderIn(trace[..|trace| - 1], rec)
      case _ => HolderIn(trace[..|trace| - 1], rec)
  }

  function RobotIn(trace: seq<Entry>, rec: RecId): Option<Socket> {
    if trace == [] then None
    else
      match trace[|trace| - 1]
      case TookSocket(r, s, _) => if r == rec then Some(s) else RobotIn(trace[..|trace| - 1], rec)
      case SocketGone(r) => if r == rec then None else RobotIn(trace[..|trace| - 1], rec)
      case _ => RobotIn(trace[..|trace| - 1], rec)
  }

  /** The last stale notice, if neither a cancel nor a detach followed. */
  function NoticeIn(trace: seq<Entry>, rec: RecId): Option<(Socket, real)> {
    if trace == [] then None
    else
      match trace[|trace| - 1]
      case StaleNotice(r, s, atS) => if r == rec then Some((s, atS)) else NoticeIn(trace[..|trace| - 1], rec)
      case Detach(r) => if r == rec then None else NoticeIn(trace[..|trace| - 1], rec)
      case Cancel(r, _) => if r == rec then None else NoticeIn(trace[..|trace| - 1], rec)
      case Seen(r, _, _) => if r == rec then None else NoticeIn(trace[..|trace| - 1], rec)
      case Reported(r, phase) => if r == rec && phase == Stopped then None else NoticeIn(trace[..|trace| - 1], rec)
      case _ => NoticeIn(trace[..|trace| - 1], rec)
  }

  /** What the sweep last found due. */
  function DueIn(trace: seq<Entry>): Option<(RecId, Socket, Socket)> {
    if trace == [] then None
    else
      match trace[|trace| - 1]
      case StopDue(rec, robot, operator, _) => Some((rec, robot, operator))
      case _ => DueIn(trace[..|trace| - 1])
  }

  predicate EntryOk(earlier: seq<Entry>, e: Entry) {
    match e
    case Attach(rec, s, _) => RobotIn(earlier, rec).Some? && (HolderIn(earlier, rec) == None || HolderIn(earlier, rec) == Some(s))
    case Relay(rec, sender, receiver, kind) =>
      if kind.AllowedFrom(OperatorSide) then HolderIn(earlier, rec) == Some(sender) && RobotIn(earlier, rec) == Some(receiver)
      else RobotIn(earlier, rec) == Some(sender) && HolderIn(earlier, rec) == Some(receiver)
    case StaleNotice(rec, s, _) => HolderIn(earlier, rec) == Some(s)
    case Seen(rec, _, _) => RobotIn(earlier, rec).Some?
    case Reported(rec, _) => RobotIn(earlier, rec).Some?
    case StopDue(rec, robot, s, atS) =>
      && RobotIn(earlier, rec) == Some(robot) && HolderIn(earlier, rec) == Some(s)
      && NoticeIn(earlier, rec).Some? && NoticeIn(earlier, rec).value.0 == s
      && NoticeIn(earlier, rec).value.1 + STALE_STOP_WAIT_S <= atS
    case OwnStop(rec, robot, s) =>
      && DueIn(earlier) == Some((rec, robot, s))
      && RobotIn(earlier, rec) == Some(robot) && HolderIn(earlier, rec) == Some(s)
    case _ => true
  }

  predicate TraceOk(trace: seq<Entry>) {
    trace == [] || (TraceOk(trace[..|trace| - 1]) && EntryOk(trace[..|trace| - 1], trace[|trace| - 1]))
  }

  // ---------- The records mirror the trace ----------

  predicate Mirrors(trace: seq<Entry>, rec: RecId, r: Record) {
    && r.operator == HolderIn(trace, rec) && r.robot == RobotIn(trace, rec)
    && var notice := NoticeIn(trace, rec);
       && (notice == None ==> r.staleDeadline == None)
       && (notice.Some? ==> r.staleDeadline == Some(notice.value.1 + STALE_STOP_WAIT_S) && r.operator == Some(notice.value.0))
  }

  predicate Untouched(trace: seq<Entry>, rec: RecId) {
    HolderIn(trace, rec) == None && RobotIn(trace, rec) == None && NoticeIn(trace, rec) == None
  }

  ghost predicate TraceInv(w: World) {
    && TraceOk(w.trace)
    && (forall rec :: 0 <= rec < |w.hub.records| ==> Mirrors(w.trace, rec, w.hub.records[rec]))
    && (forall rec: nat :: rec >= |w.hub.records| ==> Untouched(w.trace, rec))
    && (w.hub.maintain.StopWait? ==>
          DueIn(w.trace) == Some((w.hub.maintain.rec, w.hub.maintain.robot, w.hub.maintain.operator)))
  }

  lemma Unwind(trace: seq<Entry>, e: Entry)
    ensures (trace + [e])[..|trace + [e]| - 1] == trace
  {
  }

  /** An entry about one record says nothing of another. */
  lemma Other(trace: seq<Entry>, e: Entry, rec: RecId)
    requires e.rec != rec
    ensures HolderIn(trace + [e], rec) == HolderIn(trace, rec) && RobotIn(trace + [e], rec) == RobotIn(trace, rec)
    ensures NoticeIn(trace + [e], rec) == NoticeIn(trace, rec)
  {
    Unwind(trace, e);
  }

  lemma Same(trace: seq<Entry>, e: Entry)
    ensures HolderIn(trace + [e], e.rec) == (match e case Attach(_, s, _) => Some(s) case Detach(_) => None case _ => HolderIn(trace, e.rec))
    ensures RobotIn(trace + [e], e.rec) == (match e case TookSocket(_, s, _) => Some(s) case SocketGone(_) => None case _ => RobotIn(trace, e.rec))
    ensures NoticeIn(trace + [e], e.rec)
         == (match e case StaleNotice(_, s, atS) => Some((s, atS)) case Detach(_) => None case Cancel(_, _) => None
             case Seen(_, _, _) => None case Reported(_, Stopped) => None case _ => NoticeIn(trace, e.rec))
    ensures DueIn(trace + [e]) == (match e case StopDue(rec, robot, s, _) => Some((rec, robot, s)) case _ => DueIn(trace))
    ensures TraceOk(trace + [e]) <==> TraceOk(trace) && EntryOk(trace, e)
  {
    Unwind(trace, e);
  }

  /** One record changed, or was added, with one entry about it. */
  lemma OneEntry(w: World, t: World, e: Entry)
    requires TraceInv(w) && t.trace == w.trace + [e] && EntryOk(w.trace, e) && e.rec < |t.hub.records|
    requires |t.hub.records| == |w.hub.records| || (|t.hub.records| == |w.hub.records| + 1 && e.rec == |w.hub.records|)
    requires forall k :: 0 <= k < |w.hub.records| && k != e.rec ==> t.hub.records[k] == w.hub.records[k]
    requires Mirrors(t.trace, e.rec, t.hub.records[e.rec])
    requires t.hub.maintain.StopWait? ==>
               if e.StopDue? then t.hub.maintain == StopWait(e.rec, e.robot, e.operator) else t.hub.maintain == w.hub.maintain
    ensures TraceInv(t)
  {
    hide Mirrors, EntryOk;
    Same(w.trace, e);
    forall rec | 0 <= rec < |t.hub.records| ensures Mirrors(t.trace, rec, t.hub.records[rec]) {
      if rec != e.rec {
        MirrorsOther(w.trace, e, rec, w.hub.records[rec]);
      }
    }
    forall rec: nat | rec >= |t.hub.records| ensures Untouched(t.trace, rec) {
      assert Untouched(w.trace, rec);
      Other(w.trace, e, rec);
    }
  }

  lemma MirrorsOther(trace: seq<Entry>, e: Entry, rec: RecId, r: Record)
    requires Mirrors(trace, rec, r) && e.rec != rec
    ensures Mirrors(trace + [e], rec, r)
  {
    hide HolderIn, RobotIn, NoticeIn;
    Other(trace, e, rec);
  }

  /** Nothing logged, and no record's sockets or deadline changed. */
  lemma NoEntry(w: World, t: World)
    requires TraceInv(w) && t.trace == w.trace && |t.hub.records| == |w.hub.records|
    requires forall k :: 0 <= k < |w.hub.records| ==> Alike(t.hub.records[k], w.hub.records[k])
    requires t.hub.maintain.StopWait? ==> t.hub.maintain == w.hub.maintain
    ensures TraceInv(t)
  {
    forall rec | 0 <= rec < |t.hub.records| ensures Mirrors(t.trace, rec, t.hub.records[rec]) {
      assert Mirrors(w.trace, rec, w.hub.records[rec]) && Alike(t.hub.records[rec], w.hub.records[rec]);
    }
    forall rec: nat | rec >= |t.hub.records| ensures Untouched(t.trace, rec) {
      assert Untouched(w.trace, rec);
    }
  }

  lemma NothingChanged(w: World, t: World)
    requires TraceInv(w) && t.trace == w.trace && t.hub.records == w.hub.records
    requires t.hub.maintain.StopWait? ==> t.hub.maintain == w.hub.maintain
    ensures TraceInv(t)
  {
    NoEntry(w, t);
  }

  predicate Alike(a: Record, b: Record) {
    a.robot == b.robot && a.operator == b.operator && a.staleDeadline == b.staleDeadline
  }

  /** Two entries about one record, through a record in between. */
  lemma TwoEntries(w: World, t: World, mid: Record, e: Entry, f: Entry)
    requires TraceInv(w) && e.rec == f.rec < |w.hub.records| == |t.hub.records|
    requires t.trace == w.trace + [e, f] && EntryOk(w.trace, e) && EntryOk(w.trace + [e], f)
    requires forall k :: 0 <= k < |w.hub.records| && k != e.rec ==> t.hub.records[k] == w.hub.records[k]
    requires Mirrors(w.trace + [e], e.rec, mid) && Mirrors(w.trace + [e] + [f], e.rec, t.hub.records[e.rec])
    requires !e.StopDue? && !f.StopDue? && (t.hub.maintain.StopWait? ==> t.hub.maintain == w.hub.maintain)
    ensures TraceInv(t)
  {
    hide Mirrors, EntryOk, TraceInv;
    assert w.trace + [e, f] == w.trace + [e] + [f];
    var m := World(t.hub.(records := w.hub.records[e.rec := mid]), w.mono, w.utc, w.trace + [e]);
    OneEntry(w, m, e);
    OneEntry(m, t, f);
  }

  lemma Mirrored(w: World, rec: RecId)
    requires TraceInv(w) && rec < |w.hub.records|
    ensures Mirrors(w.trace, rec, w.hub.records[rec])
  {
  }

  // ---------- The steps ----------

  predicate Quiet(e: Event) {
    || e.Clock? || e.ClearRow? || e.Connect? || e.Leave? || e.RegisterFrame? || e.Matched? || e.TakeAgain? || e.RelayFrame?
    || e.BeginDrop? || e.Disconnect?
    || (ByOperator(e) && !e.ApproveFrame? && !e.AttachLocked? && !e.ReleaseLocked?)
  }

  lemma QuietStep(w: World, e: Event)
    requires TraceInv(w) && Quiet(e) && !ByOperator(e) && !ByRobot(e)
    ensures TraceInv(Step(w, e))
  {
    hide TraceInv, Hub.HeldChoice, Hub.NamedChoice;
    NothingChanged(w, Step(w, e));
  }

  lemma QuietRobotStep(w: World, e: Event)
    requires TraceInv(w) && Quiet(e) && ByRobot(e)
    ensures TraceInv(Step(w, e))
  {
    hide TraceInv, OnRegister, OnMatched, OnTakeAgain, OnRelayFrame;
    match e {
      case RegisterFrame(ws, id) => RegisterIsQuiet(w, ws, id);
      case Matched(ws, ok) => MatchedIsQuiet(w, ws, ok);
      case TakeAgain(ws) => MatchedIsQuiet(w, ws, true);
      case RelayFrame(ws, kind, choice) => RelayFrameIsQuiet(w, ws, kind, choice);
    }
    NothingChanged(w, Step(w, e));
  }

  predicate SameLog(w: World, t: World) {
    t.trace == w.trace && t.hub.records == w.hub.records && t.hub.maintain == w.hub.maintain
  }

  lemma RegisterIsQuiet(w: World, ws: Socket, id: string)
    ensures SameLog(w, OnRegister(w, ws, id))
  {
    hide Hub.PendingCount, Still;
  }

  lemma MatchedIsQuiet(w: World, ws: Socket, ok: bool)
    ensures SameLog(w, OnMatched(w, ws, ok)) && SameLog(w, OnTakeAgain(w, ws))
  {
  }

  lemma RelayFrameIsQuiet(w: World, ws: Socket, kind: Kind, choice: Option<string>)
    ensures SameLog(w, OnRelayFrame(w, ws, kind, choice))
  {
    hide Still, Kind.AllowedFrom, Hub.HeldChoice;
  }

  lemma QuietOperatorStep(w: World, e: Event)
    requires TraceInv(w) && Quiet(e) && ByOperator(e)
    ensures TraceInv(Step(w, e))
  {
    hide TraceInv, Hub.HeldChoice, Record.AttachCode;
    NothingChanged(w, Step(w, e));
  }

  lemma ApproveTrace(w: World, ws: Socket, id: string)
    requires TraceInv(w)
    ensures TraceInv(OnApprove(w, ws, id))
  {
    hide TraceInv, HolderIn, RobotIn, NoticeIn, DueIn;
    var t := OnApprove(w, ws, id);
    if t.trace == w.trace {
      NothingChanged(w, t);
    } else {
      var rec := w.hub.robots[id];
      Mirrored(w, rec);
      Same(w.trace, Entry.Approve(rec));
      OneEntry(w, t, Entry.Approve(rec));
    }
  }

  lemma HashedTrace(w: World, ws: Socket, digest: int)
    requires TraceInv(w)
    ensures TraceInv(OnHashed(w, ws, digest))
  {
    hide TraceInv, Hub.PendingCount, Mirrors;
    var t := OnHashed(w, ws, digest);
    if |t.hub.records| == |w.hub.records| {
      NoEntry(w, t);
    } else {
      var e := TookSocket(|w.hub.records|, ws, w.utc.Floor as real);
      NewMirror(w, e, t.hub.records[|w.hub.records|]);
      OneEntry(w, t, e);
    }
  }

  lemma NewMirror(w: World, e: Entry, r: Record)
    requires TraceInv(w) && e.TookSocket? && e.rec == |w.hub.records|
    requires r.robot == Some(e.robot) && r.operator == None && r.staleDeadline == None
    ensures Mirrors(w.trace + [e], e.rec, r)
  {
    assert Untouched(w.trace, e.rec);
    Same(w.trace, e);
  }

  lemma TakeTrace(w: World, ws: Socket)
    requires TraceInv(w)
    ensures TraceInv(OnTake(w, ws))
  {
    if ws in w.hub.pcs && w.hub.pcs[ws].TakeWait? && w.hub.Lockable(w.hub.pcs[ws].rec) {
      hide TraceInv, HolderIn, RobotIn, NoticeIn, DueIn;
      var rec := w.hub.pcs[ws].rec;
      var r := w.hub.records[rec];
      Mirrored(w, rec);
      var took := TookSocket(rec, ws, w.hub.pcs[ws].stamp);
      Same(w.trace, took);
      Same(w.trace + [took], Cancel(rec, NewSocket));
      TwoEntries(w, OnTake(w, ws), r.(robot := Some(ws)), took, Cancel(rec, NewSocket));
    }
  }

  lemma PresenceTrace(w: World, ws: Socket, phase: Phase)
    requires TraceInv(w)
    ensures TraceInv(OnPresence(w, ws, phase))
  {
    var t := OnPresence(w, ws, phase);
    hide TraceInv, HolderIn, RobotIn, NoticeIn, DueIn;
    if t.trace == w.trace {
      NoEntry(w, t);
    } else {
      var rec := w.hub.pcs[ws].session.value;
      PresenceIsFresh(w.hub.records[rec], phase, w.utc);
      Mirrored(w, rec);
      Same(w.trace, Seen(rec, phase, w.utc.Floor as real));
      OneEntry(w, t, Seen(rec, phase, w.utc.Floor as real));
    }
  }

  lemma ForwardTrace(w: World, ws: Socket)
    requires TraceInv(w) && Inv(w.hub)
    ensures TraceInv(OnForward(w, ws))
  {
    hide TraceInv, HolderIn, RobotIn, NoticeIn, DueIn, Inv;
    var t := OnForward(w, ws);
    if t.trace == w.trace {
      NoEntry(w, t);
    } else {
      var ForwardWait(rec, side, kind) := w.hub.pcs[ws];
      Mirrored(w, rec);
      var e := t.trace[|w.trace|];
      assert t.trace == w.trace + [e];
      Same(w.trace, e);
      KindFitsSide(w.hub, ws);
      OneEntry(w, t, e);
    }
  }

  lemma KindFitsSide(h: Hub, ws: Socket)
    requires Inv(h) && ws in h.pcs && h.pcs[ws].ForwardWait?
    ensures h.pcs[ws].kind.AllowedFrom(h.pcs[ws].side)
  {
    assert PcOk(h, ws, h.pcs[ws]);
  }

  lemma RelayEndsTrace(w: World, ws: Socket, delivered: bool)
    requires TraceInv(w)
    ensures TraceInv(OnRelayEnds(w, ws, delivered))
  {
    hide TraceInv, HolderIn, RobotIn, NoticeIn, DueIn;
    var t := OnRelayEnds(w, ws, delivered);
    if t.trace == w.trace {
      NoEntry(w, t);
    } else {
      var rec := w.hub.pcs[ws].rec;
      Mirrored(w, rec);
      var e := Reported(rec, w.hub.pcs[ws].kind.phase.value);
      Same(w.trace, e);
      OneEntry(w, t, e);
    }
  }

  lemma AttachTrace(w: World, ws: Socket, choice: Option<string>)
    requires TraceInv(w) && Inv(w.hub)
    ensures TraceInv(OnAttachLocked(w, ws, choice))
  {
    hide TraceInv, HolderIn, RobotIn, NoticeIn, DueIn, Inv, Hub.HeldChoice;
    var t := OnAttachLocked(w, ws, choice);
    if t.trace == w.trace {
      NoEntry(w, t);
    } else {
      var rec := w.hub.pcs[ws].rec;
      Mirrored(w, rec);
      GetRecord(w.hub, rec);
      var e := Entry.Attach(rec, ws, w.hub.pcs[ws].username);
      Same(w.trace, e);
      OneEntry(w, t, e);
    }
  }

  /** A detach is logged exactly where a hold ends. */
  lemma DetachTrace(w: World, t: World, rec: RecId, d: Record)
    requires TraceInv(w) && rec < |w.hub.records| && t.trace == w.trace + [Entry.Detach(rec)]
    requires t.hub.records == w.hub.records[rec := d] && (t.hub.maintain.StopWait? ==> t.hub.maintain == w.hub.maintain)
    requires d.operator == None && d.staleDeadline == None && d.robot == w.hub.records[rec].robot
    ensures TraceInv(t)
  {
    hide TraceInv, HolderIn, RobotIn, NoticeIn, DueIn;
    Mirrored(w, rec);
    Same(w.trace, Entry.Detach(rec));
    OneEntry(w, t, Entry.Detach(rec));
  }

  lemma GoneTrace(w: World, t: World, rec: RecId, d: Record)
    requires TraceInv(w) && rec < |w.hub.records| && t.trace == w.trace + [Entry.Detach(rec), SocketGone(rec)]
    requires t.hub.records == w.hub.records[rec := d] && (t.hub.maintain.StopWait? ==> t.hub.maintain == w.hub.maintain)
    requires d.operator == None && d.staleDeadline == None && d.robot == None
    ensures TraceInv(t)
  {
    hide TraceInv, HolderIn, RobotIn, NoticeIn, DueIn;
    Mirrored(w, rec);
    Same(w.trace, Entry.Detach(rec));
    Same(w.trace + [Entry.Detach(rec)], SocketGone(rec));
    TwoEntries(w, t, w.hub.records[rec].(operator := None, staleDeadline := None), Entry.Detach(rec), SocketGone(rec));
  }

  lemma ReleaseTrace(w: World, ws: Socket, rec: RecId, t: World)
    requires TraceInv(w) && rec < |w.hub.records|
    requires t.trace == ReleaseFrom(w, ws, rec).trace && t.hub.records == ReleaseFrom(w, ws, rec).hub.records
    requires t.hub.maintain.StopWait? ==> t.hub.maintain == w.hub.maintain
    ensures TraceInv(t)
  {
    hide TraceInv;
    if w.hub.records[rec].operator == Some(ws) {
      DetachTrace(w, t, rec, w.hub.records[rec].Released(w.utc));
    } else {
      NothingChanged(w, t);
    }
  }

  lemma DropTrace(w: World, ws: Socket, rec: RecId, t: World)
    requires TraceInv(w) && rec < |w.hub.records|
    requires t.trace == DropFrom(w, ws, rec).trace && t.hub.records == DropFrom(w, ws, rec).hub.records
    requires t.hub.maintain.StopWait? ==> t.hub.maintain == w.hub.maintain
    ensures TraceInv(t)
  {
    hide TraceInv, Record.Dropped, DropFrom;
    var r := w.hub.records[rec];
    DroppedSockets(r, ws, w.utc);
    DropFromIs(w, ws, rec);
    if r.robot == Some(ws) {
      GoneTrace(w, t, rec, r.Dropped(ws, w.utc));
    } else if r.operator == Some(ws) {
      DetachTrace(w, t, rec, r.Dropped(ws, w.utc));
    } else {
      NothingChanged(w, t);
    }
  }

  lemma DropFromIs(w: World, ws: Socket, rec: RecId)
    requires rec < |w.hub.records|
    ensures var r, d := w.hub.records[rec], DropFrom(w, ws, rec);
            && d.trace == w.trace + (if r.robot == Some(ws) then [Entry.Detach(rec), SocketGone(rec)]
                                     else if r.operator == Some(ws) then [Entry.Detach(rec)] else [])
            && d.hub.records == if r.robot == Some(ws) || r.operator == Some(ws) then w.hub.records[rec := r.Dropped(ws, w.utc)]
                                else w.hub.records
  {
    hide Record.Dropped;
  }

  lemma DroppedSockets(r: Record, ws: Socket, utc: real)
    ensures var d := r.Dropped(ws, utc);
            if r.robot == Some(ws) then d.robot == None && d.operator == None && d.staleDeadline == None
            else if r.operator == Some(ws) then d.robot == r.robot && d.operator == None && d.staleDeadline == None
            else d == r
  {
  }

  lemma ForgetTrace(w: World, id: string)
    requires TraceInv(w)
    ensures TraceInv(OnForget(w, id))
  {
    hide TraceInv;
    if OnForget(w, id) != w {
      GoneTrace(w, OnForget(w, id), w.hub.robots[id], w.hub.records[w.hub.robots[id]].Forgotten());
    }
  }

  /** What a sweep does to the fields the trace mirrors, and when it ends in a notice or a due stop. */
  lemma SweptFields(r: Record, utc: real, mono: real)
    requires r.Paired()
    ensures var s, result := r.Swept(utc, mono), r.SweepResult(utc, mono);
            && s.robot == r.robot && s.operator == r.operator
            && (result.Notice? ==> r.operator.Some? && s.staleDeadline == Some(mono + STALE_STOP_WAIT_S))
            && (result.Due? ==> r.robot.Some? && r.operator.Some? && s.staleDeadline == r.staleDeadline
                                && r.staleDeadline.Some? && mono >= r.staleDeadline.value)
            && (result.Quiet? ==> s.staleDeadline == if r.robot.Some? && !r.IsStale(utc) then None else r.staleDeadline)
  {
  }

  lemma SweepTrace(w: World, id: string)
    requires TraceInv(w) && Inv(w.hub)
    ensures TraceInv(OnSweep(w, id))
  {
    hide TraceInv, HolderIn, RobotIn, NoticeIn, DueIn, Inv, Record.Swept, Record.SweepResult, Record.IsStale;
    var t := OnSweep(w, id);
    if t != w {
      var rec := w.hub.robots[id];
      Mirrored(w, rec);
      GetRecord(w.hub, rec);
      SweptFields(w.hub.records[rec], w.utc, w.mono);
      if t.trace == w.trace {
        NoEntry(w, t);
      } else {
        var e := t.trace[|w.trace|];
        assert t.trace == w.trace + [e];
        Same(w.trace, e);
        OneEntry(w, t, e);
      }
    }
  }

  lemma StaleStopTrace(w: World)
    requires TraceInv(w)
    ensures TraceInv(OnStaleStop(w))
  {
    if w.hub.maintain.StopWait? && w.hub.Lockable(w.hub.maintain.rec) {
      var StopWait(rec, robot, operator) := w.hub.maintain;
      assert DueIn(w.trace) == Some((rec, robot, operator));
      hide TraceInv, HolderIn, RobotIn, NoticeIn, DueIn;
      var t, r := OnStaleStop(w), w.hub.records[rec];
      if r.robot != Some(robot) || r.operator != Some(operator) {
        NothingChanged(w, t);
      } else {
        Mirrored(w, rec);
        StopLogged(w, t, rec, robot, operator, r.StaleStopped());
      }
    }
  }

  lemma StopLogged(w: World, t: World, rec: RecId, robot: Socket, operator: Socket, d: Record)
    requires TraceInv(w) && rec < |w.hub.records| && DueIn(w.trace) == Some((rec, robot, operator))
    requires w.hub.records[rec].robot == Some(robot) && w.hub.records[rec].operator == Some(operator)
    requires t.trace == w.trace + [OwnStop(rec, robot, operator), Entry.Detach(rec)] && !t.hub.maintain.StopWait?
    requires t.hub.records == w.hub.records[rec := d]
    requires d.robot == Some(robot) && d.operator == None && d.staleDeadline == None
    ensures TraceInv(t)
  {
    hide TraceInv, HolderIn, RobotIn, NoticeIn, DueIn;
    Mirrored(w, rec);
    Same(w.trace, OwnStop(rec, robot, operator));
    Same(w.trace + [OwnStop(rec, robot, operator)], Entry.Detach(rec));
    TwoEntries(w, t, w.hub.records[rec], OwnStop(rec, robot, operator), Entry.Detach(rec));
  }

  lemma StepTrace(w: World, e: Event)
    requires TraceInv(w) && Inv(w.hub)
    ensures TraceInv(Step(w, e))
  {
    hide TraceInv, Inv;
    if Quiet(e) {
      if ByOperator(e) {
        QuietOperatorStep(w, e);
      } else if ByRobot(e) {
        QuietRobotStep(w, e);
      } else {
        QuietStep(w, e);
      }
    } else {
      hide OnApprove, OnHashed, OnTake, OnPresence, OnForward, OnRelayEnds, OnAttachLocked, ReleaseFrom, DropFrom, OnForget, OnSweep, OnStaleStop;
      match e
      case Hashed(ws, digest) => HashedTrace(w, ws, digest);
      case Take(ws) => TakeTrace(w, ws);
      case PresenceFrame(ws, phase) => PresenceTrace(w, ws, phase);
      case Forward(ws) => ForwardTrace(w, ws);
      case RelayEnds(ws, delivered) => RelayEndsTrace(w, ws, delivered);
      case ApproveFrame(ws, id) => ApproveTrace(w, ws, id);
      case AttachLocked(ws, choice) => AttachTrace(w, ws, choice);
      case ReleaseLocked(ws) =>
        if ws in w.hub.pcs && w.hub.pcs[ws].ReleaseWait? && w.hub.Lockable(w.hub.pcs[ws].rec) {
          FramesOf(w, ws, w.hub.pcs[ws].rec);
          ReleaseTrace(w, ws, w.hub.pcs[ws].rec, Step(w, e));
        }
      case DropLocked(ws) =>
        if ws in w.hub.pcs && w.hub.pcs[ws].DropWait? && w.hub.Lockable(w.hub.pcs[ws].rec) {
          FramesOf(w, ws, w.hub.pcs[ws].rec);
          DropTrace(w, ws, w.hub.pcs[ws].rec, Step(w, e));
        }
      case MaintainRelease =>
        if w.hub.maintain.ReleaseFor? && w.hub.Lockable(w.hub.maintain.rec) {
          ReleaseTrace(w, w.hub.maintain.ws, w.hub.maintain.rec, Step(w, e));
        }
      case MaintainDrop =>
        if w.hub.maintain.DropFor? && w.hub.Lockable(w.hub.maintain.rec) {
          DropTrace(w, w.hub.maintain.ws, w.hub.maintain.rec, Step(w, e));
        }
      case Forget(id) => ForgetTrace(w, id);
      case SweepRobot(id) => SweepTrace(w, id);
      case StaleStop => StaleStopTrace(w);
    }
  }

  lemma FramesOf(w: World, ws: Socket, rec: RecId)
    requires rec < |w.hub.records|
    ensures ReleaseFrom(w, ws, rec).hub.maintain == w.hub.maintain && DropFrom(w, ws, rec).hub.maintain == w.hub.maintain
  {
    hide Record.Released, Record.Dropped;
  }

  lemma InitialTrace(w: World)
    requires Initial(w)
    ensures TraceInv(w)
  {
    forall rec | 0 <= rec < |w.hub.records| ensures Mirrors(w.trace, rec, w.hub.records[rec]) {
      assert RegistrySteps.Unused(w.hub.records[rec]);
    }
  }

  lemma {:induction false} RunTrace(w: World, es: seq<Event>)
    requires Initial(w)
    ensures TraceInv(Run(w, es))
  {
    if es == [] {
      InitialTrace(w);
    } else {
      hide TraceInv, Inv, Step;
      RunTrace(w, es[..|es| - 1]);
      RunInv(w, es[..|es| - 1]);
      StepTrace(Run(w, es[..|es| - 1]), es[|es| - 1]);
    }
  }

  // ---------- What the trace means ----------

  lemma {:induction false} EntryWasOk(trace: seq<Entry>, n: nat)
    requires TraceOk(trace) && n < |trace|
    ensures EntryOk(trace[..n], trace[n])
  {
    if n < |trace| - 1 {
      EntryWasOk(trace[..|trace| - 1], n);
      assert trace[..|trace| - 1][..n] == trace[..n];
    }
  }

  /** No entry from m on ends the hold, or gives it to another. */
  predicate HeldFrom(trace: seq<Entry>, m: nat, rec: RecId, s: Socket) {
    && m < |trace| && trace[m].Attach? && trace[m].rec == rec && trace[m].operator == s
    && forall k :: m < k < |trace| ==> trace[k] != Entry.Detach(rec) && (trace[k].Attach? && trace[k].rec == rec ==> trace[k].operator == s)
  }

  lemma {:induction false} HeldSince(trace: seq<Entry>, rec: RecId, s: Socket) returns (m: nat)
    requires HolderIn(trace, rec) == Some(s)
    ensures HeldFrom(trace, m, rec, s)
  {
    var n := |trace| - 1;
    if trace[n].Attach? && trace[n].rec == rec {
      m := n;
    } else {
      m := HeldSince(trace[..n], rec, s);
    }
  }

  /** A detach, a new robot socket, a fresh sweep, a presence, or a status of stopped. */
  predicate EndsNotice(e: Entry, rec: RecId) {
    e.rec == rec && (e.Detach? || e.Cancel? || e.Seen? || (e.Reported? && e.phase == Stopped))
  }

  /** Nothing from m on cancels the notice at m. */
  predicate NoticedFrom(trace: seq<Entry>, m: nat, rec: RecId, s: Socket) {
    && m < |trace| && trace[m].StaleNotice? && trace[m].rec == rec && trace[m].operator == s
    && forall k :: m < k < |trace| ==> !EndsNotice(trace[k], rec)
  }

  lemma {:induction false} NoticedSince(trace: seq<Entry>, rec: RecId, s: Socket, atS: real) returns (m: nat)
    requires NoticeIn(trace, rec) == Some((s, atS))
    ensures NoticedFrom(trace, m, rec, s) && trace[m].atS == atS
  {
    var n := |trace| - 1;
    if trace[n].StaleNotice? && trace[n].rec == rec {
      m := n;
    } else {
      m := NoticedSince(trace[..n], rec, s, atS);
    }
  }

  /**
    Commands only from the holder. Over every interleaving, a relayed config, start or stop frame
    goes to the record's robot socket from the socket that attached to it, with no detach since.
   */
  lemma CommandsOnlyFromHolder(w: World, es: seq<Event>, n: nat) returns (m: nat)
    requires Initial(w) && n < |Run(w, es).trace|
    requires Run(w, es).trace[n].Relay? && Run(w, es).trace[n].kind.AllowedFrom(OperatorSide)
    ensures var trace := Run(w, es).trace;
            && HeldFrom(trace[..n], m, trace[n].rec, trace[n].sender)
            && RobotIn(trace[..n], trace[n].rec) == Some(trace[n].receiver)
  {
    RunTrace(w, es);
    var trace := Run(w, es).trace;
    EntryWasOk(trace, n);
    m := HeldSince(trace[..n], trace[n].rec, trace[n].sender);
  }

  /**
    The registry's own stop is due only for a record still held by an operator that was sent
    `stale` at least the wait earlier; a fresh presence, a stopped status, a new robot socket, a
    fresh sweep or a detach in between would have cancelled it.
   */
  lemma StopIsDueOnlyAfterNotice(w: World, es: seq<Event>, n: nat) returns (m: nat)
    requires Initial(w) && n < |Run(w, es).trace| && Run(w, es).trace[n].StopDue?
    ensures var trace := Run(w, es).trace;
            && NoticedFrom(trace[..n], m, trace[n].rec, trace[n].operator)
            && trace[m].atS + STALE_STOP_WAIT_S <= trace[n].atS
            && HolderIn(trace[..n], trace[n].rec) == Some(trace[n].operator)
            && RobotIn(trace[..n], trace[n].rec) == Some(trace[n].robot)
  {
    RunTrace(w, es);
    var trace := Run(w, es).trace;
    EntryWasOk(trace, n);
    m := NoticedSince(trace[..n], trace[n].rec, trace[n].operator, NoticeIn(trace[..n], trace[n].rec).value.1);
  }

  lemma {:induction false} DueSince(trace: seq<Entry>, due: (RecId, Socket, Socket)) returns (m: nat)
    requires DueIn(trace) == Some(due)
    ensures m < |trace| && trace[m].StopDue? && (trace[m].rec, trace[m].robot, trace[m].operator) == due
  {
    var n := |trace| - 1;
    if trace[n].StopDue? {
      m := n;
    } else {
      m := DueSince(trace[..n], due);
    }
  }

  /** Every stop the registry sends was found due before, for the same robot and the same holder. */
  lemma OwnStopWasDue(w: World, es: seq<Event>, n: nat) returns (m: nat)
    requires Initial(w) && n < |Run(w, es).trace| && Run(w, es).trace[n].OwnStop?
    ensures var trace := Run(w, es).trace;
            && m < n && trace[m].StopDue? && trace[m].rec == trace[n].rec
            && trace[m].robot == trace[n].robot && trace[m].operator == trace[n].operator
            && HolderIn(trace[..n], trace[n].rec) == Some(trace[n].operator)
            && RobotIn(trace[..n], trace[n].rec) == Some(trace[n].robot)
  {
    RunTrace(w, es);
    var trace := Run(w, es).trace;
    EntryWasOk(trace, n);
    m := DueSince(trace[..n], (trace[n].rec, trace[n].robot, trace[n].operator));
  }

  /** Once due, the stop goes ahead exactly when both sockets are still the ones the sweep saw. */
  lemma DueStopGoesAhead(w: World)
    requires w.hub.maintain.StopWait? && w.hub.Lockable(w.hub.maintain.rec)
    ensures var StopWait(rec, robot, operator) := w.hub.maintain;
            |Step(w, StaleStop).trace| > |w.trace| && Step(w, StaleStop).trace[|w.trace|] == OwnStop(rec, robot, operator)
            <==> w.hub.records[rec].robot == Some(robot) && w.hub.records[rec].operator == Some(operator)
  {
  }
}
