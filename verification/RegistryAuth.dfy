/**
  Who gets in: over every run a robot's socket has shown the token of its record or registered it,
  and a holder has shown the password of an account, on that same connection.
 */
module RegistryAuth {
  import opened Wrappers
  import opened RegistryRecord
  import opened RegistrySteps
  import opened RegistryInvariant
  import opened RegistrySafety
  import opened RegistryRuns

  /** The connection's password matched. */
  predicate Trusted(es: seq<Event>, ws: Socket) {
    LoginMatched(ws, true) in es
  }

  predicate Matches(es: seq<Event>, ws: Socket) {
    Matched(ws, true) in es
  }

  /** The connection registered a robot under a new ID. */
  ghost predicate Registers(es: seq<Event>, ws: Socket) {
    exists digest :: Hashed(ws, digest) in es
  }

  ghost predicate PcAuth(es: seq<Event>, ws: Socket, pc: Pc) {
    && (pc.LoginReply? || pc.AttachWait? ==> Trusted(es, ws))
    && (pc.TakeWait? || pc.TakeCheck? ==> Matches(es, ws))
  }

  ghost predicate RecordAuth(es: seq<Event>, r: Record) {
    && (r.operator.Some? ==> Trusted(es, r.operator.value))
    && (r.robot.Some? ==> Matches(es, r.robot.value) || Registers(es, r.robot.value))
  }

  ghost predicate Auth(h: Hub, es: seq<Event>) {
    && (forall ws :: ws in h.wsUser ==> Trusted(es, ws))
    && (forall ws :: ws in h.pcs ==> PcAuth(es, ws, h.pcs[ws]))
    && (forall rec :: 0 <= rec < |h.records| ==> RecordAuth(es, h.records[rec]))
  }

  // ---------- What the steps are made of ----------

  lemma MoreEvents(h: Hub, es: seq<Event>, e: Event)
    requires Auth(h, es)
    ensures Auth(h, es + [e])
  {
    forall ws ensures Trusted(es, ws) ==> Trusted(es + [e], ws)
      ensures Matches(es, ws) ==> Matches(es + [e], ws)
      ensures Registers(es, ws) ==> Registers(es + [e], ws)
    {
      if Registers(es, ws) {
        var digest :| Hashed(ws, digest) in es;
        assert Hashed(ws, digest) in es + [e];
      }
    }
    hide Trusted, Matches, Registers;
    forall rec | 0 <= rec < |h.records| ensures RecordAuth(es + [e], h.records[rec]) {
      assert RecordAuth(es, h.records[rec]);
    }
    forall ws | ws in h.pcs ensures PcAuth(es + [e], ws, h.pcs[ws]) {
      assert PcAuth(es, ws, h.pcs[ws]);
    }
  }

  /** Positions that say nothing of a match. */
  predicate Plainly(pc: Pc) {
    !pc.LoginReply? && !pc.AttachWait? && !pc.TakeWait? && !pc.TakeCheck?
  }

  lemma PcMoves(h: Hub, es: seq<Event>, ws: Socket, pc: Pc)
    requires Auth(h, es) && (Plainly(pc) || PcAuth(es, ws, pc))
    ensures Auth(h.SetPc(ws, pc), es)
  {
    hide Trusted, Matches, Registers, RecordAuth;
  }

  lemma RecordMoves(h: Hub, es: seq<Event>, rec: RecId, r: Record)
    requires Auth(h, es) && rec < |h.records|
    requires r.operator == h.records[rec].operator || r.operator == None
    requires r.robot == h.records[rec].robot || r.robot == None
    ensures Auth(h.SetRecord(rec, r), es)
  {
    hide Trusted, Matches, Registers, PcAuth;
    assert RecordAuth(es, h.records[rec]);
  }

  lemma RestMoves(h: Hub, t: Hub, es: seq<Event>)
    requires Auth(h, es) && t.records == h.records && t.pcs == h.pcs && forall ws :: ws in t.wsUser ==> ws in h.wsUser
    ensures Auth(t, es)
  {
    hide Trusted, Matches, Registers, PcAuth, RecordAuth;
  }

  lemma AuthAt(h: Hub, es: seq<Event>, ws: Socket)
    requires Auth(h, es) && ws in h.pcs
    ensures PcAuth(es, ws, h.pcs[ws])
  {
  }

  lemma EndsKeep(r: Record, ws: Socket, utc: real, mono: real, phase: Phase)
    ensures r.Released(utc).robot == r.robot && r.Released(utc).operator == None
    ensures r.Dropped(ws, utc).robot in {r.robot, None} && r.Dropped(ws, utc).operator in {r.operator, None}
    ensures r.Forgotten().robot == None && r.Forgotten().operator == None
    ensures r.Presence(phase, utc).robot == r.robot && r.Presence(phase, utc).operator == r.operator
    ensures r.ApplyStatus(phase).robot == r.robot && r.ApplyStatus(phase).operator == r.operator
    ensures r.Swept(utc, mono).robot == r.robot && r.Swept(utc, mono).operator == r.operator
    ensures r.StaleStopped().robot == r.robot && r.StaleStopped().operator == None
  {
  }

  // ---------- Robot handlers ----------

  lemma RegisterAuth(w: World, es: seq<Event>, ws: Socket, id: string, digest: int, ok: bool)
    requires Auth(w.hub, es)
    ensures Auth(OnRegister(w, ws, id).hub, es)
    ensures Registers(es, ws) ==> Auth(OnHashed(w, ws, digest).hub, es)
  {
    hide Auth, Hub.PendingCount, Still, Trusted, Matches, Registers, Hub.SetPc, Insert;
    forall pc: Pc | Plainly(pc) ensures Auth(w.hub.SetPc(ws, pc), es) {
      PcMoves(w.hub, es, ws, pc);
    }
    if Registers(es, ws) && ws in w.hub.pcs && w.hub.pcs[ws].Hashing? {
      InsertAuth(w, es, ws, w.hub.pcs[ws].robotId, digest);
    }
  }

  lemma InsertAuth(w: World, es: seq<Event>, ws: Socket, id: string, digest: int)
    requires Auth(w.hub, es) && Registers(es, ws)
    ensures Auth(Insert(w, ws, id, digest).hub, es)
  {
    hide Trusted, Matches, Registers;
  }

  lemma MatchedAuth(w: World, es: seq<Event>, ws: Socket, ok: bool)
    requires Auth(w.hub, es)
    ensures (ok ==> Matches(es, ws)) ==> Auth(OnMatched(w, ws, ok).hub, es)
    ensures Auth(OnTakeAgain(w, ws).hub, es)
  {
    hide Auth, Trusted, Matches, Registers, Hub.SetPc;
    forall pc: Pc | Plainly(pc) ensures Auth(w.hub.SetPc(ws, pc), es) {
      PcMoves(w.hub, es, ws, pc);
    }
    forall pc: Pc | pc.TakeWait? && Matches(es, ws) ensures Auth(w.hub.SetPc(ws, pc), es) {
      PcMoves(w.hub, es, ws, pc);
    }
  }

  lemma TakeAuth(w: World, es: seq<Event>, ws: Socket)
    requires Auth(w.hub, es)
    ensures Auth(OnTake(w, ws).hub, es)
  {
    if ws in w.hub.pcs && w.hub.pcs[ws].TakeWait? && w.hub.Lockable(w.hub.pcs[ws].rec) {
      hide Trusted, Matches, Registers;
      AuthAt(w.hub, es, ws);
      assert RecordAuth(es, w.hub.records[w.hub.pcs[ws].rec]);
    }
  }

  lemma PresenceAuth(w: World, es: seq<Event>, ws: Socket, phase: Phase)
    requires Auth(w.hub, es)
    ensures Auth(OnPresence(w, ws, phase).hub, es)
  {
    if ws in w.hub.pcs && w.hub.pcs[ws].RobotIdle? && w.hub.pcs[ws].session.Some? {
      hide Auth, Record.Presence;
      var rec := w.hub.pcs[ws].session.value;
      PcMoves(w.hub, es, ws, Closing);
      if Still(w.hub, ws, rec) {
        EndsKeep(w.hub.records[rec], ws, w.utc, w.mono, phase);
        RecordMoves(w.hub, es, rec, w.hub.records[rec].Presence(phase, w.utc));
      }
    }
  }

  lemma RelayFrameAuth(w: World, es: seq<Event>, ws: Socket, kind: Kind, choice: Option<string>)
    requires Auth(w.hub, es)
    ensures Auth(OnRelayFrame(w, ws, kind, choice).hub, es)
  {
    hide Auth, Hub.HeldChoice, Still, Kind.AllowedFrom, Hub.SetPc;
    forall pc: Pc | Plainly(pc) ensures Auth(w.hub.SetPc(ws, pc), es) {
      PcMoves(w.hub, es, ws, pc);
    }
    ChosenRecord0(w.hub, ws, choice);
  }

  lemma ChosenRecord0(h: Hub, ws: Socket, choice: Option<string>)
    ensures h.HeldChoice(ws, choice) && choice.Some? ==> choice.value in h.robots
    ensures h.NamedChoice(ws, choice) && choice.Some? ==> choice.value in h.robots
  {
  }

  lemma ForwardAuth(w: World, es: seq<Event>, ws: Socket)
    requires Auth(w.hub, es)
    ensures Auth(OnForward(w, ws).hub, es)
  {
    if ws in w.hub.pcs && w.hub.pcs[ws].ForwardWait? && w.hub.Lockable(w.hub.pcs[ws].rec) {
      hide Auth;
      var ForwardWait(rec, side, kind) := w.hub.pcs[ws];
      var r := w.hub.records[rec];
      PcMoves(w.hub, es, ws, IdlePc(side, rec));
      var peer := if side == RobotSide then r.operator else r.robot;
      if peer.Some? {
        var marked := if side == OperatorSide && kind.StartFrame? then r.(startInProgress := true) else r;
        RecordMoves(w.hub, es, rec, marked);
        var locked := w.hub.SetRecord(rec, marked).(locks := w.hub.locks[rec := ws]);
        RestMoves(w.hub.SetRecord(rec, marked), locked, es);
        PcMoves(locked, es, ws, Relaying(rec, side, peer.value, kind));
      }
    }
  }

  lemma RelayEndsAuth(w: World, es: seq<Event>, ws: Socket, delivered: bool)
    requires Auth(w.hub, es)
    ensures Auth(OnRelayEnds(w, ws, delivered).hub, es)
  {
    if ws in w.hub.pcs && w.hub.pcs[ws].Relaying? && w.hub.pcs[ws].rec < |w.hub.records| {
      hide Auth, Record.ApplyStatus;
      var Relaying(rec, side, peer, kind) := w.hub.pcs[ws];
      var unlocked := w.hub.(locks := w.hub.locks - {rec});
      RestMoves(w.hub, unlocked, es);
      PcMoves(unlocked, es, ws, Closing);
      PcMoves(unlocked, es, ws, IdlePc(side, rec));
      var idle := unlocked.SetPc(ws, IdlePc(side, rec));
      if kind.Status? && kind.phase.Some? {
        EndsKeep(w.hub.records[rec], ws, w.utc, w.mono, kind.phase.value);
        RecordMoves(idle, es, rec, w.hub.records[rec].ApplyStatus(kind.phase.value));
      }
    }
  }

  // ---------- Operator handlers ----------

  lemma LoginAuth(w: World, es: seq<Event>, ws: Socket, username: string, ok: bool)
    requires Auth(w.hub, es)
    ensures Auth(OnLogin(w, ws, username).hub, es)
    ensures (ok ==> Trusted(es, ws)) ==> Auth(OnLoginMatched(w, ws, ok).hub, es)
  {
    hide Auth, Trusted, Matches, Registers, Hub.SetPc;
    forall pc: Pc | Plainly(pc) ensures Auth(w.hub.SetPc(ws, pc), es) {
      PcMoves(w.hub, es, ws, pc);
    }
    forall pc: Pc | pc.LoginReply? && Trusted(es, ws) ensures Auth(w.hub.SetPc(ws, pc), es) {
      PcMoves(w.hub, es, ws, pc);
    }
  }

  lemma CommitAuth(w: World, es: seq<Event>, ws: Socket)
    requires Auth(w.hub, es)
    ensures Auth(OnLoginCommit(w, ws).hub, es) && Auth(OnSignOutEnds(w, ws).hub, es)
  {
    hide Trusted, Matches, Registers, RecordAuth;
    if ws in w.hub.pcs {
      AuthAt(w.hub, es, ws);
    }
  }

  lemma ApproveAuth(w: World, es: seq<Event>, ws: Socket, id: string)
    requires Auth(w.hub, es)
    ensures Auth(OnApprove(w, ws, id).hub, es)
  {
    hide Auth;
    if id in w.hub.robots && w.hub.robots[id] < |w.hub.records| {
      RecordMoves(w.hub, es, w.hub.robots[id], w.hub.records[w.hub.robots[id]].(approved := true));
    }
  }

  lemma FramesAuth(w: World, es: seq<Event>, ws: Socket, id: string, choice: Option<string>)
    requires Auth(w.hub, es)
    ensures Auth(OnAttach(w, ws, id, choice).hub, es) && Auth(OnRelease(w, ws, choice).hub, es)
    ensures Auth(OnSignOut(w, ws, choice).hub, es)
  {
    assert ws in w.hub.wsUser ==> Trusted(es, ws);
    hide Auth, Trusted, Matches, Registers, Hub.SetPc, Hub.HeldChoice, Record.AttachCode;
    ChosenRecord0(w.hub, ws, choice);
    forall pc: Pc | Plainly(pc) || (pc.AttachWait? && Trusted(es, ws)) ensures Auth(w.hub.SetPc(ws, pc), es) {
      PcMoves(w.hub, es, ws, pc);
    }
  }

  lemma AttachAuth(w: World, es: seq<Event>, ws: Socket, choice: Option<string>)
    requires Auth(w.hub, es)
    ensures Auth(OnAttachLocked(w, ws, choice).hub, es)
  {
    if ws in w.hub.pcs && w.hub.pcs[ws].AttachWait? && w.hub.Lockable(w.hub.pcs[ws].rec) {
      hide Trusted, Matches, Registers, Hub.HeldChoice, Record.AttachCode;
      AuthAt(w.hub, es, ws);
      assert RecordAuth(es, w.hub.records[w.hub.pcs[ws].rec]);
    }
  }

  lemma EndFromAuth(w: World, es: seq<Event>, ws: Socket, rec: RecId)
    requires Auth(w.hub, es) && rec < |w.hub.records|
    ensures Auth(ReleaseFrom(w, ws, rec).hub, es) && Auth(DropFrom(w, ws, rec).hub, es)
  {
    hide Auth, Record.Released, Record.Dropped;
    EndsKeep(w.hub.records[rec], ws, w.utc, w.mono, Idle);
    RecordMoves(w.hub, es, rec, w.hub.records[rec].Released(w.utc));
    RecordMoves(w.hub, es, rec, w.hub.records[rec].Dropped(ws, w.utc));
  }

  lemma LockedAuth(w: World, es: seq<Event>, ws: Socket)
    requires Auth(w.hub, es)
    ensures Auth(OnReleaseLocked(w, ws).hub, es) && Auth(OnDropLocked(w, ws).hub, es)
  {
    hide Auth, ReleaseFrom, DropFrom;
    if ws in w.hub.pcs && w.hub.pcs[ws].ReleaseWait? && w.hub.Lockable(w.hub.pcs[ws].rec) {
      var ReleaseWait(rec, next) := w.hub.pcs[ws];
      EndFromAuth(w, es, ws, rec);
      PcMoves(ReleaseFrom(w, ws, rec).hub, es, ws, NextPc(next));
    }
    if ws in w.hub.pcs && w.hub.pcs[ws].DropWait? && w.hub.Lockable(w.hub.pcs[ws].rec) {
      EndFromAuth(w, es, ws, w.hub.pcs[ws].rec);
      PcMoves(DropFrom(w, ws, w.hub.pcs[ws].rec).hub, es, ws, Done);
    }
  }

  // ---------- The end of a handler, and the maintenance task ----------

  lemma LogoutAuth(h: Hub, es: seq<Event>, ws: Socket)
    requires Auth(h, es)
    ensures Auth(h.Logout(ws), es)
  {
    hide Auth;
    RestMoves(h, h.Logout(ws), es);
  }

  lemma LeaveAuth(w: World, es: seq<Event>, ws: Socket, choice: Option<string>)
    requires Auth(w.hub, es)
    ensures Auth(OnLeave(w, ws).hub, es) && Auth(OnBeginDrop(w, ws, choice).hub, es)
  {
    hide Auth, Hub.Logout, Hub.HeldChoice, Hub.NamedChoice, Hub.SetPc;
    LogoutAuth(w.hub, es, ws);
    ChosenRecord0(w.hub, ws, choice);
    ChosenRecord0(w.hub.Logout(ws), ws, choice);
    forall pc: Pc | Plainly(pc) ensures Auth(w.hub.SetPc(ws, pc), es) && Auth(w.hub.Logout(ws).SetPc(ws, pc), es) {
      PcMoves(w.hub, es, ws, pc);
      PcMoves(w.hub.Logout(ws), es, ws, pc);
    }
  }

  lemma DisconnectAuth(w: World, es: seq<Event>, username: string, choice: Option<string>)
    requires Auth(w.hub, es)
    ensures Auth(OnDisconnect(w, username, choice).hub, es)
  {
    hide Auth, Hub.HeldChoice, Hub.NamedChoice;
    RestMoves(w.hub, OnDisconnect(w, username, choice).hub, es);
  }

  lemma MaintainAuth(w: World, es: seq<Event>)
    requires Auth(w.hub, es)
    ensures Auth(OnMaintainRelease(w).hub, es) && Auth(OnMaintainDrop(w).hub, es)
  {
    if (w.hub.maintain.ReleaseFor? || w.hub.maintain.DropFor?) && w.hub.Lockable(w.hub.maintain.rec) {
      hide Auth, ReleaseFrom, DropFrom;
      var rec, ws := w.hub.maintain.rec, w.hub.maintain.ws;
      EndFromAuth(w, es, ws, rec);
      RestMoves(ReleaseFrom(w, ws, rec).hub, ReleaseFrom(w, ws, rec).hub.(maintain := Asleep), es);
      RestMoves(DropFrom(w, ws, rec).hub, DropFrom(w, ws, rec).hub.(maintain := Asleep), es);
    }
  }

  lemma ForgetAuth(w: World, es: seq<Event>, id: string)
    requires Auth(w.hub, es)
    ensures Auth(OnForget(w, id).hub, es) && Auth(OnSweep(w, id).hub, es)
  {
    if id in w.hub.robots && w.hub.robots[id] < |w.hub.records| {
      hide Auth, Record.Forgotten, Record.Swept, Record.SweepResult;
      var rec := w.hub.robots[id];
      EndsKeep(w.hub.records[rec], 0, w.utc, w.mono, Idle);
      RecordMoves(w.hub, es, rec, w.hub.records[rec].Forgotten());
      var gone := w.hub.SetRecord(rec, w.hub.records[rec].Forgotten());
      RestMoves(gone, gone.(robots := w.hub.robots - {id}), es);
      RecordMoves(w.hub, es, rec, w.hub.records[rec].Swept(w.utc, w.mono));
      var swept := w.hub.SetRecord(rec, w.hub.records[rec].Swept(w.utc, w.mono));
      RestMoves(swept, swept.(maintain := OnSweep(w, id).hub.maintain), es);
    }
  }

  lemma StaleStopAuth(w: World, es: seq<Event>)
    requires Auth(w.hub, es)
    ensures Auth(OnStaleStop(w).hub, es)
  {
    if w.hub.maintain.StopWait? && w.hub.Lockable(w.hub.maintain.rec) {
      hide Auth, Record.StaleStopped;
      var rec, awake := w.hub.maintain.rec, w.hub.(maintain := Asleep);
      EndsKeep(w.hub.records[rec], 0, w.utc, w.mono, Idle);
      RestMoves(w.hub, awake, es);
      RecordMoves(awake, es, rec, w.hub.records[rec].StaleStopped());
    }
  }

  // ---------- Every interleaving ----------

  lemma RobotStepAuth(w: World, es: seq<Event>, e: Event)
    requires Auth(w.hub, es) && e in es && ByRobot(e)
    ensures Auth(Step(w, e).hub, es)
  {
    hide Auth, OnRegister, OnHashed, OnMatched, OnTake, OnTakeAgain, OnPresence, OnRelayFrame, OnForward, OnRelayEnds;
    match e
    case RegisterFrame(ws, id) => RegisterAuth(w, es, ws, id, 0, true);
    case Hashed(ws, digest) => RegisterAuth(w, es, ws, "", digest, true);
    case Matched(ws, ok) => MatchedAuth(w, es, ws, ok);
    case Take(ws) => TakeAuth(w, es, ws);
    case TakeAgain(ws) => MatchedAuth(w, es, ws, true);
    case PresenceFrame(ws, phase) => PresenceAuth(w, es, ws, phase);
    case RelayFrame(ws, kind, choice) => RelayFrameAuth(w, es, ws, kind, choice);
    case Forward(ws) => ForwardAuth(w, es, ws);
    case RelayEnds(ws, delivered) => RelayEndsAuth(w, es, ws, delivered);
  }

  lemma OperatorStepAuth(w: World, es: seq<Event>, e: Event)
    requires Auth(w.hub, es) && e in es && ByOperator(e)
    ensures Auth(Step(w, e).hub, es)
  {
    hide Auth, OnLogin, OnLoginMatched, OnLoginCommit, OnApprove, OnAttach, OnAttachLocked, OnRelease, OnReleaseLocked, OnSignOut;
    hide OnSignOutEnds;
    match e
    case LoginFrame(ws, username) => LoginAuth(w, es, ws, username, true);
    case LoginMatched(ws, ok) => LoginAuth(w, es, ws, "", ok);
    case LoginCommit(ws) => CommitAuth(w, es, ws);
    case ApproveFrame(ws, id) => ApproveAuth(w, es, ws, id);
    case AttachFrame(ws, id, choice) => FramesAuth(w, es, ws, id, choice);
    case AttachLocked(ws, choice) => AttachAuth(w, es, ws, choice);
    case ReleaseFrame(ws, choice) => FramesAuth(w, es, ws, "", choice);
    case ReleaseLocked(ws) => LockedAuth(w, es, ws);
    case SignOutFrame(ws, choice) => FramesAuth(w, es, ws, "", choice);
    case SignOutEnds(ws) => CommitAuth(w, es, ws);
  }

  lemma OtherStepAuth(w: World, es: seq<Event>, e: Event)
    requires Auth(w.hub, es) && !ByRobot(e) && !ByOperator(e)
    ensures Auth(Step(w, e).hub, es)
  {
    hide Auth, OnLeave, OnBeginDrop, OnDropLocked, OnDisconnect, OnMaintainRelease, OnMaintainDrop, OnForget, OnSweep, OnStaleStop;
    match e
    case Clock(_, _) =>
    case ClearRow(id) => RestMoves(w.hub, w.hub.(db := w.hub.db - {id}), es);
    case Connect(ws, side) =>
      var known := w.hub.(sides := w.hub.sides[ws := side]);
      RestMoves(w.hub, known, es);
      PcMoves(known, es, ws, if side == RobotSide then RobotIdle(None) else OperatorIdle);
    case Leave(ws) => LeaveAuth(w, es, ws, None);
    case BeginDrop(ws, choice) => LeaveAuth(w, es, ws, choice);
    case DropLocked(ws) => LockedAuth(w, es, ws);
    case Disconnect(username, choice) => DisconnectAuth(w, es, username, choice);
    case MaintainRelease => MaintainAuth(w, es);
    case MaintainDrop => MaintainAuth(w, es);
    case Forget(id) => ForgetAuth(w, es, id);
    case SweepRobot(id) => ForgetAuth(w, es, id);
    case StaleStop => StaleStopAuth(w, es);
  }

  lemma {:induction false} RunAuth(w: World, es: seq<Event>)
    requires Initial(w)
    ensures Auth(Run(w, es).hub, es)
  {
    if es == [] {
      forall rec | 0 <= rec < |w.hub.records| ensures RecordAuth(es, w.hub.records[rec]) {
        assert RegistrySteps.Unused(w.hub.records[rec]);
      }
    } else {
      hide Auth, Step, Initial;
      var init, e := es[..|es| - 1], es[|es| - 1];
      RunAuth(w, init);
      MoreEvents(Run(w, init).hub, init, e);
      assert init + [e] == es;
      if ByRobot(e) {
        RobotStepAuth(Run(w, init), es, e);
      } else if ByOperator(e) {
        OperatorStepAuth(Run(w, init), es, e);
      } else {
        OtherStepAuth(Run(w, init), es, e);
      }
    }
  }

  /**
    Over every run: a logged-in socket and the holder of any record have matched a password on
    their connection, and a record's robot socket has matched its token or registered it.
   */
  lemma OnlyMatchedGetIn(w: World, es: seq<Event>, rec: RecId, ws: Socket)
    requires Initial(w)
    ensures ws in Run(w, es).hub.wsUser ==> LoginMatched(ws, true) in es
    ensures rec < |Run(w, es).hub.records| ==>
              var r := Run(w, es).hub.records[rec];
              && (r.operator == Some(ws) ==> LoginMatched(ws, true) in es)
              && (r.robot == Some(ws) ==> Matched(ws, true) in es || exists digest :: Hashed(ws, digest) in es)
  {
    hide Run;
    RunAuth(w, es);
    if rec < |Run(w, es).hub.records| {
      assert RecordAuth(es, Run(w, es).hub.records[rec]);
    }
  }
}
