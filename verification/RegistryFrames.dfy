/**
  What single events leave alone: the logins, the robots' sockets and registrations, and the
  handlers that have returned.
 */
module RegistryFrames {
  import opened Wrappers
  import opened RegistryRecord
  import opened RegistrySteps
  import opened RegistryInvariant
  import opened RegistrySafety

  predicate SameLogins(h: Hub, t: Hub) {
    t.wsUser == h.wsUser && t.operatorWs == h.operatorWs
  }

  /** Registrations and robot sockets that stay or go. */
  ghost predicate NoNewRobots(h: Hub, t: Hub) {
    && |t.records| == |h.records|
    && (forall k :: 0 <= k < |h.records| ==> t.records[k].robot == h.records[k].robot || t.records[k].robot == None)
    && (forall k :: 0 <= k < |h.records| && h.records[k].approved ==> t.records[k].approved)
    && (forall id :: id in t.robots ==> id in h.robots && t.robots[id] == h.robots[id])
  }

  /** The same handlers have returned. */
  ghost predicate SameDone(h: Hub, t: Hub) {
    && (forall ws :: h.At(ws, Done) && ws in h.sides ==> t.At(ws, Done))
    && (forall ws :: t.At(ws, Done) ==> h.At(ws, Done))
  }

  ghost predicate Framed(h: Hub, t: Hub) {
    SameLogins(h, t) && NoNewRobots(h, t) && SameDone(h, t)
  }

  // ---------- What the events are made of ----------

  lemma NothingFramed(h: Hub)
    ensures Framed(h, h)
  {
  }

  lemma PcFramed(h: Hub, ws: Socket, pc: Pc)
    requires pc != Done && !h.At(ws, Done)
    ensures Framed(h, h.SetPc(ws, pc))
  {
  }

  lemma RecordFramed(h: Hub, rec: RecId, r: Record)
    requires rec < |h.records| && (r.robot == h.records[rec].robot || r.robot == None) && (h.records[rec].approved ==> r.approved)
    ensures Framed(h, h.SetRecord(rec, r))
  {
  }

  lemma RestFramed(h: Hub, t: Hub)
    requires SameLogins(h, t) && t.pcs == h.pcs && t.records == h.records
    requires forall id :: id in t.robots ==> id in h.robots && t.robots[id] == h.robots[id]
    ensures Framed(h, t)
  {
  }

  lemma Chain(h: Hub, m: Hub, t: Hub)
    requires Framed(h, m) && Framed(m, t) && m.sides == h.sides
    ensures Framed(h, t)
  {
  }

  // ---------- Robot handlers ----------

  lemma RegisterFramed(w: World, ws: Socket, id: string)
    ensures Framed(w.hub, OnRegister(w, ws, id).hub)
  {
    hide Framed, Hub.SetPc, Hub.PendingCount, Still;
    NothingFramed(w.hub);
    forall pc | pc != Done && !w.hub.At(ws, Done) ensures Framed(w.hub, w.hub.SetPc(ws, pc)) {
      PcFramed(w.hub, ws, pc);
    }
  }

  lemma MatchedFramed(w: World, ws: Socket, ok: bool)
    ensures Framed(w.hub, OnMatched(w, ws, ok).hub) && Framed(w.hub, OnTakeAgain(w, ws).hub)
  {
    hide Framed, Hub.SetPc;
    NothingFramed(w.hub);
    forall pc | pc != Done && !w.hub.At(ws, Done) ensures Framed(w.hub, w.hub.SetPc(ws, pc)) {
      PcFramed(w.hub, ws, pc);
    }
  }

  lemma PresenceFramed(w: World, ws: Socket, phase: Phase)
    ensures Framed(w.hub, OnPresence(w, ws, phase).hub)
  {
    hide Framed, Hub.SetPc, Hub.SetRecord, Still, Record.Presence;
    NothingFramed(w.hub);
    if ws in w.hub.pcs && w.hub.pcs[ws].RobotIdle? && w.hub.pcs[ws].session.Some? {
      PcFramed(w.hub, ws, Closing);
      var rec := w.hub.pcs[ws].session.value;
      if Still(w.hub, ws, rec) {
        StillHas(w.hub, ws, rec);
        PresenceKeepsRobot(w.hub.records[rec], phase, w.utc);
        RecordFramed(w.hub, rec, w.hub.records[rec].Presence(phase, w.utc));
      }
    }
  }

  lemma StillHas(h: Hub, ws: Socket, rec: RecId)
    requires Still(h, ws, rec)
    ensures rec < |h.records|
  {
  }

  lemma PresenceKeepsRobot(r: Record, phase: Phase, utc: real)
    ensures r.Presence(phase, utc).robot == r.robot && r.ApplyStatus(phase).robot == r.robot
    ensures r.Presence(phase, utc).approved == r.approved && r.ApplyStatus(phase).approved == r.approved
  {
  }

  lemma RelayFrameFramed(w: World, ws: Socket, kind: Kind, choice: Option<string>)
    ensures Framed(w.hub, OnRelayFrame(w, ws, kind, choice).hub)
  {
    hide Framed, Hub.SetPc, Hub.HeldChoice, Still, Kind.AllowedFrom;
    NothingFramed(w.hub);
    forall pc | pc != Done && !w.hub.At(ws, Done) ensures Framed(w.hub, w.hub.SetPc(ws, pc)) {
      PcFramed(w.hub, ws, pc);
    }
    HeldIsRegistered(w.hub, ws, choice);
  }

  lemma HeldIsRegistered(h: Hub, ws: Socket, choice: Option<string>)
    ensures h.HeldChoice(ws, choice) && choice.Some? ==> choice.value in h.robots
    ensures h.NamedChoice(ws, choice) && choice.Some? ==> choice.value in h.robots
  {
  }

  lemma ForwardFramed(w: World, ws: Socket)
    ensures Framed(w.hub, OnForward(w, ws).hub)
  {
    NothingFramed(w.hub);
    if ws in w.hub.pcs && w.hub.pcs[ws].ForwardWait? && w.hub.Lockable(w.hub.pcs[ws].rec) {
      hide Framed, Hub.SetPc, Hub.SetRecord;
      var ForwardWait(rec, side, kind) := w.hub.pcs[ws];
      var r := w.hub.records[rec];
      PcFramed(w.hub, ws, IdlePc(side, rec));
      var peer := if side == RobotSide then r.operator else r.robot;
      if peer.Some? {
        var marked := if side == OperatorSide && kind.StartFrame? then r.(startInProgress := true) else r;
        RecordFramed(w.hub, rec, marked);
        SetRecordKeepsRest(w.hub, rec, marked);
        var set_ := w.hub.SetRecord(rec, marked);
        var locked := set_.(locks := w.hub.locks[rec := ws]);
        RestFramed(set_, locked);
        Chain(w.hub, set_, locked);
        PcFramed(locked, ws, Relaying(rec, side, peer.value, kind));
        Chain(w.hub, locked, locked.SetPc(ws, Relaying(rec, side, peer.value, kind)));
      }
    }
  }

  lemma SetRecordKeepsRest(h: Hub, rec: RecId, r: Record)
    requires rec < |h.records|
    ensures h.SetRecord(rec, r) == h.(records := h.records[rec := r])
  {
  }

  lemma RelayEndsFramed(w: World, ws: Socket, delivered: bool)
    ensures Framed(w.hub, OnRelayEnds(w, ws, delivered).hub)
  {
    NothingFramed(w.hub);
    if ws in w.hub.pcs && w.hub.pcs[ws].Relaying? && w.hub.pcs[ws].rec < |w.hub.records| {
      hide Framed, Record.ApplyStatus;
      var Relaying(rec, side, peer, kind) := w.hub.pcs[ws];
      var unlocked := w.hub.(locks := w.hub.locks - {rec});
      RestFramed(w.hub, unlocked);
      forall pc | pc != Done ensures Framed(w.hub, unlocked.SetPc(ws, pc)) {
        PcFramed(unlocked, ws, pc);
        Chain(w.hub, unlocked, unlocked.SetPc(ws, pc));
      }
      var idle := unlocked.SetPc(ws, IdlePc(side, rec));
      forall phase ensures Framed(w.hub, idle.SetRecord(rec, w.hub.records[rec].ApplyStatus(phase))) {
        PresenceKeepsRobot(w.hub.records[rec], phase, w.utc);
        RecordFramed(idle, rec, w.hub.records[rec].ApplyStatus(phase));
        Chain(w.hub, idle, idle.SetRecord(rec, w.hub.records[rec].ApplyStatus(phase)));
      }
    }
  }

  /** The two events that give a record a robot socket: the handler's own. */
  ghost predicate OnlyOwn(h: Hub, t: Hub, ws: Socket) {
    && SameLogins(h, t) && SameDone(h, t)
    && (forall id :: id in t.robots && t.robots[id] < |t.records| ==>
         || t.records[t.robots[id]].robot == Some(ws)
         || (id in h.robots && h.robots[id] == t.robots[id] && t.robots[id] < |h.records|
             && t.records[t.robots[id]].robot == h.records[h.robots[id]].robot))
    && !h.At(ws, Done)
  }

  lemma TakeOwn(w: World, ws: Socket)
    ensures Framed(w.hub, OnTake(w, ws).hub) || OnlyOwn(w.hub, OnTake(w, ws).hub, ws)
  {
    NothingFramed(w.hub);
    hide Framed;
  }

  lemma HashedOwn(w: World, ws: Socket, digest: int)
    ensures Framed(w.hub, OnHashed(w, ws, digest).hub) || OnlyOwn(w.hub, OnHashed(w, ws, digest).hub, ws)
  {
    hide Framed, Hub.PendingCount, Insert;
    NothingFramed(w.hub);
    forall pc | pc != Done && !w.hub.At(ws, Done) ensures Framed(w.hub, w.hub.SetPc(ws, pc)) {
      PcFramed(w.hub, ws, pc);
    }
    if ws in w.hub.pcs && w.hub.pcs[ws].Hashing? && w.hub.pcs[ws].robotId !in w.hub.robots {
      InsertOwn(w, ws, w.hub.pcs[ws].robotId, digest);
    }
  }

  lemma InsertOwn(w: World, ws: Socket, id: string, digest: int)
    requires !w.hub.At(ws, Done) && id !in w.hub.robots
    ensures OnlyOwn(w.hub, Insert(w, ws, id, digest).hub, ws)
  {
  }

  lemma RobotsFramed(w: World, e: Event)
    requires ByRobot(e)
    ensures Framed(w.hub, Step(w, e).hub) || ((e.Hashed? || e.Take?) && OnlyOwn(w.hub, Step(w, e).hub, e.ws))
  {
    hide Framed, OnlyOwn, OnRegister, OnHashed, OnMatched, OnTake, OnTakeAgain, OnPresence, OnRelayFrame, OnForward, OnRelayEnds;
    match e
    case RegisterFrame(ws, id) => RegisterFramed(w, ws, id);
    case Hashed(ws, digest) => HashedOwn(w, ws, digest);
    case Matched(ws, ok) => MatchedFramed(w, ws, ok);
    case Take(ws) => TakeOwn(w, ws);
    case TakeAgain(ws) => MatchedFramed(w, ws, true);
    case PresenceFrame(ws, phase) => PresenceFramed(w, ws, phase);
    case RelayFrame(ws, kind, choice) => RelayFrameFramed(w, ws, kind, choice);
    case Forward(ws) => ForwardFramed(w, ws);
    case RelayEnds(ws, delivered) => RelayEndsFramed(w, ws, delivered);
  }

  // ---------- Operator handlers ----------

  /** Framed but for the logins. */
  ghost predicate ButLogins(h: Hub, t: Hub) {
    NoNewRobots(h, t) && SameDone(h, t)
  }

  lemma LoginsFramed(w: World, ws: Socket, username: string, ok: bool)
    ensures Framed(w.hub, OnLogin(w, ws, username).hub) && Framed(w.hub, OnLoginMatched(w, ws, ok).hub)
  {
    hide Framed, Hub.SetPc;
    NothingFramed(w.hub);
    forall pc | pc != Done && !w.hub.At(ws, Done) ensures Framed(w.hub, w.hub.SetPc(ws, pc)) {
      PcFramed(w.hub, ws, pc);
    }
  }

  lemma CommitsFramed(w: World, ws: Socket)
    ensures ButLogins(w.hub, OnLoginCommit(w, ws).hub) && ButLogins(w.hub, OnSignOutEnds(w, ws).hub)
  {
  }

  lemma ApproveFramed(w: World, ws: Socket, id: string)
    ensures Framed(w.hub, OnApprove(w, ws, id).hub)
  {
    hide Framed, Hub.SetRecord;
    NothingFramed(w.hub);
    if id in w.hub.robots && w.hub.robots[id] < |w.hub.records| {
      RecordFramed(w.hub, w.hub.robots[id], w.hub.records[w.hub.robots[id]].(approved := true));
    }
  }

  lemma FramesFramed(w: World, ws: Socket, id: string, choice: Option<string>)
    ensures Framed(w.hub, OnAttach(w, ws, id, choice).hub) && Framed(w.hub, OnRelease(w, ws, choice).hub)
    ensures Framed(w.hub, OnSignOut(w, ws, choice).hub)
  {
    hide Framed, Hub.SetPc, Hub.HeldChoice, Record.AttachCode;
    NothingFramed(w.hub);
    HeldIsRegistered(w.hub, ws, choice);
    forall pc | pc != Done && !w.hub.At(ws, Done) ensures Framed(w.hub, w.hub.SetPc(ws, pc)) {
      PcFramed(w.hub, ws, pc);
    }
  }

  lemma AttachFramed(w: World, ws: Socket, choice: Option<string>)
    ensures Framed(w.hub, OnAttachLocked(w, ws, choice).hub)
  {
    NothingFramed(w.hub);
    if ws in w.hub.pcs && w.hub.pcs[ws].AttachWait? && w.hub.Lockable(w.hub.pcs[ws].rec) {
      hide Framed, Hub.HeldChoice, Record.AttachCode;
      var rec, name := w.hub.pcs[ws].rec, w.hub.pcs[ws].username;
      var idle := w.hub.SetPc(ws, OperatorIdle);
      PcFramed(w.hub, ws, OperatorIdle);
      RecordFramed(idle, rec, w.hub.records[rec].Hold(ws, Some(name)));
      Chain(w.hub, idle, idle.SetRecord(rec, w.hub.records[rec].Hold(ws, Some(name))));
    }
  }

  lemma ReleaseFramed(w: World, ws: Socket, rec: RecId)
    requires rec < |w.hub.records|
    ensures Framed(w.hub, ReleaseFrom(w, ws, rec).hub) && ReleaseFrom(w, ws, rec).hub.pcs == w.hub.pcs
    ensures ReleaseFrom(w, ws, rec).hub.sides == w.hub.sides
  {
    hide Framed, Record.Released;
    NothingFramed(w.hub);
    ReleasedRobot(w.hub.records[rec], ws, w.utc);
    RecordFramed(w.hub, rec, w.hub.records[rec].Released(w.utc));
  }

  lemma ReleasedRobot(r: Record, ws: Socket, utc: real)
    ensures r.Released(utc).robot == r.robot
    ensures r.Dropped(ws, utc).robot == if r.robot == Some(ws) then None else r.robot
    ensures r.Released(utc).approved == r.approved && r.Dropped(ws, utc).approved == r.approved
  {
  }

  lemma DropFramed(w: World, ws: Socket, rec: RecId)
    requires rec < |w.hub.records|
    ensures Framed(w.hub, DropFrom(w, ws, rec).hub) && DropFrom(w, ws, rec).hub.pcs == w.hub.pcs
    ensures DropFrom(w, ws, rec).hub.sides == w.hub.sides
  {
    hide Framed, Record.Dropped;
    NothingFramed(w.hub);
    ReleasedRobot(w.hub.records[rec], ws, w.utc);
    RecordFramed(w.hub, rec, w.hub.records[rec].Dropped(ws, w.utc));
  }

  /** Framed, but the handler may return. */
  ghost predicate ButReturns(h: Hub, t: Hub, ws: Socket) {
    && SameLogins(h, t) && NoNewRobots(h, t)
    && (forall s :: s != ws ==> (t.At(s, Done) <==> h.At(s, Done))) && (h.At(ws, Done) ==> t.At(ws, Done))
  }

  lemma LastPc(h: Hub, m: Hub, ws: Socket, pc: Pc)
    requires Framed(h, m) && m.pcs == h.pcs && !h.At(ws, Done)
    ensures ButReturns(h, m.SetPc(ws, pc), ws)
  {
  }

  lemma FramedReturns(h: Hub, ws: Socket)
    ensures ButReturns(h, h, ws)
  {
  }

  lemma ReleaseLockedFramed(w: World, ws: Socket)
    ensures ButReturns(w.hub, OnReleaseLocked(w, ws).hub, ws)
    ensures !w.hub.At(ws, Done) && OnReleaseLocked(w, ws).hub.At(ws, Done) ==>
              ws in w.hub.pcs && w.hub.pcs[ws].ReleaseWait? && w.hub.pcs[ws].next.ToDone?
  {
    FramedReturns(w.hub, ws);
    if ws in w.hub.pcs && w.hub.pcs[ws].ReleaseWait? && w.hub.Lockable(w.hub.pcs[ws].rec) {
      hide Framed, ButReturns, ReleaseFrom;
      var ReleaseWait(rec, next) := w.hub.pcs[ws];
      ReleaseFramed(w, ws, rec);
      LastPc(w.hub, ReleaseFrom(w, ws, rec).hub, ws, NextPc(next));
    }
  }

  lemma DropLockedFramed(w: World, ws: Socket)
    ensures ButReturns(w.hub, OnDropLocked(w, ws).hub, ws)
    ensures !w.hub.At(ws, Done) && OnDropLocked(w, ws).hub.At(ws, Done) ==>
              ws in w.hub.pcs && w.hub.pcs[ws].DropWait? && w.hub.Lockable(w.hub.pcs[ws].rec)
  {
    FramedReturns(w.hub, ws);
    if ws in w.hub.pcs && w.hub.pcs[ws].DropWait? && w.hub.Lockable(w.hub.pcs[ws].rec) {
      hide Framed, ButReturns, DropFrom;
      var rec := w.hub.pcs[ws].rec;
      DropFramed(w, ws, rec);
      LastPc(w.hub, DropFrom(w, ws, rec).hub, ws, Done);
    }
  }

  predicate ChangesLogins(e: Event) {
    e.LoginCommit? || e.SignOutEnds? || e.BeginDrop? || e.Disconnect?
  }

  lemma OperatorsFramed(w: World, e: Event)
    requires ByOperator(e)
    ensures if e.ReleaseLocked? then ButReturns(w.hub, Step(w, e).hub, e.ws)
            else if ChangesLogins(e) then ButLogins(w.hub, Step(w, e).hub) else Framed(w.hub, Step(w, e).hub)
  {
    hide Framed, ButLogins, ButReturns;
    hide OnLogin, OnLoginMatched, OnLoginCommit, OnApprove, OnAttach, OnAttachLocked, OnRelease, OnReleaseLocked, OnSignOut;
    hide OnSignOutEnds;
    match e
    case LoginFrame(ws, username) => LoginsFramed(w, ws, username, true);
    case LoginMatched(ws, ok) => LoginsFramed(w, ws, "", ok);
    case LoginCommit(ws) => CommitsFramed(w, ws);
    case ApproveFrame(ws, id) => ApproveFramed(w, ws, id);
    case AttachFrame(ws, id, choice) => FramesFramed(w, ws, id, choice);
    case AttachLocked(ws, choice) => AttachFramed(w, ws, choice);
    case ReleaseFrame(ws, choice) => FramesFramed(w, ws, "", choice);
    case ReleaseLocked(ws) => ReleaseLockedFramed(w, ws);
    case SignOutFrame(ws, choice) => FramesFramed(w, ws, "", choice);
    case SignOutEnds(ws) => CommitsFramed(w, ws);
  }

  // ---------- The end of a handler, and the maintenance task ----------

  /** Framed but for a logout and for a handler that may return. */
  ghost predicate ButLogout(h: Hub, t: Hub, ws: Socket) {
    && NoNewRobots(h, t) && t.records == h.records && t.robots == h.robots
    && (forall s :: s != ws ==> (t.At(s, Done) <==> h.At(s, Done))) && (h.At(ws, Done) ==> t.At(ws, Done))
  }

  lemma LogoutFrame(h: Hub, ws: Socket)
    ensures h.Logout(ws) == h.(wsUser := h.Logout(ws).wsUser, operatorWs := h.Logout(ws).operatorWs)
  {
  }

  lemma BeginDropFramed(w: World, ws: Socket, choice: Option<string>)
    ensures ButLogout(w.hub, OnBeginDrop(w, ws, choice).hub, ws)
    ensures !w.hub.At(ws, Done) && OnBeginDrop(w, ws, choice).hub.At(ws, Done) ==> choice == None
    ensures SameLogins(w.hub, OnBeginDrop(w, ws, choice).hub) || SameLogins(w.hub.Logout(ws), OnBeginDrop(w, ws, choice).hub)
  {
    hide Hub.Logout, Hub.HeldChoice, Hub.NamedChoice;
    LogoutFrame(w.hub, ws);
    HeldIsRegistered(w.hub, ws, choice);
    HeldIsRegistered(w.hub.Logout(ws), ws, choice);
  }

  lemma DisconnectFramed(w: World, username: string, choice: Option<string>) returns (ws: Socket)
    ensures ButLogins(w.hub, OnDisconnect(w, username, choice).hub)
    ensures SameLogins(w.hub, OnDisconnect(w, username, choice).hub)
         || SameLogins(w.hub.Logout(ws), OnDisconnect(w, username, choice).hub)
  {
    hide Hub.Logout, Hub.HeldChoice, Hub.NamedChoice;
    ws := if username in w.hub.operatorWs then w.hub.operatorWs[username] else 0;
    LogoutFrame(w.hub, ws);
  }

  lemma MaintainFramed(w: World)
    ensures Framed(w.hub, OnMaintainRelease(w).hub) && Framed(w.hub, OnMaintainDrop(w).hub)
  {
    NothingFramed(w.hub);
    if (w.hub.maintain.ReleaseFor? || w.hub.maintain.DropFor?) && w.hub.Lockable(w.hub.maintain.rec) {
      hide Framed, ReleaseFrom, DropFrom;
      var rec, ws := w.hub.maintain.rec, w.hub.maintain.ws;
      ReleaseFramed(w, ws, rec);
      DropFramed(w, ws, rec);
      var released, dropped := ReleaseFrom(w, ws, rec).hub, DropFrom(w, ws, rec).hub;
      RestFramed(released, released.(maintain := Asleep));
      RestFramed(dropped, dropped.(maintain := Asleep));
      Chain(w.hub, released, released.(maintain := Asleep));
      Chain(w.hub, dropped, dropped.(maintain := Asleep));
    }
  }

  lemma SweptRobot(r: Record, utc: real, mono: real)
    ensures r.Swept(utc, mono).robot == r.robot && r.StaleStopped().robot == r.robot && r.Forgotten().robot == None
    ensures r.Swept(utc, mono).approved == r.approved && r.StaleStopped().approved == r.approved && r.Forgotten().approved == r.approved
  {
  }

  lemma ForgetFramed(w: World, id: string)
    ensures Framed(w.hub, OnForget(w, id).hub)
  {
    NothingFramed(w.hub);
    if id in w.hub.robots && w.hub.robots[id] < |w.hub.records| {
      hide Framed, Record.Forgotten;
      var rec := w.hub.robots[id];
      SweptRobot(w.hub.records[rec], w.utc, w.mono);
      RecordFramed(w.hub, rec, w.hub.records[rec].Forgotten());
      var set_ := w.hub.SetRecord(rec, w.hub.records[rec].Forgotten());
      RestFramed(set_, set_.(robots := w.hub.robots - {id}));
      Chain(w.hub, set_, set_.(robots := w.hub.robots - {id}));
    }
  }

  lemma SweepFramed(w: World, id: string)
    ensures Framed(w.hub, OnSweep(w, id).hub)
  {
    NothingFramed(w.hub);
    if id in w.hub.robots && w.hub.robots[id] < |w.hub.records| {
      hide Framed, Record.Swept, Record.SweepResult;
      var rec := w.hub.robots[id];
      SweptRobot(w.hub.records[rec], w.utc, w.mono);
      RecordFramed(w.hub, rec, w.hub.records[rec].Swept(w.utc, w.mono));
      var swept := w.hub.SetRecord(rec, w.hub.records[rec].Swept(w.utc, w.mono));
      forall m ensures Framed(w.hub, swept.(maintain := m)) {
        RestFramed(swept, swept.(maintain := m));
        Chain(w.hub, swept, swept.(maintain := m));
      }
    }
  }

  lemma StaleStopFramed(w: World)
    ensures Framed(w.hub, OnStaleStop(w).hub)
  {
    NothingFramed(w.hub);
    if w.hub.maintain.StopWait? && w.hub.Lockable(w.hub.maintain.rec) {
      hide Framed, Record.StaleStopped;
      var rec, awake := w.hub.maintain.rec, w.hub.(maintain := Asleep);
      SweptRobot(w.hub.records[rec], w.utc, w.mono);
      RestFramed(w.hub, awake);
      RecordFramed(awake, rec, w.hub.records[rec].StaleStopped());
      Chain(w.hub, awake, awake.SetRecord(rec, w.hub.records[rec].StaleStopped()));
    }
  }

  lemma LeaveFramed(w: World, ws: Socket)
    ensures Framed(w.hub, OnLeave(w, ws).hub)
  {
    hide Framed, Hub.SetPc;
    NothingFramed(w.hub);
    if !w.hub.At(ws, Done) {
      PcFramed(w.hub, ws, Closing);
    }
  }

  lemma ConnectFramed(w: World, ws: Socket, side: Side)
    ensures Framed(w.hub, Step(w, Connect(ws, side)).hub)
  {
  }

  predicate ByRest(e: Event) {
    !ByRobot(e) && !ByOperator(e) && !e.BeginDrop? && !e.DropLocked? && !e.Disconnect?
  }

  lemma OthersFramed(w: World, e: Event)
    requires ByRest(e)
    ensures Framed(w.hub, Step(w, e).hub)
  {
    hide Framed, OnLeave, OnMaintainRelease, OnMaintainDrop, OnForget, OnSweep, OnStaleStop;
    match e
    case Clock(_, _) => NothingFramed(w.hub);
    case ClearRow(id) => RestFramed(w.hub, w.hub.(db := w.hub.db - {id}));
    case Connect(ws, side) => ConnectFramed(w, ws, side);
    case Leave(ws) => LeaveFramed(w, ws);
    case MaintainRelease => MaintainFramed(w);
    case MaintainDrop => MaintainFramed(w);
    case Forget(id) => ForgetFramed(w, id);
    case SweepRobot(id) => SweepFramed(w, id);
    case StaleStop => StaleStopFramed(w);
  }

  predicate SameRegister(h: Hub, t: Hub) {
    t.robots == h.robots
  }

  lemma RegisteringKeepsRegister(w: World, ws: Socket, id: string, digest: int, ok: bool)
    ensures SameRegister(w.hub, OnRegister(w, ws, id).hub) && SameRegister(w.hub, OnMatched(w, ws, ok).hub)
    ensures forall k :: k in w.hub.robots ==> k in OnHashed(w, ws, digest).hub.robots && OnHashed(w, ws, digest).hub.robots[k] == w.hub.robots[k]
  {
    hide Hub.PendingCount, Still;
  }

  lemma TakingKeepsRegister(w: World, ws: Socket, phase: Phase)
    ensures SameRegister(w.hub, OnTake(w, ws).hub) && SameRegister(w.hub, OnTakeAgain(w, ws).hub)
    ensures SameRegister(w.hub, OnPresence(w, ws, phase).hub)
  {
    hide Still, Record.Taken, Record.Presence;
  }

  lemma RelayingKeepsRegister(w: World, ws: Socket, kind: Kind, choice: Option<string>, delivered: bool)
    ensures SameRegister(w.hub, OnRelayFrame(w, ws, kind, choice).hub) && SameRegister(w.hub, OnForward(w, ws).hub)
    ensures SameRegister(w.hub, OnRelayEnds(w, ws, delivered).hub)
  {
    hide Still, Kind.AllowedFrom, Hub.HeldChoice, Record.ApplyStatus;
  }

  lemma RobotsKeepRegister(w: World, e: Event)
    requires ByRobot(e)
    ensures forall id :: id in w.hub.robots ==> id in Step(w, e).hub.robots && Step(w, e).hub.robots[id] == w.hub.robots[id]
  {
    hide OnRegister, OnHashed, OnMatched, OnTake, OnTakeAgain, OnPresence, OnRelayFrame, OnForward, OnRelayEnds;
    match e
    case RegisterFrame(ws, id) => RegisteringKeepsRegister(w, ws, id, 0, true);
    case Hashed(ws, digest) => RegisteringKeepsRegister(w, ws, "", digest, true);
    case Matched(ws, ok) => RegisteringKeepsRegister(w, ws, "", 0, ok);
    case Take(ws) => TakingKeepsRegister(w, ws, Idle);
    case TakeAgain(ws) => TakingKeepsRegister(w, ws, Idle);
    case PresenceFrame(ws, phase) => TakingKeepsRegister(w, ws, phase);
    case RelayFrame(ws, kind, choice) => RelayingKeepsRegister(w, ws, kind, choice, true);
    case Forward(ws) => RelayingKeepsRegister(w, ws, Inventory, None, true);
    case RelayEnds(ws, delivered) => RelayingKeepsRegister(w, ws, Inventory, None, delivered);
  }

  lemma LoggingKeepsRegister(w: World, ws: Socket, username: string, ok: bool)
    ensures SameRegister(w.hub, OnLogin(w, ws, username).hub) && SameRegister(w.hub, OnLoginMatched(w, ws, ok).hub)
    ensures SameRegister(w.hub, OnLoginCommit(w, ws).hub) && SameRegister(w.hub, OnSignOutEnds(w, ws).hub)
  {
  }

  lemma HoldingKeepsRegister(w: World, ws: Socket, id: string, choice: Option<string>)
    ensures SameRegister(w.hub, OnApprove(w, ws, id).hub) && SameRegister(w.hub, OnAttach(w, ws, id, choice).hub)
    ensures SameRegister(w.hub, OnAttachLocked(w, ws, choice).hub) && SameRegister(w.hub, OnRelease(w, ws, choice).hub)
    ensures SameRegister(w.hub, OnSignOut(w, ws, choice).hub)
  {
    hide Hub.HeldChoice, Record.AttachCode, Record.Hold;
  }

  lemma EndingKeepsRegister(w: World, ws: Socket, rec: RecId)
    requires rec < |w.hub.records|
    ensures SameRegister(w.hub, ReleaseFrom(w, ws, rec).hub) && SameRegister(w.hub, DropFrom(w, ws, rec).hub)
    ensures ReleaseFrom(w, ws, rec).hub.pcs == w.hub.pcs && DropFrom(w, ws, rec).hub.pcs == w.hub.pcs
  {
    hide Record.Released, Record.Dropped;
  }

  lemma LockedKeepsRegister(w: World, ws: Socket)
    ensures SameRegister(w.hub, OnReleaseLocked(w, ws).hub) && SameRegister(w.hub, OnDropLocked(w, ws).hub)
    ensures SameRegister(w.hub, OnMaintainRelease(w).hub) && SameRegister(w.hub, OnMaintainDrop(w).hub)
  {
    hide ReleaseFrom, DropFrom;
    forall s, rec: RecId | rec < |w.hub.records|
      ensures SameRegister(w.hub, ReleaseFrom(w, s, rec).hub) && SameRegister(w.hub, DropFrom(w, s, rec).hub)
    {
      EndingKeepsRegister(w, s, rec);
    }
  }

  lemma OperatorsKeepRegister(w: World, e: Event)
    requires ByOperator(e)
    ensures SameRegister(w.hub, Step(w, e).hub)
  {
    hide OnLogin, OnLoginMatched, OnLoginCommit, OnApprove, OnAttach, OnAttachLocked, OnRelease, OnReleaseLocked, OnSignOut;
    hide OnSignOutEnds, SameRegister;
    match e
    case LoginFrame(ws, username) => LoggingKeepsRegister(w, ws, username, true);
    case LoginMatched(ws, ok) => LoggingKeepsRegister(w, ws, "", ok);
    case LoginCommit(ws) => LoggingKeepsRegister(w, ws, "", true);
    case ApproveFrame(ws, id) => HoldingKeepsRegister(w, ws, id, None);
    case AttachFrame(ws, id, choice) => HoldingKeepsRegister(w, ws, id, choice);
    case AttachLocked(ws, choice) => HoldingKeepsRegister(w, ws, "", choice);
    case ReleaseFrame(ws, choice) => HoldingKeepsRegister(w, ws, "", choice);
    case ReleaseLocked(ws) => LockedKeepsRegister(w, ws);
    case SignOutFrame(ws, choice) => HoldingKeepsRegister(w, ws, "", choice);
    case SignOutEnds(ws) => LoggingKeepsRegister(w, ws, "", true);
  }

  lemma LeavingKeepsRegister(w: World, ws: Socket, username: string, choice: Option<string>)
    ensures SameRegister(w.hub, OnLeave(w, ws).hub) && SameRegister(w.hub, OnBeginDrop(w, ws, choice).hub)
    ensures SameRegister(w.hub, OnDisconnect(w, username, choice).hub)
  {
    hide Hub.HeldChoice, Hub.NamedChoice;
  }

  lemma SweepingKeepsRegister(w: World, id: string)
    ensures SameRegister(w.hub, OnSweep(w, id).hub) && SameRegister(w.hub, OnStaleStop(w).hub)
  {
    hide Record.Swept, Record.SweepResult, Record.StaleStopped, Record.IsStale;
  }

  lemma OthersKeepRegister(w: World, e: Event)
    requires !ByRobot(e) && !ByOperator(e) && !e.Forget?
    ensures SameRegister(w.hub, Step(w, e).hub)
  {
    hide OnLeave, OnBeginDrop, OnDropLocked, OnDisconnect, OnMaintainRelease, OnMaintainDrop, OnSweep, OnStaleStop;
    match e
    case Clock(_, _) =>
    case ClearRow(_) =>
    case Connect(_, _) =>
    case Leave(ws) => LeavingKeepsRegister(w, ws, "", None);
    case BeginDrop(ws, choice) => LeavingKeepsRegister(w, ws, "", choice);
    case DropLocked(ws) => LockedKeepsRegister(w, ws);
    case Disconnect(username, choice) => LeavingKeepsRegister(w, 0, username, choice);
    case MaintainRelease => LockedKeepsRegister(w, 0);
    case MaintainDrop => LockedKeepsRegister(w, 0);
    case SweepRobot(id) => SweepingKeepsRegister(w, id);
    case StaleStop => SweepingKeepsRegister(w, "");
  }

  /** A robot leaves the register only when it is forgotten, and that only once its row is gone. */
  lemma OnlyGoneRowsAreForgotten(w: World, e: Event, id: string)
    requires id in w.hub.robots && !(id in Step(w, e).hub.robots && Step(w, e).hub.robots[id] == w.hub.robots[id])
    ensures e == Forget(id) && id !in w.hub.db && w.hub.maintain == Asleep
  {
    if !e.Forget? {
      hide Step;
      if ByRobot(e) {
        RobotsKeepRegister(w, e);
      } else if ByOperator(e) {
        OperatorsKeepRegister(w, e);
      } else {
        OthersKeepRegister(w, e);
      }
    }
  }
}
