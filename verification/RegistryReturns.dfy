/**
  Robot handlers that return: exactly when no record goes on naming the closed socket, that this
  is so for a connection that registers one robot, and a run in which it is not.
 */
module RegistryReturns {
  import opened Wrappers
  import opened RegistryRecord
  import opened RegistrySteps
  import opened RegistryInvariant
  import opened RegistrySafety
  import opened RegistryFrames
  import opened RegistryRuns

  /** The socket of the robot registered under this ID. */
  function RobotAt(h: Hub, id: string): Option<Socket> {
    if id in h.robots && h.robots[id] < |h.records| then h.records[h.robots[id]].robot else None
  }

  predicate SameId(ids: map<Socket, string>, ws: Socket, id: string) {
    ws in ids && ids[ws] == id
  }

  /** Each connection registers one robot ID. */
  predicate OneIdEach(es: seq<Event>, ids: map<Socket, string>) {
    forall k :: 0 <= k < |es| && es[k].RegisterFrame? ==> SameId(ids, es[k].ws, es[k].id)
  }

  predicate RecordNamed(ids: map<Socket, string>, r: Record) {
    r.robot.Some? ==> SameId(ids, r.robot.value, r.id)
  }

  /** A registering handler is after its own ID; a dropping one is named by one record at most. */
  ghost predicate PcNamed(h: Hub, ids: map<Socket, string>, ws: Socket, pc: Pc) {
    && (pc.Hashing? || pc.Matching? ==> SameId(ids, ws, pc.robotId))
    && (pc.TakeWait? || pc.TakeCheck? ==> pc.rec < |h.records| && SameId(ids, ws, h.records[pc.rec].id))
    && (pc.DropWait? ==> forall id :: RobotAt(h, id) == Some(ws) ==> h.robots[id] == pc.rec)
    && ((pc.ReleaseWait? && pc.next.ToDone?) || pc.Done? ==> forall id :: RobotAt(h, id) != Some(ws))
  }

  ghost predicate Named(h: Hub, ids: map<Socket, string>) {
    && (forall rec :: 0 <= rec < |h.records| ==> RecordNamed(ids, h.records[rec]))
    && (forall ws :: ws in h.pcs ==> PcNamed(h, ids, ws, h.pcs[ws]))
  }

  /** Positions that say nothing of robot IDs. */
  predicate Silent(pc: Pc) {
    !pc.Hashing? && !pc.Matching? && !pc.TakeWait? && !pc.TakeCheck? && !pc.DropWait? && !pc.Done? && !(pc.ReleaseWait? && pc.next.ToDone?)
  }

  // ---------- What the steps are made of ----------

  /** Robots' sockets stay or go. */
  lemma FrameNamed(h: Hub, t: Hub, ids: map<Socket, string>, ws: Socket, pc: Pc)
    requires PcNamed(h, ids, ws, pc) && |t.records| >= |h.records|
    requires forall rec :: 0 <= rec < |h.records| ==> t.records[rec].id == h.records[rec].id
    requires forall id :: RobotAt(t, id) == Some(ws) ==> RobotAt(h, id) == Some(ws) && t.robots[id] == h.robots[id]
    ensures PcNamed(t, ids, ws, pc)
  {
  }

  lemma PcNames(h: Hub, ids: map<Socket, string>, ws: Socket, pc: Pc)
    requires Named(h, ids) && (Silent(pc) || PcNamed(h, ids, ws, pc))
    ensures Named(h.SetPc(ws, pc), ids)
  {
    var t := h.SetPc(ws, pc);
    forall s | s in t.pcs ensures PcNamed(t, ids, s, t.pcs[s]) {
      assert PcNamed(h, ids, s, t.pcs[s]);
      FrameNamed(h, t, ids, s, t.pcs[s]);
    }
  }

  lemma RecordNames(h: Hub, ids: map<Socket, string>, rec: RecId, r: Record)
    requires Named(h, ids) && rec < |h.records| && r.id == h.records[rec].id
    requires r.robot == h.records[rec].robot || r.robot == None
    ensures Named(h.SetRecord(rec, r), ids)
  {
    var t := h.SetRecord(rec, r);
    forall s | s in t.pcs ensures PcNamed(t, ids, s, t.pcs[s]) {
      assert PcNamed(h, ids, s, h.pcs[s]);
      FrameNamed(h, t, ids, s, t.pcs[s]);
    }
    forall k | 0 <= k < |t.records| ensures RecordNamed(ids, t.records[k]) {
      assert RecordNamed(ids, h.records[k]);
    }
  }

  /** Neither records nor registrations nor positions changed, or only a registration went. */
  lemma RestNames(h: Hub, t: Hub, ids: map<Socket, string>)
    requires Named(h, ids) && t.records == h.records && t.pcs == h.pcs
    requires t.robots == h.robots || exists id :: t.robots == h.robots - {id}
    ensures Named(t, ids)
  {
    forall s | s in t.pcs ensures PcNamed(t, ids, s, t.pcs[s]) {
      assert PcNamed(h, ids, s, h.pcs[s]);
      FrameNamed(h, t, ids, s, t.pcs[s]);
    }
  }

  lemma GetNamed(h: Hub, ids: map<Socket, string>, ws: Socket)
    requires Named(h, ids) && ws in h.pcs
    ensures PcNamed(h, ids, ws, h.pcs[ws])
  {
  }

  /** What the stretches do to a record's ID and robot socket. */
  lemma RobotFields(r: Record, ws: Socket, utc: real, mono: real, phase: Phase)
    ensures r.Released(utc).robot == r.robot && r.Released(utc).id == r.id
    ensures r.Dropped(ws, utc).robot == (if r.robot == Some(ws) then None else r.robot) && r.Dropped(ws, utc).id == r.id
    ensures r.Forgotten().robot == None && r.Forgotten().id == r.id
    ensures r.Presence(phase, utc).robot == r.robot && r.Presence(phase, utc).id == r.id
    ensures r.ApplyStatus(phase).robot == r.robot && r.ApplyStatus(phase).id == r.id
    ensures r.Swept(utc, mono).robot == r.robot && r.Swept(utc, mono).id == r.id
    ensures r.StaleStopped().robot == r.robot && r.StaleStopped().id == r.id
  {
  }

  // ---------- The steps of a robot's handler ----------

  lemma RegisterNames(w: World, ws: Socket, id: string, ids: map<Socket, string>)
    requires Named(w.hub, ids) && SameId(ids, ws, id)
    ensures Named(OnRegister(w, ws, id).hub, ids)
  {
    if ws in w.hub.pcs && w.hub.pcs[ws].RobotIdle? {
      hide Named, Still, Hub.PendingCount;
      var session := w.hub.pcs[ws].session;
      PcNames(w.hub, ids, ws, Closing);
      PcNames(w.hub, ids, ws, Hashing(id, session));
      if id in w.hub.robots && w.hub.robots[id] < |w.hub.records| {
        PcNames(w.hub, ids, ws, Matching(id, w.hub.records[w.hub.robots[id]].secret, session));
      }
    }
  }

  lemma InsertNames(w: World, ws: Socket, id: string, digest: int, ids: map<Socket, string>)
    requires Named(w.hub, ids) && SameId(ids, ws, id) && ws in w.hub.pcs && w.hub.pcs[ws].Hashing? && id !in w.hub.robots
    ensures Named(Insert(w, ws, id, digest).hub, ids)
  {
    var h, t := w.hub, Insert(w, ws, id, digest).hub;
    forall s | s in t.pcs ensures PcNamed(t, ids, s, t.pcs[s]) {
      if s != ws {
        assert PcNamed(h, ids, s, h.pcs[s]);
        FrameNamed(h, t, ids, s, t.pcs[s]);
      }
    }
    forall k | 0 <= k < |t.records| ensures RecordNamed(ids, t.records[k]) {
      if k < |h.records| {
        assert RecordNamed(ids, h.records[k]);
      }
    }
  }

  lemma HashedNames(w: World, ws: Socket, digest: int, ids: map<Socket, string>)
    requires Named(w.hub, ids)
    ensures Named(OnHashed(w, ws, digest).hub, ids)
  {
    if ws in w.hub.pcs && w.hub.pcs[ws].Hashing? {
      hide Named, Hub.PendingCount, Insert;
      var Hashing(id, session) := w.hub.pcs[ws];
      GetNamed(w.hub, ids, ws);
      PcNames(w.hub, ids, ws, RobotIdle(session));
      if id !in w.hub.robots {
        InsertNames(w, ws, id, digest, ids);
      } else if w.hub.robots[id] < |w.hub.records| {
        PcNames(w.hub, ids, ws, Matching(id, w.hub.records[w.hub.robots[id]].secret, session));
      }
    }
  }

  lemma MatchedNames(w: World, ws: Socket, ok: bool, ids: map<Socket, string>)
    requires Inv(w.hub) && Named(w.hub, ids)
    ensures Named(OnMatched(w, ws, ok).hub, ids)
  {
    if ws in w.hub.pcs && w.hub.pcs[ws].Matching? {
      hide Named, Inv;
      var Matching(id, stored, session) := w.hub.pcs[ws];
      GetNamed(w.hub, ids, ws);
      PcNames(w.hub, ids, ws, RobotIdle(session));
      if id in w.hub.robots {
        GetRobot(w.hub, id);
        PcNames(w.hub, ids, ws, TakeWait(w.hub.robots[id], session, w.utc.Floor as real));
      }
    }
  }

  lemma TakeNames(w: World, ws: Socket, ids: map<Socket, string>)
    requires Named(w.hub, ids)
    ensures Named(OnTake(w, ws).hub, ids)
  {
    if ws in w.hub.pcs && w.hub.pcs[ws].TakeWait? && w.hub.Lockable(w.hub.pcs[ws].rec) {
      var TakeWait(rec, session, stamp) := w.hub.pcs[ws];
      GetNamed(w.hub, ids, ws);
      SetTakenNames(w.hub, ids, rec, w.hub.records[rec].Taken(ws, stamp), ws, session);
    }
  }

  lemma SetTakenNames(h: Hub, ids: map<Socket, string>, rec: RecId, r: Record, ws: Socket, session: Option<RecId>)
    requires Named(h, ids) && rec < |h.records| && r.id == h.records[rec].id && r.robot == Some(ws) && SameId(ids, ws, r.id)
    ensures Named(h.SetRecord(rec, r).SetPc(ws, TakeCheck(rec, session)), ids)
  {
    var t := h.SetRecord(rec, r).SetPc(ws, TakeCheck(rec, session));
    forall s | s in t.pcs ensures PcNamed(t, ids, s, t.pcs[s]) {
      if s != ws {
        assert PcNamed(h, ids, s, h.pcs[s]);
        FrameNamed(h, t, ids, s, t.pcs[s]);
      }
    }
    forall k | 0 <= k < |t.records| ensures RecordNamed(ids, t.records[k]) {
      assert RecordNamed(ids, h.records[k]);
    }
  }

  lemma TakeAgainNames(w: World, ws: Socket, ids: map<Socket, string>)
    requires Named(w.hub, ids)
    ensures Named(OnTakeAgain(w, ws).hub, ids)
  {
    if ws in w.hub.pcs && w.hub.pcs[ws].TakeCheck? {
      hide Named;
      PcNames(w.hub, ids, ws, RobotIdle(w.hub.pcs[ws].session));
      PcNames(w.hub, ids, ws, RobotIdle(Some(w.hub.pcs[ws].rec)));
    }
  }

  lemma PresenceNames(w: World, ws: Socket, phase: Phase, ids: map<Socket, string>)
    requires Named(w.hub, ids)
    ensures Named(OnPresence(w, ws, phase).hub, ids)
  {
    if ws in w.hub.pcs && w.hub.pcs[ws].RobotIdle? && w.hub.pcs[ws].session.Some? {
      hide Named, Record.Presence;
      var rec := w.hub.pcs[ws].session.value;
      PcNames(w.hub, ids, ws, Closing);
      if Still(w.hub, ws, rec) {
        RobotFields(w.hub.records[rec], ws, w.utc, w.mono, phase);
        RecordNames(w.hub, ids, rec, w.hub.records[rec].Presence(phase, w.utc));
      }
    }
  }

  lemma RelayFrameNames(w: World, ws: Socket, kind: Kind, choice: Option<string>, ids: map<Socket, string>)
    requires Named(w.hub, ids)
    ensures Named(OnRelayFrame(w, ws, kind, choice).hub, ids)
  {
    hide Named, Still, Kind.AllowedFrom, Hub.HeldChoice;
    if ws in w.hub.pcs && w.hub.pcs[ws].RobotIdle? && w.hub.pcs[ws].session.Some? {
      PcNames(w.hub, ids, ws, Closing);
      PcNames(w.hub, ids, ws, ForwardWait(w.hub.pcs[ws].session.value, RobotSide, kind));
    } else if w.hub.HeldChoice(ws, choice) && choice.Some? {
      ChosenRecord(w.hub, ws, choice);
      PcNames(w.hub, ids, ws, ForwardWait(w.hub.robots[choice.value], OperatorSide, kind));
    }
  }

  lemma ForwardNames(w: World, ws: Socket, ids: map<Socket, string>)
    requires Named(w.hub, ids)
    ensures Named(OnForward(w, ws).hub, ids)
  {
    if ws in w.hub.pcs && w.hub.pcs[ws].ForwardWait? && w.hub.Lockable(w.hub.pcs[ws].rec) {
      hide Named;
      var ForwardWait(rec, side, kind) := w.hub.pcs[ws];
      var r := w.hub.records[rec];
      var own := if side == RobotSide then r.robot else r.operator;
      var peer := if side == RobotSide then r.operator else r.robot;
      if own != Some(ws) || peer == None {
        PcNames(w.hub, ids, ws, IdlePc(side, rec));
      } else {
        var marked := if side == OperatorSide && kind.StartFrame? then r.(startInProgress := true) else r;
        RecordNames(w.hub, ids, rec, marked);
        var locked := w.hub.SetRecord(rec, marked).(locks := w.hub.locks[rec := ws]);
        RestNames(w.hub.SetRecord(rec, marked), locked, ids);
        PcNames(locked, ids, ws, Relaying(rec, side, peer.value, kind));
      }
    }
  }

  lemma RelayEndsNames(w: World, ws: Socket, delivered: bool, ids: map<Socket, string>)
    requires Named(w.hub, ids)
    ensures Named(OnRelayEnds(w, ws, delivered).hub, ids)
  {
    if ws in w.hub.pcs && w.hub.pcs[ws].Relaying? && w.hub.pcs[ws].rec < |w.hub.records| {
      hide Named, Record.ApplyStatus;
      var Relaying(rec, side, peer, kind) := w.hub.pcs[ws];
      var unlocked := w.hub.(locks := w.hub.locks - {rec});
      RestNames(w.hub, unlocked, ids);
      PcNames(unlocked, ids, ws, Closing);
      PcNames(unlocked, ids, ws, IdlePc(side, rec));
      if kind.Status? && kind.phase.Some? {
        RobotFields(w.hub.records[rec], ws, w.utc, w.mono, kind.phase.value);
        RecordNames(unlocked.SetPc(ws, IdlePc(side, rec)), ids, rec, w.hub.records[rec].ApplyStatus(kind.phase.value));
      }
    }
  }

  // ---------- The steps of an operator's handler ----------

  lemma LoginNames(w: World, ws: Socket, username: string, ok: bool, ids: map<Socket, string>)
    requires Named(w.hub, ids)
    ensures Named(OnLogin(w, ws, username).hub, ids) && Named(OnLoginMatched(w, ws, ok).hub, ids)
    ensures Named(OnLoginCommit(w, ws).hub, ids) && Named(OnSignOutEnds(w, ws).hub, ids)
  {
    hide Named;
    PcNames(w.hub, ids, ws, LoginWait(username));
    PcNames(w.hub, ids, ws, OperatorIdle);
    if ws in w.hub.pcs && w.hub.pcs[ws].LoginWait? {
      PcNames(w.hub, ids, ws, LoginReply(w.hub.pcs[ws].username));
    }
    var idle := w.hub.SetPc(ws, OperatorIdle);
    if ws in w.hub.pcs && w.hub.pcs[ws].LoginReply? {
      RestNames(idle, OnLoginCommit(w, ws).hub, ids);
    }
    if ws in w.hub.pcs && w.hub.pcs[ws].SignOutReply? {
      RestNames(idle, OnSignOutEnds(w, ws).hub, ids);
    }
  }

  lemma ApproveNames(w: World, ws: Socket, id: string, ids: map<Socket, string>)
    requires Named(w.hub, ids)
    ensures Named(OnApprove(w, ws, id).hub, ids)
  {
    if id in w.hub.robots && w.hub.robots[id] < |w.hub.records| {
      hide Named;
      RecordNames(w.hub, ids, w.hub.robots[id], w.hub.records[w.hub.robots[id]].(approved := true));
    }
  }

  lemma OperatorFrameNames(w: World, ws: Socket, id: string, choice: Option<string>, ids: map<Socket, string>)
    requires Named(w.hub, ids)
    ensures Named(OnAttach(w, ws, id, choice).hub, ids) && Named(OnRelease(w, ws, choice).hub, ids)
    ensures Named(OnSignOut(w, ws, choice).hub, ids)
  {
    hide Named, Hub.HeldChoice, Record.AttachCode;
    if w.hub.HeldChoice(ws, choice) && ws in w.hub.wsUser {
      var user := Some(w.hub.wsUser[ws]);
      PcNames(w.hub, ids, ws, SignOutReply(user));
      if id in w.hub.robots {
        PcNames(w.hub, ids, ws, AttachWait(w.hub.robots[id], w.hub.wsUser[ws]));
      }
      if choice.Some? {
        ChosenRecord(w.hub, ws, choice);
        PcNames(w.hub, ids, ws, ReleaseWait(w.hub.robots[choice.value], BackToIdle));
        PcNames(w.hub, ids, ws, ReleaseWait(w.hub.robots[choice.value], ToSignOut(user)));
      }
    }
  }

  lemma AttachNames(w: World, ws: Socket, choice: Option<string>, ids: map<Socket, string>)
    requires Named(w.hub, ids)
    ensures Named(OnAttachLocked(w, ws, choice).hub, ids)
  {
    if ws in w.hub.pcs && w.hub.pcs[ws].AttachWait? && w.hub.Lockable(w.hub.pcs[ws].rec) {
      hide Named, Hub.HeldChoice, Record.AttachCode;
      var rec := w.hub.pcs[ws].rec;
      PcNames(w.hub, ids, ws, OperatorIdle);
      RecordNames(w.hub.SetPc(ws, OperatorIdle), ids, rec, w.hub.records[rec].Hold(ws, Some(w.hub.pcs[ws].username)));
    }
  }

  lemma ReleaseFromNames(w: World, ws: Socket, rec: RecId, ids: map<Socket, string>)
    requires Named(w.hub, ids) && rec < |w.hub.records|
    ensures Named(ReleaseFrom(w, ws, rec).hub, ids) && Named(DropFrom(w, ws, rec).hub, ids)
  {
    hide Named, Record.Released, Record.Dropped;
    RobotFields(w.hub.records[rec], ws, w.utc, w.mono, Idle);
    RecordNames(w.hub, ids, rec, w.hub.records[rec].Released(w.utc));
    RecordNames(w.hub, ids, rec, w.hub.records[rec].Dropped(ws, w.utc));
  }

  lemma ReleaseNames(w: World, ws: Socket, ids: map<Socket, string>)
    requires Named(w.hub, ids)
    ensures Named(OnReleaseLocked(w, ws).hub, ids)
  {
    if ws in w.hub.pcs && w.hub.pcs[ws].ReleaseWait? && w.hub.Lockable(w.hub.pcs[ws].rec) {
      hide Named, ReleaseFrom;
      var ReleaseWait(rec, next) := w.hub.pcs[ws];
      ReleaseFromNames(w, ws, rec, ids);
      var h := ReleaseFrom(w, ws, rec).hub;
      if next.ToDone? {
        GetNamed(w.hub, ids, ws);
        forall id ensures RobotAt(h, id) != Some(ws) {
          ReleasedRobots(w, ws, rec, id);
        }
      }
      PcNames(h, ids, ws, NextPc(next));
    }
  }

  lemma ReleasedRobots(w: World, ws: Socket, rec: RecId, id: string)
    requires rec < |w.hub.records|
    ensures RobotAt(ReleaseFrom(w, ws, rec).hub, id) == RobotAt(w.hub, id)
  {
  }

  // ---------- The end of a handler ----------

  /** An operator's socket is never a robot's. */
  lemma OperatorIsNoRobot(h: Hub, ws: Socket, id: string)
    requires Inv(h) && SideIs(h, ws, OperatorSide)
    ensures RobotAt(h, id) != Some(ws)
  {
    if id in h.robots {
      GetRobot(h, id);
      GetRecord(h, h.robots[id]);
    }
  }

  lemma ChosenIsOnly(h: Hub, ws: Socket, choice: Option<string>, ids: map<Socket, string>)
    requires Inv(h) && Named(h, ids) && h.NamedChoice(ws, choice)
    ensures forall id :: RobotAt(h, id) == Some(ws) ==> choice.Some? && choice.value in h.robots && h.robots[id] == h.robots[choice.value]
  {
    forall id | RobotAt(h, id) == Some(ws) ensures choice.Some? && h.robots[id] == h.robots[choice.value] {
      GetRobot(h, id);
      GetRecord(h, h.robots[id]);
      assert RecordNamed(ids, h.records[h.robots[id]]);
      if choice.Some? {
        GetRobot(h, choice.value);
        GetRecord(h, h.robots[choice.value]);
        assert RecordNamed(ids, h.records[h.robots[choice.value]]);
      }
    }
  }

  lemma BeginDropNames(w: World, ws: Socket, choice: Option<string>, ids: map<Socket, string>)
    requires Inv(w.hub) && Named(w.hub, ids)
    ensures Named(OnBeginDrop(w, ws, choice).hub, ids)
  {
    if w.hub.At(ws, Closing) {
      hide Named, Inv, Hub.HeldChoice, Hub.NamedChoice, Hub.Logout;
      if ws in w.hub.wsUser {
        var out := w.hub.Logout(ws);
        LogoutKeeps(w.hub, ws);
        LogoutNames(w.hub, ids, ws);
        forall id ensures RobotAt(out, id) != Some(ws) {
          OperatorIsNoRobot(out, ws, id);
        }
        PcNames(out, ids, ws, Done);
        if choice.Some? && out.HeldChoice(ws, choice) {
          ChosenRecord(out, ws, choice);
          PcNames(out, ids, ws, ReleaseWait(out.robots[choice.value], ToDone));
        }
      } else if w.hub.NamedChoice(ws, choice) {
        ChosenIsOnly(w.hub, ws, choice, ids);
        NamedInRobots(w.hub, ws, choice);
        PcNames(w.hub, ids, ws, if choice == None then Done else DropWait(w.hub.robots[choice.value]));
      }
    }
  }

  lemma NamedInRobots(h: Hub, ws: Socket, choice: Option<string>)
    requires h.NamedChoice(ws, choice)
    ensures choice.Some? ==> choice.value in h.robots
  {
  }

  lemma LogoutNames(h: Hub, ids: map<Socket, string>, ws: Socket)
    requires Named(h, ids)
    ensures Named(h.Logout(ws), ids)
  {
    hide Named;
    RestNames(h, h.Logout(ws), ids);
  }

  lemma DropNames(w: World, ws: Socket, ids: map<Socket, string>)
    requires Named(w.hub, ids)
    ensures Named(OnDropLocked(w, ws).hub, ids)
  {
    if ws in w.hub.pcs && w.hub.pcs[ws].DropWait? && w.hub.Lockable(w.hub.pcs[ws].rec) {
      hide Named, DropFrom;
      var rec := w.hub.pcs[ws].rec;
      GetNamed(w.hub, ids, ws);
      ReleaseFromNames(w, ws, rec, ids);
      var t := DropFrom(w, ws, rec).hub;
      forall id ensures RobotAt(t, id) != Some(ws) {
        DroppedRobots(w, ws, rec, id);
      }
      PcNames(t, ids, ws, Done);
    }
  }

  lemma DroppedRobots(w: World, ws: Socket, rec: RecId, id: string)
    requires rec < |w.hub.records| && (RobotAt(w.hub, id) == Some(ws) ==> w.hub.robots[id] == rec)
    ensures RobotAt(DropFrom(w, ws, rec).hub, id) != Some(ws)
  {
  }

  // ---------- The maintenance task ----------

  lemma DisconnectNames(w: World, username: string, choice: Option<string>, ids: map<Socket, string>)
    requires Named(w.hub, ids)
    ensures Named(OnDisconnect(w, username, choice).hub, ids)
  {
    hide Named, Hub.HeldChoice, Hub.NamedChoice;
    RestNames(w.hub, OnDisconnect(w, username, choice).hub, ids);
  }

  lemma MaintainEndNames(w: World, ids: map<Socket, string>)
    requires Named(w.hub, ids)
    ensures Named(OnMaintainRelease(w).hub, ids) && Named(OnMaintainDrop(w).hub, ids)
  {
    if (w.hub.maintain.ReleaseFor? || w.hub.maintain.DropFor?) && w.hub.Lockable(w.hub.maintain.rec) {
      hide Named, ReleaseFrom, DropFrom;
      var rec, ws := w.hub.maintain.rec, w.hub.maintain.ws;
      ReleaseFromNames(w, ws, rec, ids);
      RestNames(ReleaseFrom(w, ws, rec).hub, ReleaseFrom(w, ws, rec).hub.(maintain := Asleep), ids);
      RestNames(DropFrom(w, ws, rec).hub, DropFrom(w, ws, rec).hub.(maintain := Asleep), ids);
    }
  }

  lemma ForgetNames(w: World, id: string, ids: map<Socket, string>)
    requires Named(w.hub, ids)
    ensures Named(OnForget(w, id).hub, ids)
  {
    if id in w.hub.robots && w.hub.robots[id] < |w.hub.records| {
      hide Named, Record.Forgotten;
      var rec := w.hub.robots[id];
      RobotFields(w.hub.records[rec], 0, w.utc, w.mono, Idle);
      RecordNames(w.hub, ids, rec, w.hub.records[rec].Forgotten());
      var set_ := w.hub.SetRecord(rec, w.hub.records[rec].Forgotten());
      RestNames(set_, set_.(robots := w.hub.robots - {id}), ids);
    }
  }

  lemma SweepNames(w: World, id: string, ids: map<Socket, string>)
    requires Named(w.hub, ids)
    ensures Named(OnSweep(w, id).hub, ids)
  {
    if id in w.hub.robots && w.hub.robots[id] < |w.hub.records| {
      hide Named, Record.Swept, Record.SweepResult;
      var rec := w.hub.robots[id];
      RobotFields(w.hub.records[rec], 0, w.utc, w.mono, Idle);
      RecordNames(w.hub, ids, rec, w.hub.records[rec].Swept(w.utc, w.mono));
      var swept := w.hub.SetRecord(rec, w.hub.records[rec].Swept(w.utc, w.mono));
      RestNames(swept, swept.(maintain := OnSweep(w, id).hub.maintain), ids);
    }
  }

  lemma StaleStopNames(w: World, ids: map<Socket, string>)
    requires Named(w.hub, ids)
    ensures Named(OnStaleStop(w).hub, ids)
  {
    if w.hub.maintain.StopWait? && w.hub.Lockable(w.hub.maintain.rec) {
      hide Named, Record.StaleStopped;
      var rec, awake := w.hub.maintain.rec, w.hub.(maintain := Asleep);
      RobotFields(w.hub.records[rec], 0, w.utc, w.mono, Idle);
      RestNames(w.hub, awake, ids);
      RecordNames(awake, ids, rec, w.hub.records[rec].StaleStopped());
    }
  }

  // ---------- Every interleaving ----------

  lemma RobotStepNames(w: World, e: Event, ids: map<Socket, string>)
    requires Inv(w.hub) && Named(w.hub, ids) && (e.RegisterFrame? ==> SameId(ids, e.ws, e.id)) && ByRobot(e)
    ensures Named(Step(w, e).hub, ids)
  {
    hide Inv, Named, OnRegister, OnHashed, OnMatched, OnTake, OnTakeAgain, OnPresence, OnRelayFrame, OnForward, OnRelayEnds;
    match e
    case RegisterFrame(ws, id) => RegisterNames(w, ws, id, ids);
    case Hashed(ws, digest) => HashedNames(w, ws, digest, ids);
    case Matched(ws, ok) => MatchedNames(w, ws, ok, ids);
    case Take(ws) => TakeNames(w, ws, ids);
    case TakeAgain(ws) => TakeAgainNames(w, ws, ids);
    case PresenceFrame(ws, phase) => PresenceNames(w, ws, phase, ids);
    case RelayFrame(ws, kind, choice) => RelayFrameNames(w, ws, kind, choice, ids);
    case Forward(ws) => ForwardNames(w, ws, ids);
    case RelayEnds(ws, delivered) => RelayEndsNames(w, ws, delivered, ids);
  }

  lemma OperatorStepNames(w: World, e: Event, ids: map<Socket, string>)
    requires Named(w.hub, ids) && ByOperator(e)
    ensures Named(Step(w, e).hub, ids)
  {
    hide Named, OnLogin, OnLoginMatched, OnLoginCommit, OnApprove, OnAttach, OnAttachLocked, OnRelease, OnReleaseLocked, OnSignOut;
    hide OnSignOutEnds;
    match e
    case LoginFrame(ws, username) => LoginNames(w, ws, username, true, ids);
    case LoginMatched(ws, ok) => LoginNames(w, ws, "", ok, ids);
    case LoginCommit(ws) => LoginNames(w, ws, "", true, ids);
    case ApproveFrame(ws, id) => ApproveNames(w, ws, id, ids);
    case AttachFrame(ws, id, choice) => OperatorFrameNames(w, ws, id, choice, ids);
    case AttachLocked(ws, choice) => AttachNames(w, ws, choice, ids);
    case ReleaseFrame(ws, choice) => OperatorFrameNames(w, ws, "", choice, ids);
    case ReleaseLocked(ws) => ReleaseNames(w, ws, ids);
    case SignOutFrame(ws, choice) => OperatorFrameNames(w, ws, "", choice, ids);
    case SignOutEnds(ws) => LoginNames(w, ws, "", true, ids);
  }

  lemma StepNames(w: World, e: Event, ids: map<Socket, string>)
    requires Inv(w.hub) && Named(w.hub, ids) && (e.RegisterFrame? ==> SameId(ids, e.ws, e.id))
    ensures Named(Step(w, e).hub, ids)
  {
    hide Inv, Named, OnBeginDrop, OnDropLocked, OnDisconnect, OnMaintainRelease, OnMaintainDrop, OnForget, OnSweep, OnStaleStop;
    if ByRobot(e) {
      RobotStepNames(w, e, ids);
    } else if ByOperator(e) {
      OperatorStepNames(w, e, ids);
    } else {
      match e
      case Clock(_, _) =>
      case ClearRow(id) => RestNames(w.hub, w.hub.(db := w.hub.db - {id}), ids);
      case Connect(ws, side) =>
        var known := w.hub.(sides := w.hub.sides[ws := side]);
        RestNames(w.hub, known, ids);
        PcNames(known, ids, ws, if side == RobotSide then RobotIdle(None) else OperatorIdle);
      case Leave(ws) => PcNames(w.hub, ids, ws, Closing);
      case BeginDrop(ws, choice) => BeginDropNames(w, ws, choice, ids);
      case DropLocked(ws) => DropNames(w, ws, ids);
      case Disconnect(username, choice) => DisconnectNames(w, username, choice, ids);
      case MaintainRelease => MaintainEndNames(w, ids);
      case MaintainDrop => MaintainEndNames(w, ids);
      case Forget(id) => ForgetNames(w, id, ids);
      case SweepRobot(id) => SweepNames(w, id, ids);
      case StaleStop => StaleStopNames(w, ids);
    }
  }

  lemma {:induction false} RunNames(w: World, es: seq<Event>, ids: map<Socket, string>)
    requires Initial(w) && OneIdEach(es, ids)
    ensures Named(Run(w, es).hub, ids)
  {
    if es == [] {
      forall rec | 0 <= rec < |w.hub.records| ensures RecordNamed(ids, w.hub.records[rec]) {
        assert RegistrySteps.Unused(w.hub.records[rec]);
      }
    } else {
      hide Named, Inv, Step;
      RunNames(w, es[..|es| - 1], ids);
      RunInv(w, es[..|es| - 1]);
      StepNames(Run(w, es[..|es| - 1]), es[|es| - 1], ids);
    }
  }

  /**
    When a robot's handler has returned, no registered record names its socket, if every
    connection registers one robot ID only.
   */
  lemma RobotGoneAfterReturn(w: World, es: seq<Event>, ids: map<Socket, string>, ws: Socket, id: string)
    requires Initial(w) && OneIdEach(es, ids) && Run(w, es).hub.At(ws, Done)
    ensures RobotAt(Run(w, es).hub, id) != Some(ws)
  {
    RunNames(w, es, ids);
    var h := Run(w, es).hub;
    assert PcNamed(h, ids, ws, h.pcs[ws]);
  }

  // ---------- Exactly when ----------

  ghost predicate Nameless(h: Hub, ws: Socket) {
    forall id :: RobotAt(h, id) != Some(ws)
  }

  /** Only the record that the handler waits to drop names the socket. */
  ghost predicate OnlyDropped(h: Hub, ws: Socket) {
    forall id :: RobotAt(h, id) == Some(ws) ==> ws in h.pcs && h.pcs[ws].DropWait? && h.robots[id] == h.pcs[ws].rec
  }

  /** How a handler returns: nothing names its socket, or it dropped a record, or it released its hold. */
  predicate Returns(w: World, e: Event, ws: Socket) {
    || e == BeginDrop(ws, None)
    || (e == DropLocked(ws) && ws in w.hub.pcs && w.hub.pcs[ws].DropWait? && w.hub.Lockable(w.hub.pcs[ws].rec))
    || (e == ReleaseLocked(ws) && ws in w.hub.pcs && w.hub.pcs[ws].ReleaseWait? && w.hub.pcs[ws].next.ToDone?)
  }

  /** A handler that has returned stays so, and the others return in no other way. */
  ghost predicate DoneFrame(w: World, e: Event, ws: Socket) {
    && (w.hub.At(ws, Done) && ws in w.hub.sides ==> Step(w, e).hub.At(ws, Done))
    && (!w.hub.At(ws, Done) && Step(w, e).hub.At(ws, Done) ==> Returns(w, e, ws))
  }

  lemma EndsAreFramed(w: World, e: Event, ws: Socket)
    requires e.ReleaseLocked? || e.DropLocked?
    ensures DoneFrame(w, e, ws)
  {
    hide OnReleaseLocked, OnDropLocked, NoNewRobots, SameLogins;
    match e
    case ReleaseLocked(s) => ReleaseLockedFramed(w, s);
    case DropLocked(s) => DropLockedFramed(w, s);
  }

  lemma LeavesAreFramed(w: World, e: Event, ws: Socket)
    requires e.BeginDrop? || e.Disconnect?
    ensures DoneFrame(w, e, ws)
  {
    hide OnBeginDrop, OnDisconnect, NoNewRobots, SameLogins, Hub.Logout;
    match e
    case BeginDrop(s, choice) => BeginDropFramed(w, s, choice);
    case Disconnect(username, choice) => var s := DisconnectFramed(w, username, choice);
  }

  lemma DoneIsFramed(w: World, e: Event, ws: Socket)
    ensures DoneFrame(w, e, ws)
  {
    hide Step, NoNewRobots, SameLogins;
    if ByRest(e) {
      OthersFramed(w, e);
    } else if ByRobot(e) {
      RobotsFramed(w, e);
    } else if ByOperator(e) && !e.ReleaseLocked? {
      OperatorsFramed(w, e);
    } else if e.ReleaseLocked? || e.DropLocked? {
      EndsAreFramed(w, e, ws);
    } else {
      LeavesAreFramed(w, e, ws);
    }
  }

  /** When a handler returns, no record names its socket exactly when only the dropped one did. */
  lemma ReturnLeavesNone(w: World, e: Event, ws: Socket)
    requires Inv(w.hub) && !w.hub.At(ws, Done) && Step(w, e).hub.At(ws, Done)
    ensures Nameless(Step(w, e).hub, ws) <==> OnlyDropped(w.hub, ws)
  {
    hide Inv, ReleaseFrom, DropFrom, Hub.Logout, Hub.NamedChoice, Hub.HeldChoice, RobotAt;
    DoneIsFramed(w, e, ws);
    if e.DropLocked? {
      var rec := w.hub.pcs[ws].rec;
      assert Step(w, e).hub == DropFrom(w, ws, rec).hub.SetPc(ws, Done);
      forall id ensures Slips(w.hub, ws, rec, id) <==> RobotAt(Step(w, e).hub, id) == Some(ws) {
        DropsOne(w, ws, rec, id);
      }
      WhatSlips(w.hub, ws, rec);
    } else {
      assert !Step(w, e).hub.pcs[ws].DropWait?;
      forall id ensures RobotAt(w.hub, id) != Some(ws) && RobotAt(Step(w, e).hub, id) != Some(ws) {
        if e.BeginDrop? {
          NoneNamed(w, ws, id);
        } else {
          OperatorReleased(w, ws, id);
        }
      }
    }
  }

  /** A record naming the socket that is not the one dropped. */
  predicate Slips(h: Hub, ws: Socket, rec: RecId, id: string) {
    id in h.robots && RobotAt(h, id) == Some(ws) && h.robots[id] != rec
  }

  lemma WhatSlips(h: Hub, ws: Socket, rec: RecId)
    requires h.At(ws, DropWait(rec))
    ensures OnlyDropped(h, ws) <==> forall id :: !Slips(h, ws, rec, id)
  {
    if OnlyDropped(h, ws) {
      forall id ensures !Slips(h, ws, rec, id) {
        assert RobotAt(h, id) == Some(ws) ==> h.robots[id] == rec;
      }
    } else {
      var id :| RobotAt(h, id) == Some(ws) && h.robots[id] != rec;
      assert Slips(h, ws, rec, id);
    }
  }

  lemma DropsOne(w: World, ws: Socket, rec: RecId, id: string)
    requires rec < |w.hub.records|
    ensures RobotAt(DropFrom(w, ws, rec).hub.SetPc(ws, Done), id) == Some(ws) <==> Slips(w.hub, ws, rec, id)
    ensures RobotAt(w.hub, id) == Some(ws) ==> id in w.hub.robots
  {
  }

  lemma NoneNamed(w: World, ws: Socket, id: string)
    requires Inv(w.hub) && !w.hub.At(ws, Done) && OnBeginDrop(w, ws, None).hub.At(ws, Done)
    ensures RobotAt(w.hub, id) != Some(ws) && RobotAt(OnBeginDrop(w, ws, None).hub, id) != Some(ws)
  {
    hide Inv, Hub.HeldChoice;
    if ws in w.hub.wsUser {
      UsersAreOperators(w.hub, ws);
      OperatorIsNoRobot(w.hub, ws, id);
    }
  }

  lemma UsersAreOperators(h: Hub, ws: Socket)
    requires Inv(h) && ws in h.wsUser
    ensures SideIs(h, ws, OperatorSide)
  {
  }

  lemma OperatorReleased(w: World, ws: Socket, id: string)
    requires Inv(w.hub) && ws in w.hub.pcs && w.hub.pcs[ws].ReleaseWait?
    ensures RobotAt(w.hub, id) != Some(ws) && RobotAt(OnReleaseLocked(w, ws).hub, id) != Some(ws)
  {
    hide Inv, ReleaseFrom;
    SideOf(w.hub, ws);
    OperatorIsNoRobot(w.hub, ws, id);
    if w.hub.Lockable(w.hub.pcs[ws].rec) {
      ReleasedRobots(w, ws, w.hub.pcs[ws].rec, id);
    }
  }

  // ---------- And for good ----------

  lemma NoNewName(h: Hub, t: Hub, ws: Socket)
    requires NoNewRobots(h, t) && Nameless(h, ws)
    ensures Nameless(t, ws)
  {
    forall id ensures RobotAt(t, id) != Some(ws) {
      assert RobotAt(h, id) != Some(ws);
    }
  }

  lemma OwnName(h: Hub, t: Hub, own: Socket, ws: Socket)
    requires OnlyOwn(h, t, own) && own != ws && Nameless(h, ws)
    ensures Nameless(t, ws)
  {
    forall id ensures RobotAt(t, id) != Some(ws) {
      assert RobotAt(h, id) != Some(ws);
    }
  }

  /** A returned handler's socket is never named again. */
  lemma StaysNameless(w: World, e: Event, ws: Socket)
    requires w.hub.At(ws, Done) && Nameless(w.hub, ws)
    ensures Nameless(Step(w, e).hub, ws)
  {
    hide Nameless, Step, SameDone, SameLogins;
    if ByRest(e) {
      OthersFramed(w, e);
    } else if ByRobot(e) {
      RobotsFramed(w, e);
      if !Framed(w.hub, Step(w, e).hub) {
        OwnName(w.hub, Step(w, e).hub, e.ws, ws);
      }
    } else if ByOperator(e) {
      OperatorsFramed(w, e);
    } else {
      EndsNoNew(w, e);
    }
    if !(ByRobot(e) && !Framed(w.hub, Step(w, e).hub)) {
      NoNewName(w.hub, Step(w, e).hub, ws);
    }
  }

  lemma EndsNoNew(w: World, e: Event)
    requires e.BeginDrop? || e.DropLocked? || e.Disconnect?
    ensures NoNewRobots(w.hub, Step(w, e).hub)
  {
    hide OnDropLocked, OnBeginDrop, OnDisconnect, NoNewRobots;
    match e
    case DropLocked(s) => DropLockedFramed(w, s);
    case BeginDrop(s, choice) => BeginDropFramed(w, s, choice);
    case Disconnect(username, choice) => var s := DisconnectFramed(w, username, choice);
  }

  lemma {:induction false} NamelessFrom(w: World, es: seq<Event>, n: nat, m: nat, ws: Socket)
    requires Initial(w) && n <= m <= |es|
    requires Run(w, es[..n]).hub.At(ws, Done) && Nameless(Run(w, es[..n]).hub, ws)
    ensures Run(w, es[..m]).hub.At(ws, Done) && Nameless(Run(w, es[..m]).hub, ws)
  {
    if n < m {
      hide Step, Inv, Nameless, Run, Initial;
      NamelessFrom(w, es, n, m - 1, ws);
      RunTurn(w, es, m - 1);
      RunInv(w, es[..m - 1]);
      Sided(Run(w, es[..m - 1]).hub, ws);
      DoneIsFramed(Run(w, es[..m - 1]), es[m - 1], ws);
      StaysNameless(Run(w, es[..m - 1]), es[m - 1], ws);
    }
  }

  lemma Sided(h: Hub, ws: Socket)
    requires Inv(h) && ws in h.pcs
    ensures ws in h.sides
  {
    SideOf(h, ws);
  }

  /**
    Over every run, and whatever a connection registered: from the step on which a handler
    returns, no registered record ever names its socket, exactly when before that step only the
    record it was about to drop did.
   */
  lemma GoneExactlyWhen(w: World, es: seq<Event>, n: nat, ws: Socket)
    requires Initial(w) && n < |es|
    requires !Run(w, es[..n]).hub.At(ws, Done) && Run(w, es[..n + 1]).hub.At(ws, Done)
    ensures (forall m: nat :: n < m <= |es| ==> Nameless(Run(w, es[..m]).hub, ws)) <==> OnlyDropped(Run(w, es[..n]).hub, ws)
  {
    hide Step, Inv, Nameless, OnlyDropped, Run;
    RunInv(w, es[..n]);
    RunTurn(w, es, n);
    ReturnLeavesNone(Run(w, es[..n]), es[n], ws);
    if OnlyDropped(Run(w, es[..n]).hub, ws) {
      forall m: nat | n < m <= |es| ensures Nameless(Run(w, es[..m]).hub, ws) {
        NamelessFrom(w, es, n + 1, m, ws);
      }
    }
  }

  // ---------- A run that leaves one ----------

  lemma FewPending(h: Hub)
    ensures h.PendingCount() <= |h.robots|
  {
    var pending := set id | id in h.robots && h.robots[id] < |h.records| && !h.records[h.robots[id]].approved;
    SubsetSize(pending, h.robots.Keys);
  }

  lemma SubsetSize(a: set<string>, b: set<string>)
    requires a <= b
    ensures |a| <= |b|
  {
    if a != {} {
      var x :| x in a;
      SubsetSize(a - {x}, b - {x});
    }
  }

  predicate OnlyRobot(r: Record, id: string) {
    r.id == id && r.robot == Some(1) && r.operator == None
  }

  /** The connection has registered no robot, one, or two. */
  predicate HoldsNone(h: Hub) {
    h.At(1, RobotIdle(None)) && h.records == [] && h.robots == map[] && h.locks == map[] && h.wsUser == map[]
  }

  predicate HoldsOne(h: Hub, a: string) {
    && h.At(1, RobotIdle(Some(0))) && |h.records| == 1 && h.robots == map[a := 0] && h.locks == map[] && h.wsUser == map[]
    && OnlyRobot(h.records[0], a)
  }

  predicate HoldsTwo(h: Hub, a: string, b: string) {
    && h.At(1, RobotIdle(Some(1))) && |h.records| == 2 && h.robots == map[a := 0, b := 1] && h.locks == map[] && h.wsUser == map[]
    && OnlyRobot(h.records[0], a) && OnlyRobot(h.records[1], b)
  }

  lemma RegisterFirst(w: World, a: string)
    requires HoldsNone(w.hub)
    ensures HoldsOne(Step(Step(w, RegisterFrame(1, a)), Hashed(1, 0)).hub, a)
  {
    hide Hub.PendingCount;
    FewPending(w.hub);
    var hashing := Step(w, RegisterFrame(1, a));
    assert hashing.hub == w.hub.SetPc(1, Hashing(a, None));
    FewPending(hashing.hub);
  }

  lemma RegisterSecond(w: World, a: string, b: string)
    requires HoldsOne(w.hub, a) && a != b
    ensures HoldsTwo(Step(Step(w, RegisterFrame(1, b)), Hashed(1, 0)).hub, a, b)
  {
    hide Hub.PendingCount;
    FewPending(w.hub);
    assert |w.hub.robots| == 1;
    assert b !in w.hub.robots && a in w.hub.robots;
    var hashing := Step(w, RegisterFrame(1, b));
    assert hashing.hub == w.hub.SetPc(1, Hashing(b, Some(0)));
    FewPending(hashing.hub);
    var t := OnHashed(hashing, 1, 0).hub;
    assert t.robots == map[a := 0][b := 1] == map[a := 0, b := 1];
  }

  lemma BeginsDrop(w: World, a: string, b: string)
    requires HoldsTwo(w.hub, a, b) && a != b
    ensures var closing := w.To(w.hub.SetPc(1, Closing));
            && Step(w, Event.Leave(1)) == closing
            && Step(closing, BeginDrop(1, Some(a))) == closing.To(closing.hub.SetPc(1, DropWait(0)))
  {
    var closing := w.To(w.hub.SetPc(1, Closing));
    assert a in closing.hub.robots && closing.hub.robots[a] == 0;
    assert closing.hub.NamedChoice(1, Some(a));
  }

  lemma EndsDrop(w: World, a: string, b: string)
    requires HoldsTwo(w.hub, a, b) && a != b
    ensures var dropping := w.To(w.hub.SetPc(1, Closing).SetPc(1, DropWait(0)));
            var t := Step(dropping, DropLocked(1));
            t.hub.At(1, Done) && RobotAt(t.hub, b) == Some(1)
  {
    hide Record.Dropped;
    assert b in w.hub.robots && w.hub.robots[b] == 1;
  }

  lemma Begin() returns (es: seq<Event>)
    ensures HoldsNone(Run(EmptyWorld(), es).hub) && Initial(EmptyWorld())
  {
    es := Then(EmptyWorld(), [], Connect(1, RobotSide));
  }

  /**
    A connection that registered two robots leaves the second one naming its socket for good: the
    drop stops at the first record it finds.
   */
  lemma TwoRobotsOneConnection() returns (es: seq<Event>)
    ensures Initial(EmptyWorld()) && Run(EmptyWorld(), es).hub.At(1, Done) && RobotAt(Run(EmptyWorld(), es).hub, "B") == Some(1)
  {
    var w := EmptyWorld();
    hide Step, Run, Initial, HoldsNone, HoldsOne, HoldsTwo, EmptyWorld, RobotAt;
    es := Begin();
    RegisterFirst(Run(w, es), "A");
    es := Then(w, es, RegisterFrame(1, "A"));
    es := Then(w, es, Hashed(1, 0));
    RegisterSecond(Run(w, es), "A", "B");
    es := Then(w, es, RegisterFrame(1, "B"));
    es := Then(w, es, Hashed(1, 0));
    BeginsDrop(Run(w, es), "A", "B");
    EndsDrop(Run(w, es), "A", "B");
    es := Then(w, es, Event.Leave(1));
    es := Then(w, es, BeginDrop(1, Some("A")));
    es := Then(w, es, DropLocked(1));
  }
}
