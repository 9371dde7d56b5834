/**
  What holds in every state of every interleaving: pairing, one hold per operator socket, locks
  that pin a relayed pair, and handlers that leave no record naming their socket.
 */
module RegistrySafety {
  import opened Wrappers
  import opened RegistryRecord
  import opened RegistrySteps
  import opened RegistryInvariant

  // ---------- Robots ----------

  lemma RobotIsPlain(h: Hub, ws: Socket, id: string, stored: int, session: Option<RecId>)
    requires SideIs(h, ws, RobotSide)
    ensures Plain(h, ws, Hashing(id, session)) && Plain(h, ws, Matching(id, stored, session))
    ensures Plain(h, ws, RobotIdle(session)) && Plain(h, ws, Closing)
  {
  }

  lemma RegisterKeeps(w: World, ws: Socket, id: string)
    requires Inv(w.hub)
    ensures Inv(OnRegister(w, ws, id).hub)
  {
    if ws in w.hub.pcs && w.hub.pcs[ws].RobotIdle? {
      hide Inv, Still, Hub.PendingCount, Plain;
      var session := w.hub.pcs[ws].session;
      SideOf(w.hub, ws);
      RobotIsPlain(w.hub, ws, id, 0, session);
      if session.Some? && !Still(w.hub, ws, session.value) {
        MoveKeeps(w.hub, ws, Closing);
      } else if id !in w.hub.robots {
        MoveKeeps(w.hub, ws, Hashing(id, session));
      } else {
        GetRobot(w.hub, id);
        var stored := w.hub.records[w.hub.robots[id]].secret;
        RobotIsPlain(w.hub, ws, id, stored, session);
        MoveKeeps(w.hub, ws, Matching(id, stored, session));
      }
    }
  }

  lemma HashedKeeps(w: World, ws: Socket, digest: int)
    requires Inv(w.hub)
    ensures Inv(OnHashed(w, ws, digest).hub)
  {
    if ws in w.hub.pcs && w.hub.pcs[ws].Hashing? {
      hide Inv, Hub.PendingCount, Insert, Plain;
      var Hashing(id, session) := w.hub.pcs[ws];
      SideOf(w.hub, ws);
      if id !in w.hub.robots {
        InsertKeeps(w, ws, id, digest);
        RobotIsPlain(w.hub, ws, id, 0, session);
        MoveKeeps(w.hub, ws, RobotIdle(session));
      } else {
        GetRobot(w.hub, id);
        var stored := w.hub.records[w.hub.robots[id]].secret;
        RobotIsPlain(w.hub, ws, id, stored, session);
        MoveKeeps(w.hub, ws, Matching(id, stored, session));
      }
    }
  }

  lemma MatchedKeeps(w: World, ws: Socket, ok: bool)
    requires Inv(w.hub)
    ensures Inv(OnMatched(w, ws, ok).hub)
  {
    if ws in w.hub.pcs && w.hub.pcs[ws].Matching? {
      hide Inv;
      SideOf(w.hub, ws);
      MoveKeeps(w.hub, ws, OnMatched(w, ws, ok).hub.pcs[ws]);
    }
  }

  lemma TakeKeeps(w: World, ws: Socket)
    requires Inv(w.hub)
    ensures Inv(OnTake(w, ws).hub)
  {
    if ws in w.hub.pcs && w.hub.pcs[ws].TakeWait? && w.hub.Lockable(w.hub.pcs[ws].rec) {
      hide Inv;
      var TakeWait(rec, session, stamp) := w.hub.pcs[ws];
      SideOf(w.hub, ws);
      GetRecord(w.hub, rec);
      var r := w.hub.records[rec].Taken(ws, stamp);
      PlainIsOk(w.hub.SetRecord(rec, r), ws, TakeCheck(rec, session));
      BothKeep(w.hub, rec, r, ws, TakeCheck(rec, session));
    }
  }

  lemma TakeAgainKeeps(w: World, ws: Socket)
    requires Inv(w.hub)
    ensures Inv(OnTakeAgain(w, ws).hub)
  {
    if ws in w.hub.pcs && w.hub.pcs[ws].TakeCheck? && w.hub.Lockable(w.hub.pcs[ws].rec) {
      hide Inv;
      SideOf(w.hub, ws);
      MoveKeeps(w.hub, ws, OnTakeAgain(w, ws).hub.pcs[ws]);
    }
  }

  lemma PresenceKeeps(w: World, ws: Socket, phase: Phase)
    requires Inv(w.hub)
    ensures Inv(OnPresence(w, ws, phase).hub)
  {
    if ws in w.hub.pcs && w.hub.pcs[ws].RobotIdle? && w.hub.pcs[ws].session.Some? {
      hide Inv;
      var rec := w.hub.pcs[ws].session.value;
      SideOf(w.hub, ws);
      if !Still(w.hub, ws, rec) {
        MoveKeeps(w.hub, ws, Closing);
      } else {
        GetRecord(w.hub, rec);
        PresenceIsFresh(w.hub.records[rec], phase, w.utc);
        SetRecordKeeps(w.hub, rec, w.hub.records[rec].Presence(phase, w.utc));
      }
    }
  }

  // ---------- Relays ----------

  lemma RelayFrameKeeps(w: World, ws: Socket, kind: Kind, choice: Option<string>)
    requires Inv(w.hub)
    ensures Inv(OnRelayFrame(w, ws, kind, choice).hub)
  {
    hide Inv, Hub.HeldChoice, Plain;
    if ws in w.hub.pcs && w.hub.pcs[ws].RobotIdle? && w.hub.pcs[ws].session.Some? {
      var rec := w.hub.pcs[ws].session.value;
      SideOf(w.hub, ws);
      IdleIsPlain(w.hub, ws, RobotSide, rec);
      MoveKeeps(w.hub, ws, Closing);
      if Still(w.hub, ws, rec) && kind.AllowedFrom(RobotSide) {
        ForwardIsPlain(w.hub, ws, RobotSide, rec, kind);
        MoveKeeps(w.hub, ws, ForwardWait(rec, RobotSide, kind));
      }
    } else if w.hub.At(ws, OperatorIdle) && w.hub.HeldChoice(ws, choice) && choice.Some? && kind.AllowedFrom(OperatorSide) {
      SideOf(w.hub, ws);
      ChosenRecord(w.hub, ws, choice);
      var rec := w.hub.robots[choice.value];
      ForwardIsPlain(w.hub, ws, OperatorSide, rec, kind);
      MoveKeeps(w.hub, ws, ForwardWait(rec, OperatorSide, kind));
    }
  }

  lemma ForwardIsPlain(h: Hub, ws: Socket, side: Side, rec: RecId, kind: Kind)
    requires SideIs(h, ws, side) && rec < |h.records| && kind.AllowedFrom(side)
    ensures Plain(h, ws, ForwardWait(rec, side, kind))
  {
  }

  lemma ChosenRecord(h: Hub, ws: Socket, choice: Option<string>)
    requires h.HeldChoice(ws, choice) && choice.Some?
    ensures choice.value in h.robots && h.robots[choice.value] < |h.records|
    ensures Holder(h, choice.value) == Some(ws)
  {
  }

  /** Taking the lock for a relay pins the pair. */
  lemma StartRelayKeeps(h: Hub, rec: RecId, ws: Socket, side: Side, peer: Socket, kind: Kind)
    requires Inv(h) && rec < |h.records| && rec !in h.locks && ws in h.pcs && h.pcs[ws] == ForwardWait(rec, side, kind)
    requires if side == RobotSide then h.records[rec].robot == Some(ws) && h.records[rec].operator == Some(peer)
             else h.records[rec].operator == Some(ws) && h.records[rec].robot == Some(peer)
    ensures Inv(h.(locks := h.locks[rec := ws]).SetPc(ws, Relaying(rec, side, peer, kind)))
  {
    hide PcOk, RecordOk;
    SideOf(h, ws);
    var t := h.(locks := h.locks[rec := ws]).SetPc(ws, Relaying(rec, side, peer, kind));
    RelayingIsOk(t, ws);
    OthersStayOk(h, t, ws);
    assert Unique(t) by { SameHolders(h, t); }
    assert RecordsOk(t) by { SameRecords(h, t); }
    hide PcsOk, Unique, RecordsOk;
    forall k | k in t.locks ensures LockOk(t, k, t.locks[k]) {
      if k != rec {
        assert LockOk(h, k, h.locks[k]);
      }
    }
  }

  lemma RelayingIsOk(h: Hub, ws: Socket)
    requires ws in h.pcs && h.pcs[ws].Relaying? && SideIs(h, ws, h.pcs[ws].side) && h.pcs[ws].rec < |h.records|
    requires h.pcs[ws].kind.AllowedFrom(h.pcs[ws].side)
    ensures PcOk(h, ws, h.pcs[ws])
  {
  }

  /** The relay ends: the lock is free. */
  lemma EndRelayKeeps(h: Hub, ws: Socket, pc: Pc)
    requires Inv(h) && ws in h.pcs && h.pcs[ws].Relaying? && Plain(h, ws, pc)
    ensures Inv(h.(locks := h.locks - {h.pcs[ws].rec}).SetPc(ws, pc))
    ensures h.pcs[ws].rec in h.locks
  {
    hide PcOk, RecordOk;
    var t := h.(locks := h.locks - {h.pcs[ws].rec}).SetPc(ws, pc);
    assert PcOk(t, ws, pc) by {
      PlainIsOk(h, ws, pc);
      PcFrame(h, t, ws, pc);
    }
    OthersStayOk(h, t, ws);
    assert Unique(t) by { SameHolders(h, t); }
    assert RecordsOk(t) by { SameRecords(h, t); }
    hide PcsOk, Unique, RecordsOk;
    forall k | k in t.locks ensures LockOk(t, k, t.locks[k]) {
      assert LockOk(h, k, h.locks[k]);
    }
  }

  lemma ForwardKeeps(w: World, ws: Socket)
    requires Inv(w.hub)
    ensures Inv(OnForward(w, ws).hub)
  {
    if ws in w.hub.pcs && w.hub.pcs[ws].ForwardWait? && w.hub.Lockable(w.hub.pcs[ws].rec) {
      hide Inv, Plain, RecordOk;
      var ForwardWait(rec, side, kind) := w.hub.pcs[ws];
      var r := w.hub.records[rec];
      SideOf(w.hub, ws);
      var own := if side == RobotSide then r.robot else r.operator;
      var peer := if side == RobotSide then r.operator else r.robot;
      if own != Some(ws) || peer == None {
        IdleIsPlain(w.hub, ws, side, rec);
        MoveKeeps(w.hub, ws, IdlePc(side, rec));
      } else {
        var marked := if side == OperatorSide && kind.StartFrame? then r.(startInProgress := true) else r;
        MarkedIsOk(w.hub, rec, side, kind);
        SetRecordKeeps(w.hub, rec, marked);
        StartRelayKeeps(w.hub.SetRecord(rec, marked), rec, ws, side, peer.value, kind);
      }
    }
  }

  lemma MarkedIsOk(h: Hub, rec: RecId, side: Side, kind: Kind)
    requires Inv(h) && rec < |h.records|
    ensures RecordOk(h, h.records[rec])
    ensures h.records[rec].operator.Some? ==> RecordOk(h, h.records[rec].(startInProgress := true))
  {
    GetRecord(h, rec);
  }

  lemma RelayEndsKeeps(w: World, ws: Socket, delivered: bool)
    requires Inv(w.hub)
    ensures Inv(OnRelayEnds(w, ws, delivered).hub)
  {
    if ws in w.hub.pcs && w.hub.pcs[ws].Relaying? {
      hide Inv, Plain, Record.ApplyStatus;
      var Relaying(rec, side, peer, kind) := w.hub.pcs[ws];
      SideOf(w.hub, ws);
      var pc := if delivered then IdlePc(side, rec) else Closing;
      assert Plain(w.hub, ws, pc) by { IdleIsPlain(w.hub, ws, side, rec); }
      EndRelayKeeps(w.hub, ws, pc);
      var unlocked := w.hub.(locks := w.hub.locks - {rec}).SetPc(ws, pc);
      if delivered && side == RobotSide && kind.Status? && kind.phase.Some? && w.hub.records[rec].robot == Some(ws) {
        GetRecord(unlocked, rec);
        StatusIsOk(unlocked, w.hub.records[rec], kind.phase.value);
        SetRecordKeeps(unlocked, rec, w.hub.records[rec].ApplyStatus(kind.phase.value));
      }
    }
  }

  lemma IdleIsPlain(h: Hub, ws: Socket, side: Side, rec: RecId)
    requires SideIs(h, ws, side)
    ensures Plain(h, ws, IdlePc(side, rec)) && Plain(h, ws, Closing)
  {
  }

  lemma StatusIsOk(h: Hub, r: Record, phase: Phase)
    requires RecordOk(h, r)
    ensures RecordOk(h, r.ApplyStatus(phase)) && r.ApplyStatus(phase).id == r.id
    ensures r.ApplyStatus(phase).operator == r.operator && r.ApplyStatus(phase).robot == r.robot
  {
  }

  // ---------- Operators ----------

  lemma LoginKeeps(w: World, ws: Socket, username: string, ok: bool)
    requires Inv(w.hub)
    ensures Inv(OnLogin(w, ws, username).hub) && Inv(OnLoginMatched(w, ws, ok).hub)
  {
    if ws in w.hub.pcs {
      hide Inv;
      SideOf(w.hub, ws);
      if w.hub.At(ws, OperatorIdle) && ws !in w.hub.wsUser {
        MoveKeeps(w.hub, ws, LoginWait(username));
      } else if w.hub.pcs[ws].LoginWait? {
        MoveKeeps(w.hub, ws, if ok then LoginReply(w.hub.pcs[ws].username) else OperatorIdle);
      }
    }
  }

  lemma LoginCommitKeeps(w: World, ws: Socket)
    requires Inv(w.hub)
    ensures Inv(OnLoginCommit(w, ws).hub)
  {
    if ws in w.hub.pcs && w.hub.pcs[ws].LoginReply? {
      hide Inv, Plain;
      var user := w.hub.pcs[ws].username;
      SideOf(w.hub, ws);
      IdleIsPlain(w.hub, ws, OperatorSide, 0);
      MoveKeeps(w.hub, ws, OperatorIdle);
      var moved := w.hub.SetPc(ws, OperatorIdle);
      NewLoginKeepsUsers(moved, ws, user);
      AccountsKeep(moved, moved.(operatorWs := w.hub.operatorWs[user := ws], wsUser := w.hub.wsUser[ws := user]));
    }
  }

  lemma NewLoginKeepsUsers(h: Hub, ws: Socket, user: string)
    requires Inv(h) && ws !in h.wsUser && SideIs(h, ws, OperatorSide)
    ensures UsersOk(h.(operatorWs := h.operatorWs[user := ws], wsUser := h.wsUser[ws := user]))
  {
  }

  lemma ApproveKeeps(w: World, ws: Socket, id: string)
    requires Inv(w.hub)
    ensures Inv(OnApprove(w, ws, id).hub)
  {
    if w.hub.At(ws, OperatorIdle) && id in w.hub.robots && w.hub.robots[id] < |w.hub.records| {
      hide Inv;
      GetRecord(w.hub, w.hub.robots[id]);
      SetRecordKeeps(w.hub, w.hub.robots[id], w.hub.records[w.hub.robots[id]].(approved := true));
    }
  }

  lemma AttachFrameKeeps(w: World, ws: Socket, id: string, choice: Option<string>)
    requires Inv(w.hub)
    ensures Inv(OnAttach(w, ws, id, choice).hub)
  {
    if w.hub.At(ws, OperatorIdle) && id in w.hub.robots && w.hub.robots[id] < |w.hub.records| {
      hide Inv, Record.AttachCode, Hub.HeldChoice;
      SideOf(w.hub, ws);
      if ws in w.hub.wsUser {
        MoveKeeps(w.hub, ws, AttachWait(w.hub.robots[id], w.hub.wsUser[ws]));
      }
    }
  }

  lemma ReleaseFramesKeep(w: World, ws: Socket, choice: Option<string>)
    requires Inv(w.hub)
    ensures Inv(OnRelease(w, ws, choice).hub) && Inv(OnSignOut(w, ws, choice).hub)
  {
    if w.hub.At(ws, OperatorIdle) && ws in w.hub.wsUser && w.hub.HeldChoice(ws, choice) {
      hide Inv, Hub.HeldChoice, Plain;
      SideOf(w.hub, ws);
      var user := Some(w.hub.wsUser[ws]);
      if choice == None {
        SigningOutIsPlain(w.hub, ws, 0, user);
        MoveKeeps(w.hub, ws, SignOutReply(user));
      } else {
        ChosenRecord(w.hub, ws, choice);
        var rec := w.hub.robots[choice.value];
        SigningOutIsPlain(w.hub, ws, rec, user);
        MoveKeeps(w.hub, ws, ReleaseWait(rec, BackToIdle));
        MoveKeeps(w.hub, ws, ReleaseWait(rec, ToSignOut(user)));
      }
    }
  }

  lemma SigningOutIsPlain(h: Hub, ws: Socket, rec: RecId, user: Option<string>)
    requires SideIs(h, ws, OperatorSide) && ws in h.wsUser && user == Some(h.wsUser[ws])
    ensures Plain(h, ws, SignOutReply(user))
    ensures rec < |h.records| ==> Plain(h, ws, ReleaseWait(rec, BackToIdle)) && Plain(h, ws, ReleaseWait(rec, ToSignOut(user)))
  {
  }

  /** The hold is taken where the check that the socket holds nothing is made. */
  lemma HoldKeeps(h: Hub, rec: RecId, ws: Socket, name: Option<string>, utc: real)
    requires Inv(h) && rec < |h.records| && rec !in h.locks && ws in h.pcs && h.pcs[ws] == OperatorIdle
    requires forall id :: Holder(h, id) != Some(ws)
    requires h.records[rec].AttachCode(ws, false, utc) == Attached
    ensures Inv(h.SetRecord(rec, h.records[rec].Hold(ws, name)))
  {
    hide PcOk, RecordOk;
    SideOf(h, ws);
    var r := h.records[rec].Hold(ws, name);
    var t := h.SetRecord(rec, r);
    HoldIsOk(h, rec, ws, name, utc);
    forall s | s in t.pcs ensures PcOk(t, s, t.pcs[s]) {
      assert PcOk(h, s, h.pcs[s]);
      if s == ws {
        PlainIsOk(t, ws, OperatorIdle);
      } else {
        OthersUnnamed(h, rec, r, ws, s, t.pcs[s]);
      }
    }
    forall k | 0 <= k < |t.records| ensures RecordOk(t, t.records[k]) {
      RecordFrame(h, t, if k == rec then r else h.records[k]);
    }
    forall k | k in t.locks ensures LockOk(t, k, t.locks[k]) {
      assert LockOk(h, k, h.locks[k]);
    }
    assert Unique(t) by { NewHolder(h, rec, r, ws); }
  }

  lemma HoldIsOk(h: Hub, rec: RecId, ws: Socket, name: Option<string>, utc: real)
    requires Inv(h) && rec < |h.records| && SideIs(h, ws, OperatorSide) && h.records[rec].AttachCode(ws, false, utc) == Attached
    ensures RecordOk(h, h.records[rec].Hold(ws, name))
  {
    GetRecord(h, rec);
  }

  lemma OthersUnnamed(h: Hub, rec: RecId, r: Record, ws: Socket, s: Socket, pc: Pc)
    requires rec < |h.records| && r.operator == Some(ws) && RobotsOk(h) && PcOk(h, s, pc) && s != ws
    ensures PcOk(h.SetRecord(rec, r), s, pc)
  {
  }

  lemma NewHolder(h: Hub, rec: RecId, r: Record, ws: Socket)
    requires RobotsOk(h) && Unique(h) && rec < |h.records| && r.operator == Some(ws) && r.id == h.records[rec].id
    requires forall id :: Holder(h, id) != Some(ws)
    ensures Unique(h.SetRecord(rec, r))
  {
    var t := h.SetRecord(rec, r);
    forall a, b | Holder(t, a).Some? && Holder(t, a) == Holder(t, b) ensures a == b {
      assert if h.robots[a] == rec then a == h.records[rec].id else Holder(h, a) == Holder(t, a);
      assert if h.robots[b] == rec then b == h.records[rec].id else Holder(h, b) == Holder(t, b);
    }
  }

  lemma AttachLockedKeeps(w: World, ws: Socket, choice: Option<string>)
    requires Inv(w.hub)
    ensures Inv(OnAttachLocked(w, ws, choice).hub)
  {
    if ws in w.hub.pcs && w.hub.pcs[ws].AttachWait? && w.hub.Lockable(w.hub.pcs[ws].rec) && w.hub.HeldChoice(ws, choice) {
      hide Inv, Record.AttachCode, Plain;
      var rec := w.hub.pcs[ws].rec;
      SideOf(w.hub, ws);
      IdleIsPlain(w.hub, ws, OperatorSide, 0);
      MoveKeeps(w.hub, ws, OperatorIdle);
      var idle := w.hub.SetPc(ws, OperatorIdle);
      if w.hub.records[rec].AttachCode(ws, choice.Some?, w.utc) == Attached {
        NotHeld(w.hub, rec, ws, choice, w.utc);
        HoldKeeps(idle, rec, ws, Some(w.hub.pcs[ws].username), w.utc);
      }
    }
  }

  lemma NotHeld(h: Hub, rec: RecId, ws: Socket, choice: Option<string>, utc: real)
    requires h.HeldChoice(ws, choice) && rec < |h.records| && h.records[rec].AttachCode(ws, choice.Some?, utc) == Attached
    ensures choice == None && forall id :: Holder(h, id) != Some(ws)
  {
  }

  lemma ReleasedIsOk(h: Hub, r: Record, ws: Socket, utc: real)
    requires RecordOk(h, r)
    ensures RecordOk(h, r.Released(utc)) && RecordOk(h, r.Dropped(ws, utc)) && RecordOk(h, r.Forgotten()) && RecordOk(h, r.StaleStopped())
  {
    StretchesKeepPaired(r, ws, utc, 0.0, Idle);
  }

  lemma ReleaseLockedKeeps(w: World, ws: Socket)
    requires Inv(w.hub)
    ensures Inv(OnReleaseLocked(w, ws).hub)
  {
    if ws in w.hub.pcs && w.hub.pcs[ws].ReleaseWait? && w.hub.Lockable(w.hub.pcs[ws].rec) {
      hide Inv, PcOk;
      var ReleaseWait(rec, next) := w.hub.pcs[ws];
      SideOf(w.hub, ws);
      ReleaseFromKeeps(w, ws, rec);
      var h := ReleaseFrom(w, ws, rec).hub;
      assert PcOk(h, ws, NextPc(next)) by { NextIsOk(w, ws); }
      SetPcKeeps(h, ws, NextPc(next));
    }
  }

  lemma ReleaseFromKeeps(w: World, ws: Socket, rec: RecId)
    requires Inv(w.hub) && w.hub.Lockable(rec)
    ensures Inv(ReleaseFrom(w, ws, rec).hub)
  {
    hide Inv;
    GetRecord(w.hub, rec);
    ReleasedIsOk(w.hub, w.hub.records[rec], ws, w.utc);
    if w.hub.records[rec].operator == Some(ws) {
      SetRecordKeeps(w.hub, rec, w.hub.records[rec].Released(w.utc));
    }
  }

  lemma NextIsOk(w: World, ws: Socket)
    requires Inv(w.hub) && ws in w.hub.pcs && w.hub.pcs[ws].ReleaseWait? && w.hub.Lockable(w.hub.pcs[ws].rec)
    ensures PcOk(ReleaseFrom(w, ws, w.hub.pcs[ws].rec).hub, ws, NextPc(w.hub.pcs[ws].next))
  {
    assert PcOk(w.hub, ws, w.hub.pcs[ws]);
  }

  lemma SignOutEndsKeeps(w: World, ws: Socket)
    requires Inv(w.hub)
    ensures Inv(OnSignOutEnds(w, ws).hub)
  {
    if ws in w.hub.pcs && w.hub.pcs[ws].SignOutReply? {
      hide Inv, Plain;
      SideOf(w.hub, ws);
      IdleIsPlain(w.hub, ws, OperatorSide, 0);
      MoveKeeps(w.hub, ws, OperatorIdle);
      var moved := w.hub.SetPc(ws, OperatorIdle);
      SignOutKeepsUsers(w, ws);
      AccountsKeep(moved, OnSignOutEnds(w, ws).hub);
    }
  }

  lemma SignOutKeepsUsers(w: World, ws: Socket)
    requires Inv(w.hub) && ws in w.hub.pcs && w.hub.pcs[ws].SignOutReply? && UserOk(w.hub, ws, w.hub.pcs[ws])
    ensures UsersOk(OnSignOutEnds(w, ws).hub)
  {
  }

  // ---------- The end of a handler ----------

  lemma LeaveKeeps(w: World, ws: Socket)
    requires Inv(w.hub)
    ensures Inv(OnLeave(w, ws).hub)
  {
    if ws in w.hub.pcs && !w.hub.pcs[ws].Relaying? {
      hide Inv;
      SideOf(w.hub, ws);
      MoveKeeps(w.hub, ws, Closing);
    }
  }

  lemma BeginDropKeeps(w: World, ws: Socket, choice: Option<string>)
    requires Inv(w.hub)
    ensures Inv(OnBeginDrop(w, ws, choice).hub)
  {
    if w.hub.At(ws, Closing) {
      hide Inv, PcOk, Hub.HeldChoice, Hub.NamedChoice, Hub.Logout;
      SideOf(w.hub, ws);
      if ws in w.hub.wsUser {
        LogoutKeeps(w.hub, ws);
        var out := w.hub.Logout(ws);
        if out.HeldChoice(ws, choice) {
          HeldIsOk(out, ws, choice);
          SetPcKeeps(out, ws, if choice == None then Done else ReleaseWait(out.robots[choice.value], ToDone));
        }
      } else if w.hub.NamedChoice(ws, choice) {
        NamedIsOk(w.hub, ws, choice);
        SetPcKeeps(w.hub, ws, if choice == None then Done else DropWait(w.hub.robots[choice.value]));
      }
    }
  }

  lemma LogoutKeeps(h: Hub, ws: Socket)
    requires Inv(h)
    ensures Inv(h.Logout(ws)) && h.Logout(ws).pcs == h.pcs && (ws in h.wsUser ==> SideIs(h.Logout(ws), ws, OperatorSide))
    ensures h.Logout(ws).maintain == h.maintain
  {
    LogoutKeepsUsers(h, ws);
    AccountsKeep(h, h.Logout(ws));
  }

  /** The holding record, or none: by uniqueness no other record names the socket. */
  lemma HeldIsOk(h: Hub, ws: Socket, choice: Option<string>)
    requires Inv(h) && h.HeldChoice(ws, choice) && SideIs(h, ws, OperatorSide) && ws !in h.wsUser
    ensures choice.Some? ==> choice.value in h.robots && h.robots[choice.value] < |h.records|
    ensures PcOk(h, ws, if choice == None then Done else ReleaseWait(h.robots[choice.value], ToDone))
  {
    OnlyOne(h, ws, choice);
  }

  lemma OnlyOne(h: Hub, ws: Socket, choice: Option<string>)
    requires RobotsOk(h) && Unique(h) && h.HeldChoice(ws, choice)
    ensures choice.Some? ==> choice.value in h.robots
    ensures NamedOnlyIn(h, ws, if choice == None then None else Some(h.robots[choice.value]))
  {
    if choice.Some? {
      forall id | Holder(h, id) == Some(ws) ensures id == choice.value {
        assert Holder(h, choice.value) == Some(ws);
      }
    }
  }

  lemma NamedIsOk(h: Hub, ws: Socket, choice: Option<string>)
    requires Inv(h) && h.NamedChoice(ws, choice) && ws in h.sides && ws !in h.wsUser
    ensures choice.Some? ==> choice.value in h.robots && h.robots[choice.value] < |h.records|
    ensures PcOk(h, ws, if choice == None then Done else DropWait(h.robots[choice.value]))
  {
    if choice.Some? && h.sides[ws] == OperatorSide {
      assert RecordOk(h, h.records[h.robots[choice.value]]);
      OnlyOne(h, ws, choice);
    }
  }

  lemma DropFromKeeps(w: World, ws: Socket, rec: RecId)
    requires Inv(w.hub) && w.hub.Lockable(rec)
    ensures Inv(DropFrom(w, ws, rec).hub)
  {
    hide Inv;
    GetRecord(w.hub, rec);
    ReleasedIsOk(w.hub, w.hub.records[rec], ws, w.utc);
    if DropFrom(w, ws, rec) != w {
      SetRecordKeeps(w.hub, rec, w.hub.records[rec].Dropped(ws, w.utc));
    }
  }

  lemma DropLockedKeeps(w: World, ws: Socket)
    requires Inv(w.hub)
    ensures Inv(OnDropLocked(w, ws).hub)
  {
    if ws in w.hub.pcs && w.hub.pcs[ws].DropWait? && w.hub.Lockable(w.hub.pcs[ws].rec) {
      hide Inv, PcOk;
      var rec := w.hub.pcs[ws].rec;
      SideOf(w.hub, ws);
      DropFromKeeps(w, ws, rec);
      var h := DropFrom(w, ws, rec).hub;
      assert PcOk(h, ws, Done) by { DoneIsOk(w, ws); }
      SetPcKeeps(h, ws, Done);
    }
  }

  lemma DoneIsOk(w: World, ws: Socket)
    requires Inv(w.hub) && ws in w.hub.pcs && w.hub.pcs[ws].DropWait? && w.hub.Lockable(w.hub.pcs[ws].rec)
    ensures PcOk(DropFrom(w, ws, w.hub.pcs[ws].rec).hub, ws, Done)
  {
    var rec := w.hub.pcs[ws].rec;
    assert PcOk(w.hub, ws, w.hub.pcs[ws]);
    GetRecord(w.hub, rec);
    var t := DropFrom(w, ws, rec).hub;
    forall id ensures Holder(t, id) != Some(ws) {
      if id in t.robots {
        GetRobot(w.hub, id);
        GetRecord(w.hub, w.hub.robots[id]);
        assert Holder(w.hub, id) == Some(ws) ==> w.hub.robots[id] == rec;
      }
    }
  }

  // ---------- The maintenance task ----------

  lemma DisconnectKeeps(w: World, username: string, choice: Option<string>)
    requires Inv(w.hub)
    ensures Inv(OnDisconnect(w, username, choice).hub)
  {
    if w.hub.maintain == Asleep && username in w.hub.operatorWs {
      hide Inv, Hub.HeldChoice, Hub.NamedChoice, Hub.Logout;
      var ws := w.hub.operatorWs[username];
      LoggedIn(w.hub, username);
      LogoutKeeps(w.hub, ws);
      var out := w.hub.Logout(ws);
      if out.HeldChoice(ws, choice) && choice.Some? {
        ChosenRecord(out, ws, choice);
        SetMaintainKeeps(out, ReleaseFor(ws, out.robots[choice.value]));
      }
    }
  }

  lemma LoggedIn(h: Hub, username: string)
    requires Inv(h) && username in h.operatorWs
    ensures h.operatorWs[username] in h.wsUser
  {
  }

  lemma MaintainEndsKeep(w: World)
    requires Inv(w.hub)
    ensures Inv(OnMaintainRelease(w).hub) && Inv(OnMaintainDrop(w).hub)
  {
    hide Inv, ReleaseFrom, DropFrom;
    if w.hub.maintain.ReleaseFor? && w.hub.Lockable(w.hub.maintain.rec) {
      ReleaseFromKeeps(w, w.hub.maintain.ws, w.hub.maintain.rec);
      SetMaintainKeeps(ReleaseFrom(w, w.hub.maintain.ws, w.hub.maintain.rec).hub, Asleep);
    } else if w.hub.maintain.DropFor? && w.hub.Lockable(w.hub.maintain.rec) {
      DropFromKeeps(w, w.hub.maintain.ws, w.hub.maintain.rec);
      SetMaintainKeeps(DropFrom(w, w.hub.maintain.ws, w.hub.maintain.rec).hub, Asleep);
    }
  }

  lemma ForgetKeeps(h: Hub, id: string)
    requires Inv(h) && id in h.robots && h.robots[id] < |h.records|
    ensures var rec := h.robots[id];
            Inv(h.SetRecord(rec, h.records[rec].Forgotten()).(robots := h.robots - {id}))
  {
    hide PcOk, RecordOk;
    var rec := h.robots[id];
    var t := h.SetRecord(rec, h.records[rec].Forgotten()).(robots := h.robots - {id});
    forall s | s in t.pcs ensures PcOk(t, s, t.pcs[s]) {
      PcFrame(h, t, s, t.pcs[s]);
    }
    assert Unique(t) by { SameHolders(h, t); }
    ReleasedIsOk(h, h.records[rec], 0, 0.0);
    forall k | 0 <= k < |t.records| ensures RecordOk(t, t.records[k]) {
      RecordFrame(h, t, if k == rec then h.records[rec].Forgotten() else h.records[k]);
    }
    forall k | k in t.locks ensures LockOk(t, k, t.locks[k]) {
      assert LockOk(h, k, h.locks[k]);
    }
  }

  lemma SweepKeeps(w: World, id: string)
    requires Inv(w.hub)
    ensures Inv(OnSweep(w, id).hub)
  {
    if w.hub.maintain == Asleep && id in w.hub.robots && id in w.hub.db {
      hide Inv, Record.SweepResult, Record.Swept;
      GetRobot(w.hub, id);
      var rec := w.hub.robots[id];
      var r := w.hub.records[rec];
      GetRecord(w.hub, rec);
      SweptIsOk(w.hub, r, w.utc, w.mono);
      SetRecordKeeps(w.hub, rec, r.Swept(w.utc, w.mono));
      if r.SweepResult(w.utc, w.mono) == Due {
        SetMaintainKeeps(w.hub.SetRecord(rec, r.Swept(w.utc, w.mono)), StopWait(rec, r.robot.value, r.operator.value));
      }
    }
  }

  lemma SweptIsOk(h: Hub, r: Record, utc: real, mono: real)
    requires RecordOk(h, r)
    ensures var s := r.Swept(utc, mono); RecordOk(h, s) && s.id == r.id && s.operator == r.operator && s.robot == r.robot
    ensures r.SweepResult(utc, mono) == Due || r.SweepResult(utc, mono) == Notice ==> r.robot.Some? && r.operator.Some?
  {
    StretchesKeepPaired(r, 0, utc, mono, Idle);
  }

  lemma StaleStopKeeps(w: World)
    requires Inv(w.hub)
    ensures Inv(OnStaleStop(w).hub)
  {
    if w.hub.maintain.StopWait? && w.hub.Lockable(w.hub.maintain.rec) {
      hide Inv;
      var rec := w.hub.maintain.rec;
      SetMaintainKeeps(w.hub, Asleep);
      var awake := w.hub.(maintain := Asleep);
      GetRecord(awake, rec);
      ReleasedIsOk(awake, awake.records[rec], 0, w.utc);
      SetRecordKeeps(awake, rec, awake.records[rec].StaleStopped());
    }
  }

  // ---------- Every interleaving ----------

  predicate ByRobot(e: Event) {
    e.RegisterFrame? || e.Hashed? || e.Matched? || e.Take? || e.TakeAgain? || e.PresenceFrame? || e.RelayFrame? || e.Forward? || e.RelayEnds?
  }

  predicate ByOperator(e: Event) {
    || e.LoginFrame? || e.LoginMatched? || e.LoginCommit? || e.ApproveFrame? || e.AttachFrame? || e.AttachLocked?
    || e.ReleaseFrame? || e.ReleaseLocked? || e.SignOutFrame? || e.SignOutEnds?
  }

  lemma RobotStepKeeps(w: World, e: Event)
    requires Inv(w.hub) && ByRobot(e)
    ensures Inv(Step(w, e).hub)
  {
    hide Inv, OnRegister, OnHashed, OnMatched, OnTake, OnTakeAgain, OnPresence, OnRelayFrame, OnForward, OnRelayEnds;
    match e
    case RegisterFrame(ws, id) => RegisterKeeps(w, ws, id);
    case Hashed(ws, digest) => HashedKeeps(w, ws, digest);
    case Matched(ws, ok) => MatchedKeeps(w, ws, ok);
    case Take(ws) => TakeKeeps(w, ws);
    case TakeAgain(ws) => TakeAgainKeeps(w, ws);
    case PresenceFrame(ws, phase) => PresenceKeeps(w, ws, phase);
    case RelayFrame(ws, kind, choice) => RelayFrameKeeps(w, ws, kind, choice);
    case Forward(ws) => ForwardKeeps(w, ws);
    case RelayEnds(ws, delivered) => RelayEndsKeeps(w, ws, delivered);
  }

  lemma OperatorStepKeeps(w: World, e: Event)
    requires Inv(w.hub) && ByOperator(e)
    ensures Inv(Step(w, e).hub)
  {
    hide Inv, OnLogin, OnLoginMatched, OnLoginCommit, OnApprove, OnAttach, OnAttachLocked, OnRelease, OnReleaseLocked, OnSignOut;
    hide OnSignOutEnds;
    match e
    case LoginFrame(ws, username) => LoginKeeps(w, ws, username, true);
    case LoginMatched(ws, ok) => LoginKeeps(w, ws, "", ok);
    case LoginCommit(ws) => LoginCommitKeeps(w, ws);
    case ApproveFrame(ws, id) => ApproveKeeps(w, ws, id);
    case AttachFrame(ws, id, choice) => AttachFrameKeeps(w, ws, id, choice);
    case AttachLocked(ws, choice) => AttachLockedKeeps(w, ws, choice);
    case ReleaseFrame(ws, choice) => ReleaseFramesKeep(w, ws, choice);
    case ReleaseLocked(ws) => ReleaseLockedKeeps(w, ws);
    case SignOutFrame(ws, choice) => ReleaseFramesKeep(w, ws, choice);
    case SignOutEnds(ws) => SignOutEndsKeeps(w, ws);
  }

  lemma StepKeeps(w: World, e: Event)
    requires Inv(w.hub)
    ensures Inv(Step(w, e).hub)
  {
    hide Inv, OnLeave, OnBeginDrop, OnDropLocked, OnDisconnect, OnMaintainRelease, OnMaintainDrop, OnSweep, OnStaleStop;
    if ByRobot(e) {
      RobotStepKeeps(w, e);
    } else if ByOperator(e) {
      OperatorStepKeeps(w, e);
    } else {
      match e
      case Clock(_, _) =>
      case ClearRow(id) => RowsKeep(w.hub, w.hub.db - {id});
      case Connect(ws, side) => if ws !in w.hub.sides { ConnectKeeps(w.hub, ws, side); }
      case Leave(ws) => LeaveKeeps(w, ws);
      case BeginDrop(ws, choice) => BeginDropKeeps(w, ws, choice);
      case DropLocked(ws) => DropLockedKeeps(w, ws);
      case Disconnect(username, choice) => DisconnectKeeps(w, username, choice);
      case MaintainRelease => MaintainEndsKeep(w);
      case MaintainDrop => MaintainEndsKeep(w);
      case Forget(id) => if OnForget(w, id) != w { ForgetKeeps(w.hub, id); }
      case SweepRobot(id) => SweepKeeps(w, id);
      case StaleStop => StaleStopKeeps(w);
    }
  }

  lemma RowsKeep(h: Hub, db: set<string>)
    requires Inv(h)
    ensures Inv(h.(db := db))
  {
    AccountsKeep(h, h.(db := db));
  }

  lemma InitialInv(w: World)
    requires Initial(w)
    ensures Inv(w.hub)
  {
    forall rec | 0 <= rec < |w.hub.records| ensures RecordOk(w.hub, w.hub.records[rec]) {
      assert Unused(w.hub.records[rec]);
    }
    forall id ensures Holder(w.hub, id) == None {
      if id in w.hub.robots {
        assert Unused(w.hub.records[w.hub.robots[id]]);
      }
    }
  }

  lemma {:induction false} RunInv(w: World, es: seq<Event>)
    requires Initial(w)
    ensures Inv(Run(w, es).hub)
  {
    if es == [] {
      InitialInv(w);
    } else {
      hide Inv, Step;
      RunInv(w, es[..|es| - 1]);
      StepKeeps(Run(w, es[..|es| - 1]), es[|es| - 1]);
    }
  }

  /** Every record is paired, in every interleaving. */
  lemma AlwaysPaired(w: World, es: seq<Event>, rec: RecId)
    requires Initial(w) && rec < |Run(w, es).hub.records|
    ensures var r := Run(w, es).hub.records[rec];
            && (r.operator.Some? ==> r.robot.Some?) && (r.startInProgress ==> r.operator.Some?)
            && (r.staleDeadline.Some? ==> r.operator.Some? && r.sweepMark == Some(StaleMark))
  {
    RunInv(w, es);
    assert RecordOk(Run(w, es).hub, Run(w, es).hub.records[rec]);
  }

  /** An operator socket holds at most one registered robot, in every interleaving. */
  lemma HoldsAtMostOne(w: World, es: seq<Event>, a: string, b: string)
    requires Initial(w)
    ensures var h := Run(w, es).hub;
            Holder(h, a).Some? && Holder(h, a) == Holder(h, b) ==> a == b
  {
    RunInv(w, es);
  }

  /** While a relay is being sent, its pair is the record's pair, unless the record was forgotten. */
  lemma RelayedPairIsPinned(w: World, es: seq<Event>, ws: Socket)
    requires Initial(w)
    requires ws in Run(w, es).hub.pcs && Run(w, es).hub.pcs[ws].Relaying?
    ensures var h := Run(w, es).hub;
            var Relaying(rec, side, peer, _) := h.pcs[ws];
            && rec < |h.records|
            && var r := h.records[rec];
               || (side == RobotSide && r.robot == Some(ws) && r.operator == Some(peer))
               || (side == OperatorSide && r.operator == Some(ws) && r.robot == Some(peer))
               || (!h.Registered(rec) && r.robot == None && r.operator == None)
  {
    RunInv(w, es);
    var h := Run(w, es).hub;
    assert LockOk(h, h.pcs[ws].rec, ws);
  }

  /** When an operator's handler has returned, no registered record names its socket. */
  lemma NothingHeldAfterReturn(w: World, es: seq<Event>, ws: Socket, id: string)
    requires Initial(w) && Run(w, es).hub.At(ws, Done)
    ensures Holder(Run(w, es).hub, id) != Some(ws)
  {
    RunInv(w, es);
    var h := Run(w, es).hub;
    assert PcOk(h, ws, h.pcs[ws]);
  }
}
