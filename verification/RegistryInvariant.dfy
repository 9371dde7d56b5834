/**
  The invariant of the registry's step model, and what a single change of a record, a handler's
  position, a login or the maintenance task's position does to it.
 */
module RegistryInvariant {
  import opened Wrappers
  import opened RegistryRecord
  import opened RegistrySteps

  predicate SideIs(h: Hub, ws: Socket, side: Side) {
    ws in h.sides && h.sides[ws] == side
  }

  predicate RecordOk(h: Hub, r: Record) {
    && r.Paired()
    && (r.robot.Some? ==> SideIs(h, r.robot.value, RobotSide))
    && (r.operator.Some? ==> SideIs(h, r.operator.value, OperatorSide))
  }

  ghost predicate RecordsOk(h: Hub) {
    forall rec :: 0 <= rec < |h.records| ==> RecordOk(h, h.records[rec])
  }

  predicate RobotsOk(h: Hub) {
    forall id :: id in h.robots ==> h.robots[id] < |h.records| && h.records[h.robots[id]].id == id
  }

  /** The socket that holds the robot registered under this ID. */
  function Holder(h: Hub, id: string): Option<Socket> {
    if id in h.robots && h.robots[id] < |h.records| then h.records[h.robots[id]].operator else None
  }

  /** An operator socket holds at most one robot. */
  ghost predicate Unique(h: Hub) {
    forall a, b :: Holder(h, a).Some? && Holder(h, a) == Holder(h, b) ==> a == b
  }

  /** No registered record but this one names the socket as operator. */
  ghost predicate NamedOnlyIn(h: Hub, ws: Socket, only: Option<RecId>) {
    forall id :: Holder(h, id) == Some(ws) ==> only == Some(h.robots[id])
  }

  /** A locked record is the sender's and the peer's; or both are gone and the record forgotten. */
  predicate LockOk(h: Hub, rec: RecId, ws: Socket) {
    && rec < |h.records| && ws in h.pcs && h.pcs[ws].Relaying? && h.pcs[ws].rec == rec
    && var Relaying(_, side, peer, _) := h.pcs[ws];
       var r := h.records[rec];
       || (side == RobotSide && r.robot == Some(ws) && r.operator == Some(peer))
       || (side == OperatorSide && r.operator == Some(ws) && r.robot == Some(peer))
       || (r.robot == None && r.operator == None && !h.Registered(rec))
  }

  ghost predicate LocksOk(h: Hub) {
    && (forall rec :: rec in h.locks ==> LockOk(h, rec, h.locks[rec]))
    && (forall ws :: ws in h.pcs && h.pcs[ws].Relaying? ==> h.pcs[ws].rec in h.locks && h.locks[h.pcs[ws].rec] == ws)
  }

  function PcRec(pc: Pc): Option<RecId> {
    match pc
    case TakeWait(rec, _, _) => Some(rec)
    case TakeCheck(rec, _) => Some(rec)
    case AttachWait(rec, _) => Some(rec)
    case ReleaseWait(rec, _) => Some(rec)
    case ForwardWait(rec, _, _) => Some(rec)
    case Relaying(rec, _, _, _) => Some(rec)
    case DropWait(rec) => Some(rec)
    case _ => None
  }

  /** The side whose handler can be here, if only one can. */
  function PcSide(pc: Pc): Option<Side> {
    match pc
    case RobotIdle(_) => Some(RobotSide)
    case Hashing(_, _) => Some(RobotSide)
    case Matching(_, _, _) => Some(RobotSide)
    case TakeWait(_, _, _) => Some(RobotSide)
    case TakeCheck(_, _) => Some(RobotSide)
    case OperatorIdle => Some(OperatorSide)
    case LoginWait(_) => Some(OperatorSide)
    case LoginReply(_) => Some(OperatorSide)
    case AttachWait(_, _) => Some(OperatorSide)
    case ReleaseWait(_, _) => Some(OperatorSide)
    case SignOutReply(_) => Some(OperatorSide)
    case ForwardWait(_, side, _) => Some(side)
    case Relaying(_, side, _, _) => Some(side)
    case _ => None
  }

  /** The handler's position fits its side, and from the drop on it is named by one record at most. */
  ghost predicate PcOk(h: Hub, ws: Socket, pc: Pc) {
    && ws in h.sides && (PcSide(pc).Some? ==> h.sides[ws] == PcSide(pc).value)
    && (PcRec(pc).Some? ==> PcRec(pc).value < |h.records|)
    && (pc.ReleaseWait? && pc.next.ToDone? ==> NamedOnlyIn(h, ws, Some(pc.rec)))
    && (pc.DropWait? && h.sides[ws] == OperatorSide ==> NamedOnlyIn(h, ws, Some(pc.rec)))
    && (pc.Done? ==> NamedOnlyIn(h, ws, None))
    && (pc.ForwardWait? || pc.Relaying? ==> pc.kind.AllowedFrom(pc.side))
    && UserOk(h, ws, pc)
  }

  /** Nobody is logged in while logging in or from the drop on, or logged in as someone else while signing out. */
  predicate UserOk(h: Hub, ws: Socket, pc: Pc) {
    && (pc.LoginWait? || pc.LoginReply? || pc.DropWait? || pc.Done? ==> ws !in h.wsUser)
    && (pc.ReleaseWait? && pc.next.ToDone? ==> ws !in h.wsUser)
    && (pc.SignOutReply? && ws in h.wsUser ==> pc.user == Some(h.wsUser[ws]))
    && (pc.ReleaseWait? && pc.next.ToSignOut? && ws in h.wsUser ==> pc.next.user == Some(h.wsUser[ws]))
  }

  ghost predicate PcsOk(h: Hub) {
    forall ws :: ws in h.pcs ==> PcOk(h, ws, h.pcs[ws])
  }

  predicate UsersOk(h: Hub) {
    && (forall ws :: ws in h.wsUser ==> SideIs(h, ws, OperatorSide))
    && (forall user :: user in h.operatorWs ==> h.operatorWs[user] in h.wsUser && h.wsUser[h.operatorWs[user]] == user)
  }

  predicate MaintainOk(h: Hub) {
    match h.maintain
    case Asleep => true
    case ReleaseFor(_, rec) => rec < |h.records|
    case DropFor(_, rec) => rec < |h.records|
    case StopWait(rec, _, _) => rec < |h.records|
  }

  ghost predicate Inv(h: Hub) {
    RecordsOk(h) && RobotsOk(h) && Unique(h) && LocksOk(h) && PcsOk(h) && UsersOk(h) && MaintainOk(h)
  }

  // ---------- What the steps are made of ----------

  lemma PcFrame(h: Hub, t: Hub, ws: Socket, pc: Pc)
    requires PcOk(h, ws, pc) && t.sides == h.sides && |t.records| >= |h.records|
    requires ws in t.wsUser ==> (ws in h.wsUser && t.wsUser[ws] == h.wsUser[ws]) || pc.OperatorIdle?
    requires forall id :: Holder(t, id) == Holder(h, id) || Holder(t, id) == None
    requires forall id :: Holder(t, id).Some? ==> id in h.robots && t.robots[id] == h.robots[id]
    ensures PcOk(t, ws, pc)
  {
  }

  lemma SetPcKeeps(h: Hub, ws: Socket, pc: Pc)
    requires Inv(h) && (ws in h.pcs ==> !h.pcs[ws].Relaying?) && !pc.Relaying? && PcOk(h, ws, pc)
    ensures Inv(h.SetPc(ws, pc))
  {
    hide PcOk, RecordOk;
    var t := h.SetPc(ws, pc);
    forall s | s in t.pcs ensures PcOk(t, s, t.pcs[s]) {
      if s != ws {
        assert PcOk(h, s, h.pcs[s]);
      }
      PcFrame(h, t, s, t.pcs[s]);
    }
    assert Unique(t) by { SameHolders(h, t); }
    assert RecordsOk(t) by { SameRecords(h, t); }
    assert LocksOk(t) by { OtherPc(h, ws, pc); }
  }

  /** One handler moved; everyone else's position is still fit. */
  lemma OthersStayOk(h: Hub, t: Hub, ws: Socket)
    requires PcsOk(h) && t == h.(locks := t.locks, pcs := t.pcs) && ws in t.pcs && t.pcs == h.pcs[ws := t.pcs[ws]]
    requires PcOk(t, ws, t.pcs[ws])
    ensures PcsOk(t)
  {
    hide PcOk;
    forall s | s in t.pcs ensures PcOk(t, s, t.pcs[s]) {
      if s != ws {
        assert PcOk(h, s, h.pcs[s]);
        PcFrame(h, t, s, t.pcs[s]);
      }
    }
  }

  lemma SameHolders(h: Hub, t: Hub)
    requires Unique(h) && forall id :: Holder(t, id) == Holder(h, id) || Holder(t, id) == None
    ensures Unique(t)
  {
  }

  lemma SameRecords(h: Hub, t: Hub)
    requires RecordsOk(h) && t.records == h.records && forall s :: s in h.sides ==> s in t.sides && t.sides[s] == h.sides[s]
    ensures RecordsOk(t)
  {
  }

  lemma OtherPc(h: Hub, ws: Socket, pc: Pc)
    requires LocksOk(h) && (ws in h.pcs ==> !h.pcs[ws].Relaying?) && !pc.Relaying?
    ensures LocksOk(h.SetPc(ws, pc))
  {
    var t := h.SetPc(ws, pc);
    forall rec | rec in t.locks ensures LockOk(t, rec, t.locks[rec]) {
      assert LockOk(h, rec, h.locks[rec]);
    }
  }

  /** A record changes: the hold stays or ends, and under a relay's lock the pair stays. */
  lemma SetRecordKeeps(h: Hub, rec: RecId, r: Record)
    requires Inv(h) && rec < |h.records| && r.id == h.records[rec].id && RecordOk(h, r)
    requires r.operator == h.records[rec].operator || r.operator == None
    requires rec in h.locks ==> r.operator == h.records[rec].operator && r.robot == h.records[rec].robot
    ensures Inv(h.SetRecord(rec, r))
  {
    hide PcOk, RecordOk;
    var t := h.SetRecord(rec, r);
    forall s | s in t.pcs ensures PcOk(t, s, t.pcs[s]) {
      PcFrame(h, t, s, t.pcs[s]);
    }
    assert Unique(t) by { SameHolders(h, t); }
    forall k | 0 <= k < |t.records| ensures RecordOk(t, t.records[k]) {
      assert RecordOk(h, if k == rec then r else h.records[k]);
      RecordFrame(h, t, t.records[k]);
    }
    forall k | k in t.locks ensures LockOk(t, k, t.locks[k]) {
      assert LockOk(h, k, h.locks[k]);
    }
  }

  lemma RecordFrame(h: Hub, t: Hub, r: Record)
    requires RecordOk(h, r) && forall s :: s in h.sides ==> s in t.sides && t.sides[s] == h.sides[s]
    ensures RecordOk(t, r)
  {
  }

  /** The maintenance task moves on. */
  lemma SetMaintainKeeps(h: Hub, m: Maintain)
    requires Inv(h) && MaintainOk(h.(maintain := m))
    ensures Inv(h.(maintain := m))
  {
    hide PcOk, RecordOk;
    var t := h.(maintain := m);
    forall s | s in t.pcs ensures PcOk(t, s, t.pcs[s]) {
      PcFrame(h, t, s, t.pcs[s]);
    }
    assert Unique(t) by { SameHolders(h, t); }
    assert RecordsOk(t) by { SameRecords(h, t); }
    forall rec | rec in t.locks ensures LockOk(t, rec, t.locks[rec]) {
      assert LockOk(h, rec, h.locks[rec]);
    }
  }

  /** Logins, rows and new sockets change; records, registrations, positions and locks do not. */
  lemma AccountsKeep(h: Hub, t: Hub)
    requires Inv(h) && t == h.(operatorWs := t.operatorWs, wsUser := t.wsUser, db := t.db) && UsersOk(t)
    requires forall s :: s in t.wsUser && s in h.pcs ==> (s in h.wsUser && t.wsUser[s] == h.wsUser[s]) || h.pcs[s] == OperatorIdle
    ensures Inv(t)
  {
    hide PcOk, RecordOk;
    forall s | s in t.pcs ensures PcOk(t, s, t.pcs[s]) {
      PcFrame(h, t, s, t.pcs[s]);
    }
    assert Unique(t) by { SameHolders(h, t); }
    assert RecordsOk(t) by { SameRecords(h, t); }
    forall rec | rec in t.locks ensures LockOk(t, rec, t.locks[rec]) {
      assert LockOk(h, rec, h.locks[rec]);
    }
  }

  lemma LogoutKeepsUsers(h: Hub, ws: Socket)
    requires UsersOk(h)
    ensures UsersOk(h.Logout(ws)) && ws !in h.Logout(ws).wsUser
    ensures h.Logout(ws) == h.(operatorWs := h.Logout(ws).operatorWs, wsUser := h.Logout(ws).wsUser)
  {
  }

  // ---------- New sockets and new records ----------

  lemma Known(h: Hub, ws: Socket)
    requires PcsOk(h)
    ensures ws in h.pcs ==> ws in h.sides
  {
    assert ws in h.pcs ==> PcOk(h, ws, h.pcs[ws]);
  }

  lemma AddSideKeeps(h: Hub, ws: Socket, side: Side)
    requires Inv(h) && ws !in h.sides
    ensures Inv(h.(sides := h.sides[ws := side])) && ws !in h.pcs
  {
    hide RecordOk;
    Known(h, ws);
    var t := h.(sides := h.sides[ws := side]);
    assert PcsOk(t) && UsersOk(t) by { SidesFrame(h, t); }
    assert Unique(t) by { SameHolders(h, t); }
    assert RecordsOk(t) by { SameRecords(h, t); }
    forall rec | rec in t.locks ensures LockOk(t, rec, t.locks[rec]) {
      assert LockOk(h, rec, h.locks[rec]);
    }
  }

  lemma SidesFrame(h: Hub, t: Hub)
    requires PcsOk(h) && UsersOk(h) && t == h.(sides := t.sides)
    requires forall s :: s in h.sides ==> s in t.sides && t.sides[s] == h.sides[s]
    ensures PcsOk(t) && UsersOk(t)
  {
    forall s | s in t.pcs ensures PcOk(t, s, t.pcs[s]) {
      assert PcOk(h, s, h.pcs[s]);
    }
  }

  lemma ConnectKeeps(h: Hub, ws: Socket, side: Side)
    requires Inv(h) && ws !in h.sides
    ensures Inv(h.(sides := h.sides[ws := side]).SetPc(ws, if side == RobotSide then RobotIdle(None) else OperatorIdle))
  {
    hide Inv, Hub.SetPc;
    AddSideKeeps(h, ws, side);
    MoveKeeps(h.(sides := h.sides[ws := side]), ws, if side == RobotSide then RobotIdle(None) else OperatorIdle);
  }

  lemma AddRecordKeeps(h: Hub, id: string, r: Record)
    requires Inv(h) && id !in h.robots && r.id == id && r.operator == None && RecordOk(h, r)
    ensures Inv(h.(records := h.records + [r], robots := h.robots[id := |h.records|], db := h.db + {id}))
  {
    hide RecordOk, PcOk;
    var t := h.(records := h.records + [r], robots := h.robots[id := |h.records|], db := h.db + {id});
    forall s | s in t.pcs ensures PcOk(t, s, t.pcs[s]) {
      assert PcOk(h, s, h.pcs[s]);
      PcFrame(h, t, s, t.pcs[s]);
    }
    assert Unique(t) by { SameHolders(h, t); }
    forall rec | 0 <= rec < |t.records| ensures RecordOk(t, t.records[rec]) {
      RecordFrame(h, t, if rec < |h.records| then h.records[rec] else r);
    }
    forall rec | rec in t.locks ensures LockOk(t, rec, t.locks[rec]) {
      assert LockOk(h, rec, h.locks[rec]);
    }
  }

  lemma InsertKeeps(w: World, ws: Socket, id: string, digest: int)
    requires Inv(w.hub) && ws in w.hub.pcs && w.hub.pcs[ws].Hashing? && id !in w.hub.robots
    ensures Inv(Insert(w, ws, id, digest).hub)
  {
    hide Inv, Hub.SetPc;
    var h := w.hub;
    var r := Record(id, digest, false, Idle, Some(w.utc.Floor as real), Some(ws), None, None, false, None, None);
    SideOf(h, ws);
    NewRecord(h, ws, r);
    AddRecordKeeps(h, id, r);
    MoveKeeps(h.(records := h.records + [r], robots := h.robots[id := |h.records|], db := h.db + {id}), ws,
              RobotIdle(Some(|h.records|)));
  }

  lemma NewRecord(h: Hub, ws: Socket, r: Record)
    requires SideIs(h, ws, RobotSide)
    requires r.robot == Some(ws) && r.operator == None && !r.startInProgress && r.sweepMark == None && r.staleDeadline == None
    ensures RecordOk(h, r)
  {
  }

  lemma GetRecord(h: Hub, rec: RecId)
    requires Inv(h) && rec < |h.records|
    ensures RecordOk(h, h.records[rec])
  {
  }

  lemma GetRobot(h: Hub, id: string)
    requires Inv(h) && id in h.robots
    ensures h.robots[id] < |h.records| && h.records[h.robots[id]].id == id
  {
  }

  /** A stretch that changes a record and moves its handler on. */
  lemma BothKeep(h: Hub, rec: RecId, r: Record, ws: Socket, pc: Pc)
    requires Inv(h) && rec < |h.records| && r.id == h.records[rec].id && RecordOk(h, r) && rec !in h.locks
    requires r.operator == h.records[rec].operator || r.operator == None
    requires ws in h.pcs && !h.pcs[ws].Relaying? && !pc.Relaying? && PcOk(h.SetRecord(rec, r), ws, pc)
    ensures Inv(h.SetRecord(rec, r).SetPc(ws, pc))
  {
    hide Inv, PcOk, Hub.SetPc;
    SetRecordKeeps(h, rec, r);
    SetPcKeeps(h.SetRecord(rec, r), ws, pc);
  }

  /** A position that no drop has reached yet, for the right side. */
  predicate Plain(h: Hub, ws: Socket, pc: Pc) {
    && ws in h.sides && (PcSide(pc).Some? ==> h.sides[ws] == PcSide(pc).value)
    && (PcRec(pc).Some? ==> PcRec(pc).value < |h.records|)
    && !(pc.ReleaseWait? && pc.next.ToDone?) && !pc.DropWait? && !pc.Done? && !pc.Relaying?
    && (pc.ForwardWait? ==> pc.kind.AllowedFrom(pc.side)) && UserOk(h, ws, pc)
  }

  lemma PlainIsOk(h: Hub, ws: Socket, pc: Pc)
    requires Plain(h, ws, pc)
    ensures PcOk(h, ws, pc)
  {
  }

  lemma SideOf(h: Hub, ws: Socket)
    requires Inv(h) && ws in h.pcs
    ensures ws in h.sides && (PcSide(h.pcs[ws]).Some? ==> h.sides[ws] == PcSide(h.pcs[ws]).value)
    ensures PcRec(h.pcs[ws]).Some? ==> PcRec(h.pcs[ws]).value < |h.records|
    ensures UserOk(h, ws, h.pcs[ws])
    ensures h.pcs[ws].ForwardWait? ==> h.pcs[ws].kind.AllowedFrom(h.pcs[ws].side)
  {
    assert PcOk(h, ws, h.pcs[ws]);
  }

  /** A stretch that only moves its handler on. */
  lemma MoveKeeps(h: Hub, ws: Socket, pc: Pc)
    requires Inv(h) && (ws in h.pcs ==> !h.pcs[ws].Relaying?) && Plain(h, ws, pc)
    ensures Inv(h.SetPc(ws, pc))
  {
    hide Inv, PcOk;
    PlainIsOk(h, ws, pc);
    SetPcKeeps(h, ws, pc);
  }
}
