/**
  The registry as an asyncio server: each event is one stretch of code between two awaits, run by
  one socket's handler or by the maintenance task. A stretch that needs a record's lock runs only
  while no relay holds it. Where the server iterates over its records, the event names the choice.
 */
module RegistrySteps {
  import opened Wrappers
  import opened RegistryRecord

  const PENDING_CAP := 500

  type RecId = nat

  datatype Side = RobotSide | OperatorSide

  datatype Kind = Inventory | ConfigOk | Status(phase: Option<Phase>) | ErrorFrame | Config | StartFrame | StopFrame {
    predicate AllowedFrom(side: Side) {
      if side == OperatorSide then Config? || StartFrame? || StopFrame?
      else Inventory? || ConfigOk? || Status? || ErrorFrame?
    }
  }

  /** Where a handler goes on when its hold is released. */
  datatype Next = BackToIdle | ToSignOut(user: Option<string>) | ToDone

  /** Where a socket's handler is suspended, with the locals it still needs. */
  datatype Pc =
    | RobotIdle(session: Option<RecId>)
    | Hashing(robotId: string, session: Option<RecId>)
    | Matching(robotId: string, stored: int, session: Option<RecId>)
    | TakeWait(rec: RecId, session: Option<RecId>, stamp: real)
    | TakeCheck(rec: RecId, session: Option<RecId>)
    | OperatorIdle
    | LoginWait(username: string)
    | LoginReply(username: string)
    | AttachWait(rec: RecId, username: string)
    | ReleaseWait(rec: RecId, next: Next)
    | SignOutReply(user: Option<string>)
    | ForwardWait(rec: RecId, side: Side, kind: Kind)
    | Relaying(rec: RecId, side: Side, peer: Socket, kind: Kind)
    | Closing
    | DropWait(rec: RecId)
    | Done

  datatype Maintain =
    | Asleep
    | ReleaseFor(ws: Socket, rec: RecId)
    | DropFor(ws: Socket, rec: RecId)
    | StopWait(rec: RecId, robot: Socket, operator: Socket)

  datatype Why = NewSocket | FreshSweep

  /** The trace: frames the server decides to send, and what happens to each hold. */
  datatype Entry =
    | TookSocket(rec: RecId, robot: Socket, stamp: real)
    | SocketGone(rec: RecId)
    | Approve(rec: RecId)
    | Attach(rec: RecId, operator: Socket, name: string)
    | Detach(rec: RecId)
    | Relay(rec: RecId, sender: Socket, receiver: Socket, kind: Kind)
    | Seen(rec: RecId, phase: Phase, stamp: real)
    | Reported(rec: RecId, phase: Phase)
    | StaleNotice(rec: RecId, operator: Socket, atS: real)
    | Cancel(rec: RecId, why: Why)
    | StopDue(rec: RecId, robot: Socket, operator: Socket, atS: real)
    | OwnStop(rec: RecId, robot: Socket, operator: Socket)

  datatype Hub = Hub(
    robots: map<string, RecId>, records: seq<Record>, locks: map<RecId, Socket>,
    operatorWs: map<string, Socket>, wsUser: map<Socket, string>,
    sides: map<Socket, Side>, pcs: map<Socket, Pc>, maintain: Maintain, db: set<string>)
  {
    predicate Registered(rec: RecId) {
      rec < |records| && records[rec].id in robots && robots[records[rec].id] == rec
    }

    predicate Lockable(rec: RecId) {
      rec < |records| && rec !in locks
    }

    predicate At(ws: Socket, pc: Pc) {
      ws in pcs && pcs[ws] == pc
    }

    function SetPc(ws: Socket, pc: Pc): Hub {
      this.(pcs := pcs[ws := pc])
    }

    function SetRecord(rec: RecId, r: Record): Hub
      requires rec < |records|
    {
      this.(records := records[rec := r])
    }

    /** A registered record held by the socket, as the choice names it, or none. */
    predicate HeldChoice(ws: Socket, choice: Option<string>) {
      if choice.Some? then choice.value in robots && robots[choice.value] < |records| && records[robots[choice.value]].operator == Some(ws)
      else forall id :: id in robots && robots[id] < |records| ==> records[robots[id]].operator != Some(ws)
    }

    predicate NamedChoice(ws: Socket, choice: Option<string>) {
      if choice.Some? then
        choice.value in robots && robots[choice.value] < |records|
        && (records[robots[choice.value]].robot == Some(ws) || records[robots[choice.value]].operator == Some(ws))
      else
        forall id :: id in robots && robots[id] < |records| ==>
          records[robots[id]].robot != Some(ws) && records[robots[id]].operator != Some(ws)
    }

    /** Forget the login of a socket. */
    function Logout(ws: Socket): Hub {
      if ws !in wsUser then this
      else
        var user := wsUser[ws];
        this.(wsUser := wsUser - {ws},
              operatorWs := if user in operatorWs && operatorWs[user] == ws then operatorWs - {user} else operatorWs)
    }

    function PendingCount(): nat {
      |set id | id in robots && robots[id] < |records| && !records[robots[id]].approved|
    }
  }

  datatype World = World(hub: Hub, mono: real, utc: real, trace: seq<Entry>) {
    function To(next: Hub): World {
      this.(hub := next)
    }

    function Log(entries: seq<Entry>): World {
      this.(trace := trace + entries)
    }
  }

  datatype Event =
    | Clock(mono: real, utc: real)
    | ClearRow(id: string)
    | Connect(ws: Socket, side: Side)
    | Leave(ws: Socket)
    | RegisterFrame(ws: Socket, id: string)
    | Hashed(ws: Socket, digest: int)
    | Matched(ws: Socket, ok: bool)
    | Take(ws: Socket)
    | TakeAgain(ws: Socket)
    | PresenceFrame(ws: Socket, phase: Phase)
    | RelayFrame(ws: Socket, kind: Kind, choice: Option<string>)
    | Forward(ws: Socket)
    | RelayEnds(ws: Socket, delivered: bool)
    | LoginFrame(ws: Socket, username: string)
    | LoginMatched(ws: Socket, ok: bool)
    | LoginCommit(ws: Socket)
    | ApproveFrame(ws: Socket, id: string)
    | AttachFrame(ws: Socket, id: string, choice: Option<string>)
    | AttachLocked(ws: Socket, choice: Option<string>)
    | ReleaseFrame(ws: Socket, choice: Option<string>)
    | ReleaseLocked(ws: Socket)
    | SignOutFrame(ws: Socket, choice: Option<string>)
    | SignOutEnds(ws: Socket)
    | BeginDrop(ws: Socket, choice: Option<string>)
    | DropLocked(ws: Socket)
    | Disconnect(username: string, choice: Option<string>)
    | MaintainRelease
    | MaintainDrop
    | Forget(id: string)
    | SweepRobot(id: string)
    | StaleStop

  // ---------- Robot handlers ----------

  /** The relay loop goes on only while the session is registered and the socket is its robot. */
  predicate Still(h: Hub, ws: Socket, rec: RecId) {
    h.Registered(rec) && h.records[rec].robot == Some(ws)
  }

  function Insert(w: World, ws: Socket, id: string, digest: int): World {
    var r := Record(id, digest, false, Idle, Some(w.utc.Floor as real), Some(ws), None, None, false, None, None);
    var rec := |w.hub.records|;
    w.To(w.hub.(records := w.hub.records + [r], robots := w.hub.robots[id := rec], db := w.hub.db + {id}).SetPc(ws, RobotIdle(Some(rec))))
     .Log([TookSocket(rec, ws, w.utc.Floor as real)])
  }

  function OnRegister(w: World, ws: Socket, id: string): World {
    if ws !in w.hub.pcs || !w.hub.pcs[ws].RobotIdle? then w
    else
      var session := w.hub.pcs[ws].session;
      if session.Some? && !Still(w.hub, ws, session.value) then w.To(w.hub.SetPc(ws, Closing))
      else if id !in w.hub.robots then
        if w.hub.PendingCount() >= PENDING_CAP then w else w.To(w.hub.SetPc(ws, Hashing(id, session)))
      else if w.hub.robots[id] < |w.hub.records| then
        w.To(w.hub.SetPc(ws, Matching(id, w.hub.records[w.hub.robots[id]].secret, session)))
      else w
  }

  function OnHashed(w: World, ws: Socket, digest: int): World {
    if ws !in w.hub.pcs || !w.hub.pcs[ws].Hashing? then w
    else
      var Hashing(id, session) := w.hub.pcs[ws];
      if id !in w.hub.robots then
        if w.hub.PendingCount() >= PENDING_CAP then w.To(w.hub.SetPc(ws, RobotIdle(session)))
        else Insert(w, ws, id, digest)
      else if w.hub.robots[id] < |w.hub.records| then
        w.To(w.hub.SetPc(ws, Matching(id, w.hub.records[w.hub.robots[id]].secret, session)))
      else w
  }

  function OnMatched(w: World, ws: Socket, ok: bool): World {
    if ws !in w.hub.pcs || !w.hub.pcs[ws].Matching? then w
    else
      var Matching(id, stored, session) := w.hub.pcs[ws];
      if ok && id in w.hub.robots && w.hub.robots[id] < |w.hub.records|
         && w.hub.records[w.hub.robots[id]].secret == stored
      then w.To(w.hub.SetPc(ws, TakeWait(w.hub.robots[id], session, w.utc.Floor as real)))
      else w.To(w.hub.SetPc(ws, RobotIdle(session)))
  }

  function OnTake(w: World, ws: Socket): World {
    if ws !in w.hub.pcs || !w.hub.pcs[ws].TakeWait? || !w.hub.Lockable(w.hub.pcs[ws].rec) then w
    else
      var TakeWait(rec, session, stamp) := w.hub.pcs[ws];
      w.To(w.hub.SetRecord(rec, w.hub.records[rec].Taken(ws, stamp)).SetPc(ws, TakeCheck(rec, session)))
       .Log([TookSocket(rec, ws, stamp), Cancel(rec, NewSocket)])
  }

  function OnTakeAgain(w: World, ws: Socket): World {
    if ws !in w.hub.pcs || !w.hub.pcs[ws].TakeCheck? || !w.hub.Lockable(w.hub.pcs[ws].rec) then w
    else
      var TakeCheck(rec, session) := w.hub.pcs[ws];
      w.To(w.hub.SetPc(ws, RobotIdle(if w.hub.records[rec].robot == Some(ws) then Some(rec) else session)))
  }

  function OnPresence(w: World, ws: Socket, phase: Phase): World {
    if ws !in w.hub.pcs || !w.hub.pcs[ws].RobotIdle? || w.hub.pcs[ws].session == None then w
    else
      var rec := w.hub.pcs[ws].session.value;
      if !Still(w.hub, ws, rec) then w.To(w.hub.SetPc(ws, Closing))
      else w.To(w.hub.SetRecord(rec, w.hub.records[rec].Presence(phase, w.utc))).Log([Seen(rec, phase, w.utc.Floor as real)])
  }

  // ---------- Relays ----------

  function OnRelayFrame(w: World, ws: Socket, kind: Kind, choice: Option<string>): World {
    if ws !in w.hub.pcs then w
    else
      match w.hub.pcs[ws]
      case RobotIdle(Some(rec)) =>
        if !Still(w.hub, ws, rec) then w.To(w.hub.SetPc(ws, Closing))
        else if !kind.AllowedFrom(RobotSide) then w
        else w.To(w.hub.SetPc(ws, ForwardWait(rec, RobotSide, kind)))
      case OperatorIdle =>
        if ws !in w.hub.wsUser || !kind.AllowedFrom(OperatorSide) || !w.hub.HeldChoice(ws, choice) || choice == None then w
        else w.To(w.hub.SetPc(ws, ForwardWait(w.hub.robots[choice.value], OperatorSide, kind)))
      case _ => w
  }

  function IdlePc(side: Side, rec: RecId): Pc {
    if side == RobotSide then RobotIdle(Some(rec)) else OperatorIdle
  }

  /** Under the lock: only for the robot's own socket, or for the holder; then the lock is kept while sending. */
  function OnForward(w: World, ws: Socket): World {
    if ws !in w.hub.pcs || !w.hub.pcs[ws].ForwardWait? || !w.hub.Lockable(w.hub.pcs[ws].rec) then w
    else
      var ForwardWait(rec, side, kind) := w.hub.pcs[ws];
      var r := w.hub.records[rec];
      var own := if side == RobotSide then r.robot else r.operator;
      var peer := if side == RobotSide then r.operator else r.robot;
      if own != Some(ws) || peer == None then w.To(w.hub.SetPc(ws, IdlePc(side, rec)))
      else
        var marked := if side == OperatorSide && kind.StartFrame? then r.(startInProgress := true) else r;
        w.To(w.hub.SetRecord(rec, marked).(locks := w.hub.locks[rec := ws]).SetPc(ws, Relaying(rec, side, peer.value, kind)))
         .Log([Relay(rec, ws, peer.value, kind)])
  }

  /** The send returned or raised; a status is applied only while the robot's socket is still current. */
  function OnRelayEnds(w: World, ws: Socket, delivered: bool): World {
    if ws !in w.hub.pcs || !w.hub.pcs[ws].Relaying? || w.hub.pcs[ws].rec >= |w.hub.records| then w
    else
      var Relaying(rec, side, peer, kind) := w.hub.pcs[ws];
      var unlocked := w.hub.(locks := w.hub.locks - {rec});
      if !delivered then w.To(unlocked.SetPc(ws, Closing))
      else
        var idle := unlocked.SetPc(ws, IdlePc(side, rec));
        if side == RobotSide && kind.Status? && kind.phase.Some? && w.hub.records[rec].robot == Some(ws) then
          w.To(idle.SetRecord(rec, w.hub.records[rec].ApplyStatus(kind.phase.value)))
           .Log([Reported(rec, kind.phase.value)])
        else w.To(idle)
  }

  // ---------- Operator handlers ----------

  function OnLogin(w: World, ws: Socket, username: string): World {
    if !w.hub.At(ws, OperatorIdle) || ws in w.hub.wsUser || username in w.hub.operatorWs then w
    else w.To(w.hub.SetPc(ws, LoginWait(username)))
  }

  function OnLoginMatched(w: World, ws: Socket, ok: bool): World {
    if ws !in w.hub.pcs || !w.hub.pcs[ws].LoginWait? then w
    else w.To(w.hub.SetPc(ws, if ok then LoginReply(w.hub.pcs[ws].username) else OperatorIdle))
  }

  function OnLoginCommit(w: World, ws: Socket): World {
    if ws !in w.hub.pcs || !w.hub.pcs[ws].LoginReply? then w
    else
      var user := w.hub.pcs[ws].username;
      w.To(w.hub.(operatorWs := w.hub.operatorWs[user := ws], wsUser := w.hub.wsUser[ws := user]).SetPc(ws, OperatorIdle))
  }

  function OnApprove(w: World, ws: Socket, id: string): World {
    if !w.hub.At(ws, OperatorIdle) || ws !in w.hub.wsUser || id !in w.hub.robots || w.hub.robots[id] >= |w.hub.records| then w
    else w.To(w.hub.SetRecord(w.hub.robots[id], w.hub.records[w.hub.robots[id]].(approved := true))).Log([Entry.Approve(w.hub.robots[id])])
  }

  function OnAttach(w: World, ws: Socket, id: string, choice: Option<string>): World {
    if !w.hub.At(ws, OperatorIdle) || ws !in w.hub.wsUser || !w.hub.HeldChoice(ws, choice) then w
    else if id !in w.hub.robots || w.hub.robots[id] >= |w.hub.records| then w
    else if w.hub.records[w.hub.robots[id]].AttachCode(ws, choice.Some?, w.utc) != Attached then w
    else w.To(w.hub.SetPc(ws, AttachWait(w.hub.robots[id], w.hub.wsUser[ws])))
  }

  function OnAttachLocked(w: World, ws: Socket, choice: Option<string>): World {
    if ws !in w.hub.pcs || !w.hub.pcs[ws].AttachWait? || !w.hub.Lockable(w.hub.pcs[ws].rec) || !w.hub.HeldChoice(ws, choice) then w
    else
      var rec := w.hub.pcs[ws].rec;
      var r := w.hub.records[rec];
      var idle := w.hub.SetPc(ws, OperatorIdle);
      if r.AttachCode(ws, choice.Some?, w.utc) != Attached then w.To(idle)
      else
        w.To(idle.SetRecord(rec, r.Hold(ws, Some(w.hub.pcs[ws].username))))
         .Log([Entry.Attach(rec, ws, w.hub.pcs[ws].username)])
  }

  function OnRelease(w: World, ws: Socket, choice: Option<string>): World {
    if !w.hub.At(ws, OperatorIdle) || ws !in w.hub.wsUser || !w.hub.HeldChoice(ws, choice) || choice == None then w
    else w.To(w.hub.SetPc(ws, ReleaseWait(w.hub.robots[choice.value], BackToIdle)))
  }

  function NextPc(next: Next): Pc {
    match next
    case BackToIdle => OperatorIdle
    case ToSignOut(user) => SignOutReply(user)
    case ToDone => Done
  }

  /** Release a record for a socket, under the lock. */
  function ReleaseFrom(w: World, ws: Socket, rec: RecId): World
    requires rec < |w.hub.records|
  {
    if w.hub.records[rec].operator != Some(ws) then w
    else w.To(w.hub.SetRecord(rec, w.hub.records[rec].Released(w.utc))).Log([Entry.Detach(rec)])
  }

  function OnReleaseLocked(w: World, ws: Socket): World {
    if ws !in w.hub.pcs || !w.hub.pcs[ws].ReleaseWait? || !w.hub.Lockable(w.hub.pcs[ws].rec) then w
    else
      var ReleaseWait(rec, next) := w.hub.pcs[ws];
      var released := ReleaseFrom(w, ws, rec);
      released.To(released.hub.SetPc(ws, NextPc(next)))
  }

  function OnSignOut(w: World, ws: Socket, choice: Option<string>): World {
    if !w.hub.At(ws, OperatorIdle) || ws !in w.hub.wsUser || !w.hub.HeldChoice(ws, choice) then w
    else
      var user := Some(w.hub.wsUser[ws]);
      w.To(w.hub.SetPc(ws, if choice == None then SignOutReply(user) else ReleaseWait(w.hub.robots[choice.value], ToSignOut(user))))
  }

  function OnSignOutEnds(w: World, ws: Socket): World {
    if ws !in w.hub.pcs || !w.hub.pcs[ws].SignOutReply? then w
    else
      var user := w.hub.pcs[ws].user;
      var mine := user.Some? && user.value in w.hub.operatorWs && w.hub.operatorWs[user.value] == ws;
      w.To(w.hub.(operatorWs := if mine then w.hub.operatorWs - {user.value} else w.hub.operatorWs,
                  wsUser := w.hub.wsUser - {ws}).SetPc(ws, OperatorIdle))
  }

  // ---------- The end of a handler ----------

  /** A connection ends, a send raises, or the handler returns: not while relaying or dropping. */
  function OnLeave(w: World, ws: Socket): World {
    if ws !in w.hub.pcs then w
    else
      match w.hub.pcs[ws]
      case Relaying(_, _, _, _) => w
      case DropWait(_) => w
      case Done => w
      case ReleaseWait(_, ToDone) => w
      case _ => w.To(w.hub.SetPc(ws, Closing))
  }

  function OnBeginDrop(w: World, ws: Socket, choice: Option<string>): World {
    if !w.hub.At(ws, Closing) then w
    else if ws in w.hub.wsUser then
      var out := w.hub.Logout(ws);
      if !out.HeldChoice(ws, choice) then w
      else w.To(out.SetPc(ws, if choice == None then Done else ReleaseWait(out.robots[choice.value], ToDone)))
    else if !w.hub.NamedChoice(ws, choice) then w
    else w.To(w.hub.SetPc(ws, if choice == None then Done else DropWait(w.hub.robots[choice.value])))
  }

  function DropFrom(w: World, ws: Socket, rec: RecId): World
    requires rec < |w.hub.records|
  {
    var r := w.hub.records[rec];
    if r.robot == Some(ws) then w.To(w.hub.SetRecord(rec, r.Dropped(ws, w.utc))).Log([Entry.Detach(rec), SocketGone(rec)])
    else if r.operator == Some(ws) then w.To(w.hub.SetRecord(rec, r.Dropped(ws, w.utc))).Log([Entry.Detach(rec)])
    else w
  }

  function OnDropLocked(w: World, ws: Socket): World {
    if ws !in w.hub.pcs || !w.hub.pcs[ws].DropWait? || !w.hub.Lockable(w.hub.pcs[ws].rec) then w
    else
      var dropped := DropFrom(w, ws, w.hub.pcs[ws].rec);
      dropped.To(dropped.hub.SetPc(ws, Done))
  }

  // ---------- The maintenance task ----------

  /** An account was disabled or its password changed: drop its socket, beside that socket's handler. */
  function OnDisconnect(w: World, username: string, choice: Option<string>): World {
    if w.hub.maintain != Asleep || username !in w.hub.operatorWs then w
    else
      var ws := w.hub.operatorWs[username];
      if ws in w.hub.wsUser then
        var out := w.hub.Logout(ws);
        if !out.HeldChoice(ws, choice) then w
        else w.To(if choice == None then out else out.(maintain := ReleaseFor(ws, out.robots[choice.value])))
      else if !w.hub.NamedChoice(ws, choice) then w
      else w.To(if choice == None then w.hub else w.hub.(maintain := DropFor(ws, w.hub.robots[choice.value])))
  }

  function OnMaintainRelease(w: World): World {
    if !w.hub.maintain.ReleaseFor? || !w.hub.Lockable(w.hub.maintain.rec) then w
    else
      var released := ReleaseFrom(w, w.hub.maintain.ws, w.hub.maintain.rec);
      released.To(released.hub.(maintain := Asleep))
  }

  function OnMaintainDrop(w: World): World {
    if !w.hub.maintain.DropFor? || !w.hub.Lockable(w.hub.maintain.rec) then w
    else
      var dropped := DropFrom(w, w.hub.maintain.ws, w.hub.maintain.rec);
      dropped.To(dropped.hub.(maintain := Asleep))
  }

  /** A row is gone from the database: the record is forgotten, without its lock. */
  function OnForget(w: World, id: string): World {
    if w.hub.maintain != Asleep || id !in w.hub.robots || id in w.hub.db || w.hub.robots[id] >= |w.hub.records| then w
    else
      var rec := w.hub.robots[id];
      w.To(w.hub.SetRecord(rec, w.hub.records[rec].Forgotten()).(robots := w.hub.robots - {id}))
       .Log([Entry.Detach(rec), SocketGone(rec)])
  }

  function OnSweep(w: World, id: string): World {
    if w.hub.maintain != Asleep || id !in w.hub.robots || id !in w.hub.db || w.hub.robots[id] >= |w.hub.records| then w
    else
      var rec := w.hub.robots[id];
      var r := w.hub.records[rec];
      var swept := w.To(w.hub.SetRecord(rec, r.Swept(w.utc, w.mono)));
      match r.SweepResult(w.utc, w.mono)
      case Quiet => if r.robot.Some? && !r.IsStale(w.utc) then swept.Log([Cancel(rec, FreshSweep)]) else swept
      case Notice => swept.Log([StaleNotice(rec, r.operator.value, w.mono)])
      case Due =>
        swept.To(swept.hub.(maintain := StopWait(rec, r.robot.value, r.operator.value)))
             .Log([StopDue(rec, r.robot.value, r.operator.value, w.mono)])
  }

  /** Under the lock, the stop goes ahead if both sockets are the ones the sweep saw. */
  function OnStaleStop(w: World): World {
    if !w.hub.maintain.StopWait? || !w.hub.Lockable(w.hub.maintain.rec) then w
    else
      var StopWait(rec, robot, operator) := w.hub.maintain;
      var r := w.hub.records[rec];
      var awake := w.hub.(maintain := Asleep);
      if r.robot != Some(robot) || r.operator != Some(operator) then w.To(awake)
      else w.To(awake.SetRecord(rec, r.StaleStopped())).Log([OwnStop(rec, robot, operator), Entry.Detach(rec)])
  }

  function Step(w: World, e: Event): World {
    match e
    case Clock(mono, utc) => if mono < w.mono then w else w.(mono := mono, utc := utc)
    case ClearRow(id) => w.To(w.hub.(db := w.hub.db - {id}))
    case Connect(ws, side) =>
      if ws in w.hub.sides then w
      else w.To(w.hub.(sides := w.hub.sides[ws := side]).SetPc(ws, if side == RobotSide then RobotIdle(None) else OperatorIdle))
    case Leave(ws) => OnLeave(w, ws)
    case RegisterFrame(ws, id) => OnRegister(w, ws, id)
    case Hashed(ws, digest) => OnHashed(w, ws, digest)
    case Matched(ws, ok) => OnMatched(w, ws, ok)
    case Take(ws) => OnTake(w, ws)
    case TakeAgain(ws) => OnTakeAgain(w, ws)
    case PresenceFrame(ws, phase) => OnPresence(w, ws, phase)
    case RelayFrame(ws, kind, choice) => OnRelayFrame(w, ws, kind, choice)
    case Forward(ws) => OnForward(w, ws)
    case RelayEnds(ws, delivered) => OnRelayEnds(w, ws, delivered)
    case LoginFrame(ws, username) => OnLogin(w, ws, username)
    case LoginMatched(ws, ok) => OnLoginMatched(w, ws, ok)
    case LoginCommit(ws) => OnLoginCommit(w, ws)
    case ApproveFrame(ws, id) => OnApprove(w, ws, id)
    case AttachFrame(ws, id, choice) => OnAttach(w, ws, id, choice)
    case AttachLocked(ws, choice) => OnAttachLocked(w, ws, choice)
    case ReleaseFrame(ws, choice) => OnRelease(w, ws, choice)
    case ReleaseLocked(ws) => OnReleaseLocked(w, ws)
    case SignOutFrame(ws, choice) => OnSignOut(w, ws, choice)
    case SignOutEnds(ws) => OnSignOutEnds(w, ws)
    case BeginDrop(ws, choice) => OnBeginDrop(w, ws, choice)
    case DropLocked(ws) => OnDropLocked(w, ws)
    case Disconnect(username, choice) => OnDisconnect(w, username, choice)
    case MaintainRelease => OnMaintainRelease(w)
    case MaintainDrop => OnMaintainDrop(w)
    case Forget(id) => OnForget(w, id)
    case SweepRobot(id) => OnSweep(w, id)
    case StaleStop => OnStaleStop(w)
  }

  function Run(w: World, es: seq<Event>): World {
    if es == [] then w else Step(Run(w, es[..|es| - 1]), es[|es| - 1])
  }

  /** As loaded from the database: rows with no sockets, and no connection yet. */
  predicate Initial(w: World) {
    && w.trace == [] && w.hub.locks == map[] && w.hub.operatorWs == map[] && w.hub.wsUser == map[]
    && w.hub.sides == map[] && w.hub.pcs == map[] && w.hub.maintain == Asleep
    && (forall id :: id in w.hub.robots ==> w.hub.robots[id] < |w.hub.records| && w.hub.records[w.hub.robots[id]].id == id)
    && (forall rec :: 0 <= rec < |w.hub.records| ==> Unused(w.hub.records[rec]))
  }

  predicate Unused(r: Record) {
    r.robot == None && r.operator == None && !r.startInProgress && r.sweepMark == None && r.staleDeadline == None
  }
}
