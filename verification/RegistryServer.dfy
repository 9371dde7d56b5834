/**
  The registry's objects: the record whose fields its code assigns, and the server with its
  dictionaries. Each method is the part of a stretch that changes state, and changes a record as
  `RegistryRecord` says; a method named `...Locked` is the body of a block that holds the lock.
 */
module RegistryServer {
  import opened Wrappers
  import opened RegistryRecord
  import opened RegistrySteps

  class RobotRecord {
    const id: string
    const secret: int
    var approved: bool
    var phase: Phase
    var lastSeen: Option<real>
    var robot: Option<Socket>
    var operator: Option<Socket>
    var operatorName: Option<string>
    var startInProgress: bool
    var sweepMark: Option<Mark>
    var staleDeadline: Option<real>

    function Value(): Record
      reads this
    {
      Record(id, secret, approved, phase, lastSeen, robot, operator, operatorName, startInProgress, sweepMark, staleDeadline)
    }

    constructor (id: string, secret: int, approved: bool, phase: Phase, lastSeen: Option<real>)
      ensures Value() == Record(id, secret, approved, phase, lastSeen, None, None, None, false, None, None)
    {
      this.id, this.secret, this.approved, this.phase, this.lastSeen := id, secret, approved, phase, lastSeen;
      robot, operator, operatorName, startInProgress := None, None, None, false;
      sweepMark, staleDeadline := None, None;
    }
  }

  class Registry {
    var robots: map<string, RobotRecord>
    var operatorWs: map<string, Socket>
    var wsUser: map<Socket, string>
    var loginHash: map<string, int>
    var db: set<string>

    predicate Valid()
      reads this
    {
      forall id :: id in robots ==> robots[id].id == id
    }

    predicate Holds(ws: Socket)
      reads this, robots.Values
    {
      exists id :: id in robots && robots[id].operator == Some(ws)
    }

    /** The first registered record the socket holds, in any order. */
    method HeldRecord(ws: Socket) returns (held: RobotRecord?)
      ensures held == null <==> !Holds(ws)
      ensures held != null ==> held in robots.Values && held.operator == Some(ws)
    {
      var todo := robots.Keys;
      while todo != {}
        invariant todo <= robots.Keys
        invariant forall id :: id in robots && id !in todo ==> robots[id].operator != Some(ws)
        decreases todo
      {
        var id :| id in todo;
        if robots[id].operator == Some(ws) {
          return robots[id];
        }
        todo := todo - {id};
      }
      return null;
    }

    method PendingCount() returns (count: nat)
      ensures count == |set id | id in robots && !robots[id].approved|
    {
      count := 0;
      var todo := robots.Keys;
      while todo != {}
        invariant todo <= robots.Keys
        invariant count == |set id | id in robots && id !in todo && !robots[id].approved|
        decreases todo
      {
        var id :| id in todo;
        ghost var before := set k | k in robots && k !in todo && !robots[k].approved;
        ghost var after := set k | k in robots && k !in todo - {id} && !robots[k].approved;
        assert after == if robots[id].approved then before else before + {id};
        if !robots[id].approved {
          count := count + 1;
        }
        todo := todo - {id};
      }
      assert (set id | id in robots && id !in todo && !robots[id].approved) == set id | id in robots && !robots[id].approved;
    }

    method InsertTokenRobot(ws: Socket, id: string, digest: int, utc: real) returns (record: RobotRecord)
      requires Valid() && id !in robots
      modifies this
      ensures Valid() && fresh(record) && robots == old(robots)[id := record] && db == old(db) + {id}
      ensures operatorWs == old(operatorWs) && wsUser == old(wsUser) && loginHash == old(loginHash)
      ensures record.Value() == Record(id, digest, false, Idle, Some(utc.Floor as real), Some(ws), None, None, false, None, None)
    {
      record := new RobotRecord(id, digest, false, Idle, Some(utc.Floor as real));
      record.robot := Some(ws);
      db := db + {id};
      robots := robots[id := record];
    }

    /** Returns the socket that was current. */
    method TakeLocked(ws: Socket, record: RobotRecord, stamp: real) returns (previous: Option<Socket>)
      modifies record
      ensures record.Value() == old(record.Value()).Taken(ws, stamp) && previous == old(record.robot)
    {
      previous := record.robot;
      record.robot := Some(ws);
      record.lastSeen := Some(stamp);
      record.sweepMark := None;
      record.staleDeadline := None;
    }

    /** A presence from a socket that is no longer current changes nothing. */
    method Presence(record: RobotRecord, ws: Socket, phase: Phase, utc: real)
      modifies record
      ensures record.Value() == if old(record.robot) == Some(ws) then old(record.Value()).Presence(phase, utc) else old(record.Value())
    {
      if record.robot != Some(ws) {
        return;
      }
      record.phase := phase;
      record.lastSeen := Some(utc.Floor as real);
      ClearSweepIfFresh(record, utc);
    }

    method ClearSweepIfFresh(record: RobotRecord, utc: real)
      modifies record
      ensures record.Value() == old(record.Value()).ClearSweepIfFresh(utc)
    {
      if record.Value().IsStale(utc) {
        return;
      }
      if record.sweepMark == None && record.staleDeadline == None {
        return;
      }
      record.sweepMark := None;
      record.staleDeadline := None;
    }

    method ApplyStatus(record: RobotRecord, phase: Phase)
      modifies record
      ensures record.Value() == old(record.Value()).ApplyStatus(phase)
    {
      if phase == Stopped {
        record.staleDeadline := None;
      }
      if phase != record.phase {
        record.phase := phase;
      }
      if (phase == Ready || phase == Stopped || phase == Error) && record.startInProgress {
        record.startInProgress := false;
      }
    }

    method MarkAfterDetach(record: RobotRecord, utc: real)
      modifies record
      ensures record.Value() == old(record.Value()).MarkAfterDetach(utc)
    {
      record.staleDeadline := None;
      if record.Value().IsStale(utc) {
        record.sweepMark := Some(OfflineMark);
      } else {
        record.sweepMark := None;
      }
    }

    /**
      Takes the hold, or says why not; that the socket holds nothing is checked in the same stretch.
      The operator's name was read before the wait for the lock.
     */
    method AttachLocked(ws: Socket, record: RobotRecord, username: Option<string>, utc: real) returns (code: AttachCode)
      modifies record
      ensures code == old(record.Value().AttachCode(ws, Holds(ws), utc))
      ensures record.Value() == if code == Attached
                                then old(record.Value()).Hold(ws, username)
                                else old(record.Value())
    {
      if !record.approved {
        return Pending;
      }
      if !record.Value().OnlineForAttach(utc) {
        return Offline;
      }
      if record.operator.Some? && record.operator != Some(ws) {
        return Busy;
      }
      var held := HeldRecord(ws);
      if held != null {
        return AlreadyAttached;
      }
      record.operator := Some(ws);
      record.operatorName := username;
      return Attached;
    }

    /** The robot's socket to relay to, with the start flag raised for a start; or None. */
    method ForwardLocked(ws: Socket, record: RobotRecord, side: Side, kind: Kind) returns (peer: Option<Socket>)
      modifies record
      ensures var own := if side == RobotSide then old(record.robot) else old(record.operator);
              peer == if own != Some(ws) then None else if side == RobotSide then old(record.operator) else old(record.robot)
      ensures record.Value() == if peer.Some? && side == OperatorSide && kind.StartFrame? then old(record.Value()).(startInProgress := true)
                                else old(record.Value())
    {
      if side == RobotSide && record.robot != Some(ws) {
        return None;
      }
      if side == OperatorSide && record.operator != Some(ws) {
        return None;
      }
      peer := if side == RobotSide then record.operator else record.robot;
      if peer.Some? && side == OperatorSide && kind.StartFrame? && !record.startInProgress {
        record.startInProgress := true;
      }
    }

    /** Ends the socket's hold; returns the robot to tell. */
    method ReleaseLocked(ws: Socket, record: RobotRecord, utc: real) returns (tell: Option<Socket>)
      modifies record
      ensures record.Value() == if old(record.operator) == Some(ws) then old(record.Value()).Released(utc) else old(record.Value())
      ensures tell == if old(record.operator) == Some(ws) then old(record.robot) else None
    {
      if record.operator != Some(ws) {
        return None;
      }
      record.operator := None;
      record.operatorName := None;
      record.startInProgress := false;
      record.staleDeadline := None;
      tell := record.robot;
      MarkAfterDetach(record, utc);
    }

    /** The record forgets a closed socket; returns the operator and the robot to tell. */
    method DropLocked(ws: Socket, record: RobotRecord, utc: real) returns (operator: Option<Socket>, robot: Option<Socket>)
      modifies record
      ensures record.Value() == old(record.Value()).Dropped(ws, utc)
      ensures operator == if old(record.robot) == Some(ws) then old(record.operator) else None
      ensures robot == if old(record.robot) != Some(ws) && old(record.operator) == Some(ws) then old(record.robot) else None
    {
      operator, robot := None, None;
      if record.robot == Some(ws) {
        record.robot := None;
        operator := record.operator;
        record.operator := None;
        record.operatorName := None;
        record.startInProgress := false;
        record.staleDeadline := None;
        record.sweepMark := None;
      } else if record.operator == Some(ws) {
        record.operator := None;
        record.operatorName := None;
        record.startInProgress := false;
        record.staleDeadline := None;
        MarkAfterDetach(record, utc);
        robot := record.robot;
      }
    }

    /** The sweep of one record; the stretch ends with a notice to send, a stop that is due, or nothing. */
    method SweepRobot(record: RobotRecord, utc: real, mono: real) returns (result: Sweep)
      modifies record
      ensures record.Value() == old(record.Value()).Swept(utc, mono) && result == old(record.Value()).SweepResult(utc, mono)
    {
      if record.robot == None {
        record.staleDeadline := None;
        return Quiet;
      }
      if !record.Value().IsStale(utc) {
        if record.sweepMark.Some? || record.staleDeadline.Some? {
          record.sweepMark := None;
          record.staleDeadline := None;
        }
        return Quiet;
      }
      if record.operator == None {
        record.staleDeadline := None;
        if !record.approved {
          return Quiet;
        }
        if record.sweepMark != Some(OfflineMark) {
          record.sweepMark := Some(OfflineMark);
        }
        return Quiet;
      }
      if record.sweepMark != Some(StaleMark) {
        record.sweepMark := Some(StaleMark);
        record.staleDeadline := Some(mono + STALE_STOP_WAIT_S);
        return Notice;
      }
      if record.staleDeadline == None || mono < record.staleDeadline.value {
        return Quiet;
      }
      return Due;
    }

    method StaleStopLocked(record: RobotRecord, robot: Socket, operator: Socket) returns (sent: bool)
      modifies record
      ensures sent <==> old(record.robot) == Some(robot) && old(record.operator) == Some(operator)
      ensures record.Value() == if sent then old(record.Value()).StaleStopped() else old(record.Value())
    {
      if record.robot != Some(robot) || record.operator != Some(operator) {
        return false;
      }
      record.operator := None;
      record.operatorName := None;
      record.startInProgress := false;
      record.staleDeadline := None;
      record.sweepMark := Some(OfflineMark);
      return true;
    }

    /** Returns the sockets to tell and to close. */
    method ForgetRobot(record: RobotRecord) returns (forgotten: bool, robot: Option<Socket>, operator: Option<Socket>)
      requires Valid()
      modifies this, record
      ensures Valid() && forgotten == old(record in robots.Values && record.id !in db)
      ensures robots == if forgotten then old(robots) - {record.id} else old(robots)
      ensures db == old(db) && operatorWs == old(operatorWs) && wsUser == old(wsUser) && loginHash == old(loginHash)
      ensures record.Value() == if forgotten then old(record.Value()).Forgotten() else old(record.Value())
      ensures (robot, operator) == if forgotten then (old(record.robot), old(record.operator)) else (None, None)
    {
      if record.id !in robots || robots[record.id] != record {
        return false, None, None;
      }
      if record.id in db {
        return false, None, None;
      }
      forgotten, robot, operator := true, record.robot, record.operator;
      robots := robots - {record.id};
      record.robot := None;
      record.operator := None;
      record.operatorName := None;
      record.startInProgress := false;
      record.staleDeadline := None;
      record.sweepMark := None;
    }

    /** The password matched: its hash is kept for as long as the login lasts. */
    method LoginAccepted(username: string, secretHash: int)
      modifies this`loginHash
      ensures loginHash == old(loginHash)[username := secretHash]
    {
      loginHash := loginHash[username := secretHash];
    }

    method LoginCommit(ws: Socket, username: string)
      modifies this`operatorWs, this`wsUser
      ensures operatorWs == old(operatorWs)[username := ws] && wsUser == old(wsUser)[ws := username]
    {
      operatorWs := operatorWs[username := ws];
      wsUser := wsUser[ws := username];
    }

    /**
      The dictionary part of a drop: as `Hub.Logout`, and a password hash that no socket is logged
      in under goes too.
     */
    method Logout(ws: Socket) returns (username: Option<string>)
      modifies this`operatorWs, this`wsUser, this`loginHash
      ensures username == if ws in old(wsUser) then Some(old(wsUser)[ws]) else None
      ensures forall h: Hub :: h.operatorWs == old(operatorWs) && h.wsUser == old(wsUser) ==>
                h.Logout(ws).operatorWs == operatorWs && h.Logout(ws).wsUser == wsUser
      ensures loginHash == if username.Some? && username.value !in operatorWs then old(loginHash) - {username.value}
                           else old(loginHash)
    {
      if ws !in wsUser {
        return None;
      }
      var user := wsUser[ws];
      wsUser := wsUser - {ws};
      if user in operatorWs && operatorWs[user] == ws {
        operatorWs := operatorWs - {user};
      }
      if user in loginHash && user !in operatorWs {
        loginHash := loginHash - {user};
      }
      return Some(user);
    }
  }
}
