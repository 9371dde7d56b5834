/**
  The operator process's gripper and joint key machine. `OperatorValue` gives each locked section
  as one step; the class is the host, with the fields that the key machine uses.
 */
module OperatorKeys {
  import opened Wrappers
  import opened Motion
  import opened Gripper
  import opened Leader

  const GRIPPER_HOLD := 0.5
  const JOG_POSITIVE := 2.0
  const JOG_NEGATIVE := -1.0

  datatype Direction = Open | Close | Stop | Jog(index: nat, sign: int)

  /** KEY_BINDINGS followed by ARM_JOINT. */
  function Binding(key: char): Option<Direction> {
    match key
    case 'w' => Some(Jog(1, 1))
    case 's' => Some(Jog(1, -1))
    case 'a' => Some(Jog(0, 1))
    case 'd' => Some(Jog(0, -1))
    case 'r' => Some(Jog(2, 1))
    case 'f' => Some(Jog(2, -1))
    case 'j' => Some(Jog(0, 1))
    case 'l' => Some(Jog(0, -1))
    case 'u' => Some(Jog(4, 1))
    case 'o' => Some(Jog(4, -1))
    case 'i' => Some(Jog(3, 1))
    case 'k' => Some(Jog(3, -1))
    case ' ' => Some(Stop)
    case 'g' => Some(Open)
    case 'h' => Some(Close)
    case _ => None
  }

  /** Never the latched float, so a press is always a change on the wire. */
  function GripperStepValue(latched: real, open: bool): real {
    if open then if latched == 1.0 then 0.75 else 1.0
    else if latched == 0.25 then 0.0 else 0.25
  }

  function AllHold(): seq<real> {
    [JOINT_HOLD, JOINT_HOLD, JOINT_HOLD, JOINT_HOLD, JOINT_HOLD]
  }

  /** What the leader reader reports at one emit: a jaw fraction and the five joints, if read. */
  datatype Sample = Sample(jaw: Option<Float>, joints: seq<Option<Float>>)

  datatype OperatorValue = OperatorValue(
    connected: bool, socketOpen: bool, leader: bool,
    gripper: real, gripperSent: Option<real>, gripperUnsent: bool, gripperRelease: bool, gripperKey: Option<char>,
    joints: seq<real>, jointKey: Option<char>)
  {
    function StepBase(): real {
      if gripperSent == None then GRIPPER_HOLD else gripperSent.value
    }

    /** A keydown that counts: not auto-repeat, not ignored. */
    predicate IsPress(key: char, down: bool) {
      down && connected && !leader && Binding(key) in {Some(Open), Some(Close)} && gripperKey != Some(key)
    }

    function ReleaseGripperKey(): OperatorValue {
      if gripperUnsent then this.(gripperKey := None, gripperRelease := true)
      else this.(gripperKey := None, gripper := GRIPPER_HOLD, gripperUnsent := gripperSent != Some(GRIPPER_HOLD))
    }

    function ApplyKey(key: char, down: bool): OperatorValue {
      var direction := Binding(key);
      if direction == None || leader || !connected then this
      else
        match direction.value
        case Open => GripperKey(key, down, true)
        case Close => GripperKey(key, down, false)
        case Stop => if down then this.(joints := AllHold(), jointKey := None, gripperKey := None) else this
        case Jog(index, sign) =>
          if down then
            if jointKey == Some(key) then this
            else this.(joints := if index < 5 then AllHold()[index := if sign > 0 then JOG_POSITIVE else JOG_NEGATIVE]
                                 else AllHold(),
                       jointKey := Some(key))
          else if jointKey == Some(key) then this.(joints := AllHold(), jointKey := None)
          else this
    }

    function GripperKey(key: char, down: bool, open: bool): OperatorValue {
      if down then
        if gripperKey == Some(key) then this
        else this.(gripper := GripperStepValue(StepBase(), open), gripperUnsent := true, gripperRelease := false,
                   gripperKey := Some(key))
      else if gripperKey == Some(key) then ReleaseGripperKey()
      else this
    }

    /** The gripper float an emit would carry. */
    function EmittedGripper(sample: Sample): real {
      if !leader then gripper
      else if sample.jaw == None then GRIPPER_HOLD
      else EncodeGripperFraction(sample.jaw.value)
    }

    /** The first five floats of the joint command. */
    function EmittedJoints(sample: Sample, hold: bool): seq<real> {
      if hold then AllHold()
      else if !leader then joints
      else
        seq(5, i => if i < 0 || i >= |sample.joints| || sample.joints[i] == None then JOINT_HOLD
                    else EncodeJointFraction(sample.joints[i].value))
    }

    function NoteGripperSent(): OperatorValue {
      var sent := this.(gripperSent := Some(gripper), gripperUnsent := false);
      if leader then sent.(gripperRelease := false)
      else if !gripperRelease then sent
      else sent.(gripperRelease := false, gripper := GRIPPER_HOLD, gripperUnsent := true)
    }

    function EmitCommand(sample: Sample): OperatorValue {
      if !socketOpen then this else this.(gripper := EmittedGripper(sample)).NoteGripperSent()
    }

    function Publish(sample: Sample): OperatorValue {
      if !connected || !socketOpen then this else EmitCommand(sample)
    }

    function End(sample: Sample): OperatorValue {
      if !connected then this
      else this.(connected := false, joints := AllHold(), jointKey := None, gripperKey := None, gripperRelease := false)
           .EmitCommand(sample)
    }

    function Begin(): OperatorValue {
      this.(connected := true, gripper := GRIPPER_HOLD, gripperKey := None, gripperRelease := false,
            gripperUnsent := gripperSent != Some(GRIPPER_HOLD), joints := AllHold(), jointKey := None)
    }

    function Attach(asLeader: bool, sample: Sample): OperatorValue {
      End(sample).(leader := asLeader).Begin()
    }

    function Detach(sample: Sample): OperatorValue {
      if !connected then this else End(sample).(leader := false)
    }

    function EnableLink(): OperatorValue {
      this.(socketOpen := true)
    }

    function DisableLink(): OperatorValue {
      this.(leader := false, gripper := GRIPPER_HOLD, joints := AllHold(), jointKey := None, socketOpen := false)
    }
  }

  datatype Command = Command(gripper: real, joints: seq<real>)

  class OperatorHost {
    var connected: bool
    var socketOpen: bool
    var leader: bool
    var gripper: real
    var gripperSent: Option<real>
    var gripperUnsent: bool
    var gripperRelease: bool
    var gripperKey: Option<char>
    var joints: seq<real>
    var jointKey: Option<char>

    function Value(): OperatorValue
      reads this
    {
      OperatorValue(connected, socketOpen, leader, gripper, gripperSent, gripperUnsent, gripperRelease, gripperKey,
                    joints, jointKey)
    }

    constructor ()
      ensures Value() == OperatorValue(false, false, false, GRIPPER_HOLD, None, false, false, None, AllHold(), None)
    {
      connected, socketOpen, leader := false, false, false;
      gripper, gripperSent, gripperUnsent, gripperRelease, gripperKey := GRIPPER_HOLD, None, false, false, None;
      joints, jointKey := AllHold(), None;
    }

    method ApplyKey(key: char, down: bool)
      modifies this
      ensures Value() == old(Value()).ApplyKey(key, down)
    {
      var direction := Binding(key);
      if direction == None || leader || !connected {
        return;
      }
      match direction.value {
        case Open => GripperKey(key, down, true);
        case Close => GripperKey(key, down, false);
        case Stop =>
          if down {
            joints := AllHold();
            jointKey := None;
            gripperKey := None;
          }
        case Jog(index, sign) =>
          if down {
            if jointKey != Some(key) {
              joints := AllHold();
              if index < 5 {
                joints := joints[index := if sign > 0 then JOG_POSITIVE else JOG_NEGATIVE];
              }
              jointKey := Some(key);
            }
          } else if jointKey == Some(key) {
            joints := AllHold();
            jointKey := None;
          }
      }
    }

    method GripperKey(key: char, down: bool, open: bool)
      modifies this
      ensures Value() == old(Value()).GripperKey(key, down, open)
    {
      if down {
        if gripperKey != Some(key) {
          var base := StepBase();
          gripper := GripperStepValue(base, open);
          gripperUnsent := true;
          gripperRelease := false;
          gripperKey := Some(key);
        }
      } else if gripperKey == Some(key) {
        ReleaseGripperKey();
      }
    }

    method StepBase() returns (base: real)
      ensures base == Value().StepBase()
    {
      if gripperSent == None {
        return GRIPPER_HOLD;
      }
      return gripperSent.value;
    }

    method ReleaseGripperKey()
      modifies this
      ensures Value() == old(Value()).ReleaseGripperKey()
    {
      gripperKey := None;
      if gripperUnsent {
        gripperRelease := true;
        return;
      }
      gripper := GRIPPER_HOLD;
      gripperUnsent := gripperSent != Some(GRIPPER_HOLD);
    }

    method NoteGripperSent()
      modifies this
      ensures Value() == old(Value()).NoteGripperSent()
    {
      gripperSent := Some(gripper);
      gripperUnsent := false;
      if leader {
        gripperRelease := false;
        return;
      }
      if !gripperRelease {
        return;
      }
      gripperRelease := false;
      gripper := GRIPPER_HOLD;
      gripperUnsent := true;
    }

    method JointCommand(sample: Sample, hold: bool) returns (values: seq<real>)
      ensures values == Value().EmittedJoints(sample, hold)
    {
      if hold {
        return AllHold();
      }
      if !leader {
        return joints;
      }
      values := [];
      for i := 0 to 5
        invariant |values| == i
        invariant forall k :: 0 <= k < i ==> values[k] == Value().EmittedJoints(sample, false)[k]
      {
        if i >= |sample.joints| || sample.joints[i] == None {
          values := values + [JOINT_HOLD];
        } else {
          values := values + [EncodeJointFraction(sample.joints[i].value)];
        }
      }
    }

    /** The two datagrams of one emit, or none when the socket is closed. */
    method EmitCommand(sample: Sample, hold: bool) returns (sent: Option<Command>)
      modifies this
      ensures Value() == old(Value()).EmitCommand(sample)
      ensures sent == if !old(socketOpen) then None
                      else Some(Command(old(Value()).EmittedGripper(sample), old(Value()).EmittedJoints(sample, hold)))
    {
      hide EncodeGripperFraction, EncodeJointFraction;
      if !socketOpen {
        return None;
      }
      if leader {
        if sample.jaw == None {
          gripper := GRIPPER_HOLD;
        } else {
          gripper := EncodeGripperFraction(sample.jaw.value);
        }
      }
      var values := JointCommand(sample, hold);
      sent := Some(Command(gripper, values));
      NoteGripperSent();
    }

    method Publish(sample: Sample) returns (sent: Option<Command>)
      modifies this
      ensures Value() == old(Value()).Publish(sample)
      ensures sent == if !old(connected) || !old(socketOpen) then None
                      else Some(Command(old(Value()).EmittedGripper(sample), old(Value()).EmittedJoints(sample, false)))
    {
      if !connected || !socketOpen {
        return None;
      }
      sent := EmitCommand(sample, false);
    }

    /** The last packet of a session holds the joints and keeps the jaw float. */
    method End(sample: Sample) returns (sent: Option<Command>)
      modifies this
      ensures Value() == old(Value()).End(sample)
      ensures sent.Some? <==> old(connected && socketOpen)
      ensures sent.Some? ==> sent.value == Command(old(Value()).EmittedGripper(sample), AllHold())
    {
      if !connected {
        return None;
      }
      connected := false;
      joints := AllHold();
      jointKey, gripperKey := None, None;
      gripperRelease := false;
      sent := EmitCommand(sample, true);
    }

    method Begin()
      modifies this
      ensures Value() == old(Value()).Begin()
    {
      connected := true;
      gripper := GRIPPER_HOLD;
      gripperKey := None;
      gripperRelease := false;
      gripperUnsent := gripperSent != Some(GRIPPER_HOLD);
      joints := AllHold();
      jointKey := None;
    }

    method Attach(asLeader: bool, sample: Sample) returns (sent: Option<Command>)
      modifies this
      ensures Value() == old(Value()).Attach(asLeader, sample)
      ensures sent.Some? <==> old(connected && socketOpen)
      ensures sent.Some? ==> sent.value == Command(old(Value()).EmittedGripper(sample), AllHold())
    {
      sent := End(sample);
      leader := asLeader;
      Begin();
    }

    method Detach(sample: Sample) returns (sent: Option<Command>)
      modifies this
      ensures Value() == old(Value()).Detach(sample)
      ensures sent.Some? <==> old(connected && socketOpen)
      ensures sent.Some? ==> sent.value == Command(old(Value()).EmittedGripper(sample), AllHold())
    {
      if !connected {
        return None;
      }
      sent := End(sample);
      leader := false;
    }

    method EnableLink()
      modifies this
      ensures Value() == old(Value()).EnableLink()
    {
      socketOpen := true;
    }

    method DisableLink()
      modifies this
      ensures Value() == old(Value()).DisableLink()
    {
      leader := false;
      gripper := GRIPPER_HOLD;
      joints := AllHold();
      jointKey := None;
      socketOpen := false;
    }
  }
}
