/**
  The servo bus and the two actuators that write it. The bus is the in-memory transport's
  registers behind the bus's id check and goal clamp; each actuator shadows what it last wrote
  and skips a repeated write.
 */
module ServoBus {
  import opened Wrappers
  import opened Motion
  import opened Gripper
  import opened Joint

  const GRIPPER_ID := 6

  function Get<T>(m: map<int, T>, key: int): Option<T> {
    if key in m then Some(m[key]) else None
  }

  lemma HasMember(s: set<int>)
    ensures s == {} || exists k :: k in s
  {
    if forall k :: k !in s {
      assert s == {};
    }
  }

  /** The registers, and every goal register write in order. */
  datatype BusValue = BusValue(torque: map<int, bool>, goal: map<int, int>, present: map<int, int>, goalWrites: seq<(int, int)>)
  {
    function WriteTorque(enable: bool, servo: int): BusValue {
      this.(torque := torque[servo := enable])
    }

    /** With torque on, the in-memory servo is at its goal at once. */
    function WriteGoal(ticks: int, servo: int): BusValue {
      var at := Clamp(ticks, POSITION_MIN, POSITION_MAX);
      this.(goal := goal[servo := at], goalWrites := goalWrites + [(servo, at)],
            present := if Get(torque, servo) == Some(true) then present[servo := at] else present)
    }
  }

  class Bus {
    var torque: map<int, bool>
    var goal: map<int, int>
    var present: map<int, int>
    var goalWrites: seq<(int, int)>

    function Value(): BusValue
      reads this
    {
      BusValue(torque, goal, present, goalWrites)
    }

    constructor (present: map<int, int>)
      ensures Value() == BusValue(map k | k in present :: false, present, present, [])
    {
      torque := map k | k in present :: false;
      goal, this.present, goalWrites := present, present, [];
    }

    /** Refused, with nothing written, unless the id is one of the six servos. */
    method WriteTorqueEnable(enable: bool, servo: int) returns (refused: bool)
      modifies this
      ensures refused == !(1 <= servo <= GRIPPER_ID)
      ensures Value() == if refused then old(Value()) else old(Value()).WriteTorque(enable, servo)
    {
      if servo < 1 || servo > GRIPPER_ID {
        return true;
      }
      torque := torque[servo := enable];
      return false;
    }

    method WriteGoalPosition(ticks: int, servo: int) returns (refused: bool)
      modifies this
      ensures refused == !(1 <= servo <= GRIPPER_ID)
      ensures Value() == if refused then old(Value()) else old(Value()).WriteGoal(ticks, servo)
    {
      if servo < 1 || servo > GRIPPER_ID {
        return true;
      }
      var at := Clamp(ticks, POSITION_MIN, POSITION_MAX);
      goal := goal[servo := at];
      goalWrites := goalWrites + [(servo, at)];
      if servo in torque && torque[servo] {
        present := present[servo := at];
      }
      return false;
    }
  }

  // ---------- The jaw's actuator ----------

  datatype JawState = JawState(lastTorque: Option<bool>, lastGoal: Option<int>, bus: BusValue)
  {
    function Apply(out: GripperOutput): JawState {
      if out.deadman.Some? then
        if lastTorque == Some(false) then this else JawState(Some(false), None, bus.WriteTorque(false, GRIPPER_ID))
      else
        var on := if lastTorque == Some(true) then this
                  else this.(lastTorque := Some(true), bus := bus.WriteTorque(true, GRIPPER_ID));
        if out.goalPosition == None || out.goalPosition == lastGoal then on
        else on.(lastGoal := out.goalPosition, bus := on.bus.WriteGoal(out.goalPosition.value, GRIPPER_ID))
    }
  }

  class GripperActuator {
    const bus: Bus
    var lastTorque: Option<bool>
    var lastGoal: Option<int>

    function Value(): JawState
      reads this, bus
    {
      JawState(lastTorque, lastGoal, bus.Value())
    }

    constructor (bus: Bus)
      ensures this.bus == bus && Value() == JawState(None, None, bus.Value())
    {
      this.bus := bus;
      lastTorque, lastGoal := None, None;
    }

    method Apply(out: GripperOutput)
      modifies this, bus
      ensures Value() == old(Value()).Apply(out)
    {
      if out.deadman.Some? {
        if lastTorque != Some(false) {
          var _ := bus.WriteTorqueEnable(false, GRIPPER_ID);
          lastTorque := Some(false);
          lastGoal := None;
        }
        return;
      }
      if lastTorque != Some(true) {
        var _ := bus.WriteTorqueEnable(true, GRIPPER_ID);
        lastTorque := Some(true);
      }
      if out.goalPosition == None {
        return;
      }
      if out.goalPosition != lastGoal {
        var _ := bus.WriteGoalPosition(out.goalPosition.value, GRIPPER_ID);
        lastGoal := out.goalPosition;
      }
    }
  }

  // ---------- The arm's actuator ----------

  datatype ArmState = ArmState(maxDelta: int, lastTorque: map<int, bool>, lastGoal: map<int, Option<int>>, bus: BusValue)
  {
    function LastGoal(servo: int): Option<int> {
      if servo in lastGoal then lastGoal[servo] else None
    }

    /** Torque off, if it was on, on every servo written so far but those still to do. */
    function ReleaseBut(todo: set<int>): ArmState {
      this.(lastTorque := Kept(todo), lastGoal := lastGoal + Forgotten(todo), bus := bus.(torque := bus.torque + Off(todo)))
    }

    function Kept(todo: set<int>): map<int, bool> {
      map k | k in lastTorque :: k in todo && lastTorque[k]
    }

    function Forgotten(todo: set<int>): map<int, Option<int>> {
      map k | k in lastTorque && k !in todo :: None
    }

    function Off(todo: set<int>): map<int, bool> {
      map k | k in lastTorque && k !in todo && lastTorque[k] :: false
    }

    function Release(): ArmState {
      ReleaseBut({})
    }

    function ReleaseOne(servo: int): ArmState
      requires servo in lastTorque
    {
      this.(lastTorque := lastTorque[servo := false], lastGoal := lastGoal[servo := None],
            bus := if lastTorque[servo] then bus.WriteTorque(false, servo) else bus)
    }

    lemma ReleaseNone()
      ensures ReleaseBut(lastTorque.Keys) == this
    {
      assert ReleaseBut(lastTorque.Keys).lastTorque == lastTorque;
      assert ReleaseBut(lastTorque.Keys).lastGoal == lastGoal;
      assert ReleaseBut(lastTorque.Keys).bus.torque == bus.torque;
    }

    lemma ReleaseTurn(todo: set<int>, servo: int)
      requires servo in todo && servo in lastTorque
      ensures servo in ReleaseBut(todo).lastTorque && ReleaseBut(todo).lastTorque.Keys == lastTorque.Keys
      ensures ReleaseBut(todo - {servo}) == ReleaseBut(todo).ReleaseOne(servo)
    {
      var rest := todo - {servo};
      assert Kept(rest) == Kept(todo)[servo := false];
      assert lastGoal + Forgotten(rest) == (lastGoal + Forgotten(todo))[servo := None] by {
        assert Forgotten(rest) == Forgotten(todo)[servo := None];
      }
      assert bus.torque + Off(rest) == if lastTorque[servo] then (bus.torque + Off(todo))[servo := false] else bus.torque + Off(todo) by {
        assert Off(rest) == if lastTorque[servo] then Off(todo)[servo := false] else Off(todo);
      }
    }

    function LetGo(servo: int): ArmState {
      this.(lastTorque := lastTorque[servo := false], lastGoal := lastGoal[servo := None],
            bus := if Get(lastTorque, servo) == Some(true) then bus.WriteTorque(false, servo) else bus)
    }

    function Drive(goal: int, servo: int): ArmState {
      var on := if Get(lastTorque, servo) == Some(true) then this
                else this.(lastTorque := lastTorque[servo := true], bus := bus.WriteTorque(true, servo));
      if Some(goal) == LastGoal(servo) then on
      else on.(lastGoal := lastGoal[servo := Some(goal)], bus := on.bus.WriteGoal(goal, servo))
    }

    function ApplyOne(joint: JointGoal): ArmState {
      if joint.servoId < 1 || joint.servoId > ARM_COUNT then this
      else if !joint.torqueEnable || joint.goalPosition == None then LetGo(joint.servoId)
      else if !GoalIsOneStep(joint.goalPosition.value, joint.present, LastGoal(joint.servoId), maxDelta) then this
      else Drive(joint.goalPosition.value, joint.servoId)
    }

    function ApplyAll(joints: seq<JointGoal>): ArmState {
      if joints == [] then this else ApplyAll(joints[..|joints| - 1]).ApplyOne(joints[|joints| - 1])
    }

    function Apply(out: ArmOutput): ArmState {
      if out.deadman.Some? then Release() else ApplyAll(out.joints)
    }
  }

  class JointActuator {
    const bus: Bus
    const maxDelta: int
    var lastTorque: map<int, bool>
    var lastGoal: map<int, Option<int>>

    predicate Valid()
      reads this
    {
      forall k :: k in lastTorque ==> 1 <= k <= ARM_COUNT
    }

    function Value(): ArmState
      reads this, bus
    {
      ArmState(maxDelta, lastTorque, lastGoal, bus.Value())
    }

    constructor (bus: Bus, maxDelta: int)
      ensures Valid() && this.bus == bus && Value() == ArmState(maxDelta, map[], map[], bus.Value())
    {
      this.bus, this.maxDelta := bus, maxDelta;
      lastTorque, lastGoal := map[], map[];
    }

    method Apply(out: ArmOutput)
      requires Valid()
      modifies this, bus
      ensures Valid() && Value() == old(Value()).Apply(out)
    {
      if out.deadman.Some? {
        Release();
        return;
      }
      hide ArmState.ApplyOne;
      ghost var was := Value();
      for i := 0 to |out.joints|
        invariant Valid() && Value() == was.ApplyAll(out.joints[..i])
      {
        ApplyOne(out.joints[i]);
        assert out.joints[..i + 1][..i] == out.joints[..i];
      }
      assert out.joints[..|out.joints|] == out.joints;
    }

    method Release()
      requires Valid()
      modifies this, bus
      ensures Valid() && Value() == old(Value()).Release()
    {
      hide ArmState.ReleaseBut, ArmState.ReleaseOne;
      ghost var was := Value();
      was.ReleaseNone();
      var todo := lastTorque.Keys;
      while todo != {}
        invariant Valid() && todo <= was.lastTorque.Keys && Value() == was.ReleaseBut(todo)
        decreases todo
      {
        HasMember(todo);
        var servo :| servo in todo;
        was.ReleaseTurn(todo, servo);
        ReleaseOne(servo);
        todo := todo - {servo};
      }
    }

    method ReleaseOne(servo: int)
      requires Valid() && servo in lastTorque
      modifies this, bus
      ensures Valid() && Value() == old(Value()).ReleaseOne(servo)
    {
      if lastTorque[servo] {
        var _ := bus.WriteTorqueEnable(false, servo);
      }
      lastTorque := lastTorque[servo := false];
      lastGoal := lastGoal[servo := None];
    }

    method ApplyOne(joint: JointGoal)
      requires Valid()
      modifies this, bus
      ensures Valid() && Value() == old(Value()).ApplyOne(joint)
    {
      var servo := joint.servoId;
      if servo < 1 || servo > ARM_COUNT {
        return;
      }
      if !joint.torqueEnable || joint.goalPosition == None {
        if Get(lastTorque, servo) == Some(true) {
          var _ := bus.WriteTorqueEnable(false, servo);
        }
        lastTorque := lastTorque[servo := false];
        lastGoal := lastGoal[servo := None];
        return;
      }
      var goal := joint.goalPosition.value;
      var last := if servo in lastGoal then lastGoal[servo] else None;
      if !GoalIsOneStep(goal, joint.present, last, maxDelta) {
        return;
      }
      if Get(lastTorque, servo) != Some(true) {
        var _ := bus.WriteTorqueEnable(true, servo);
        lastTorque := lastTorque[servo := true];
      }
      if Some(goal) != last {
        var _ := bus.WriteGoalPosition(goal, servo);
        lastGoal := lastGoal[servo := Some(goal)];
      }
    }
  }

  // ---------- The reference: the same outputs, with every register written at every tick ----------

  function EagerJaw(bus: BusValue, out: GripperOutput): BusValue {
    if out.deadman.Some? then bus.WriteTorque(false, GRIPPER_ID)
    else
      var on := bus.WriteTorque(true, GRIPPER_ID);
      if out.goalPosition == None then on else on.WriteGoal(out.goalPosition.value, GRIPPER_ID)
  }

  function EagerOne(bus: BusValue, joint: JointGoal): BusValue {
    if !joint.torqueEnable || joint.goalPosition == None then bus.WriteTorque(false, joint.servoId)
    else bus.WriteTorque(true, joint.servoId).WriteGoal(joint.goalPosition.value, joint.servoId)
  }

  function EagerAll(bus: BusValue, joints: seq<JointGoal>): BusValue {
    if joints == [] then bus else EagerOne(EagerAll(bus, joints[..|joints| - 1]), joints[|joints| - 1])
  }

  function EagerArm(bus: BusValue, out: ArmOutput): BusValue {
    if out.deadman.Some? then bus.(torque := bus.torque + map[1 := false, 2 := false, 3 := false, 4 := false, 5 := false])
    else EagerAll(bus, out.joints)
  }
}
