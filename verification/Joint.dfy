/**
  The policy for servos 1 to 5: a jog token steps once per received command, a leader fraction
  is walked to, a deadman drops every goal. `JointValue` and `ArmValue` give the controller's
  steps; the class is the controller with its parallel lists.
 */
module Joint {
  import opened Wrappers
  import opened Motion
  import opened Gripper
  import opened Leader

  const ARM_COUNT := 5

  /** The sign of a jog token, zero for a hold, None for anything to be read as a fraction. */
  function JointMotion(value: Float): Option<int> {
    if !value.Finite? then None
    else if Near(value.r, 2.0) || Near(value.r, 1.5) then Some(1)
    else if Near(value.r, -1.0) || Near(value.r, -0.5) then Some(-1)
    else if Near(value.r, JOINT_HOLD) then Some(0)
    else None
  }

  /** Close enough to [0, 1] to be a fraction. */
  predicate InFractionRange(value: Float) {
    value.Finite? && -TOKEN_TOLERANCE <= value.r <= 1.0 + TOKEN_TOLERANCE
  }

  /** Within one step of the present position or of the last goal. */
  predicate GoalIsOneStep(goal: int, present: Option<int>, last: Option<int>, maxDelta: int) {
    || (present.Some? && Abs(goal - present.value) <= maxDelta)
    || (last.Some? && Abs(goal - last.value) <= maxDelta)
  }

  datatype Limits = Limits(low: int, high: int) {
    predicate Inside(position: int) {
      low <= position <= high
    }
  }

  datatype JointGoal = JointGoal(servoId: int, torqueEnable: bool, goalPosition: Option<int>, present: Option<int>)

  datatype ArmOutput = ArmOutput(deadman: Option<Deadman>, joints: seq<JointGoal>)

  /** One slot of the controller's lists. */
  datatype JointValue = JointValue(limits: Option<Limits>, goal: Option<int>, output: Option<int>, value: Float, steppedGen: int)
  {
    function SetLimits(low: Option<int>, high: Option<int>): JointValue {
      if low == None || high == None || high.value <= low.value
      then this.(limits := None, goal := None, output := None, steppedGen := -1)
      else this.(limits := Some(Limits(low.value, high.value)))
    }

    function Released(): JointValue {
      this.(goal := None, output := None, steppedGen := -1)
    }

    function Keep(): JointValue {
      this.(output := goal)
    }

    predicate Usable(present: Option<int>)
      requires limits.Some?
    {
      present.Some? && limits.value.Inside(present.value)
    }

    function Hold(present: Option<int>): JointValue
      requires limits.Some?
    {
      if goal == None && Usable(present) then this.(goal := present, output := present) else Keep()
    }

    /** One bounded step from the last goal, or the present position, towards the fraction. */
    function TrackFraction(present: Option<int>, maxDelta: int): JointValue
      requires limits.Some? && value.Finite?
    {
      if goal == None && !Usable(present) then this.(output := None)
      else
        var low, high := limits.value.low, limits.value.high;
        var base := if goal == None then present.value else goal.value;
        var target := Clamp(MapFraction(value.r, low, high), low, high);
        var stepped := Clamp(ClampTinyDelta(target, base, maxDelta), low, high);
        this.(goal := Some(stepped), output := Some(stepped))
    }

    /** The goal of a jog: one step from the present position, near the last goal, within limits. */
    function JogGoal(sign: int, present: int, maxDelta: int): int
      requires limits.Some?
    {
      var low, high := limits.value.low, limits.value.high;
      var stepped := Clamp(present + sign * maxDelta, low, high);
      if goal.Some? then Clamp(ClampTinyDelta(stepped, goal.value, maxDelta), low, high) else stepped
    }

    function Jog(sign: int, present: Option<int>, maxDelta: int, gen: int): JointValue
      requires limits.Some?
    {
      if !Usable(present) || steppedGen == gen then Keep()
      else
        var stepped := JogGoal(sign, present.value, maxDelta);
        this.(goal := Some(stepped), output := Some(stepped), steppedGen := gen)
    }

    function StepOne(present: Option<int>, maxDelta: int, gen: int): JointValue {
      if limits == None then this.(goal := None, output := None)
      else if JointMotion(value) == None then
        if !InFractionRange(value) then Keep() else TrackFraction(present, maxDelta)
      else if JointMotion(value) == Some(0) then Hold(present)
      else Jog(JointMotion(value).value, present, maxDelta, gen)
    }

    function Goal(index: int, present: Option<int>): JointGoal {
      JointGoal(index + 1, limits.Some? && output.Some?, if limits.Some? then output else None, present)
    }
  }

  function At<T>(list: seq<Option<T>>, index: nat): Option<T> {
    if index < |list| then list[index] else None
  }

  datatype ArmValue = ArmValue(
    maxDelta: int, commandTimeoutS: real, joints: seq<JointValue>, lastCmdS: Option<real>, commandGen: int,
    seenState: bool, connectionState: string, watchdogState: string, live: bool)
  {
    function DeadmanReason(nowS: real): Option<Deadman> {
      if lastCmdS == None then Some(NoCommand)
      else if nowS - lastCmdS.value > commandTimeoutS then Some(CommandTimeout)
      else if exists i :: 0 <= i < |joints| && !joints[i].value.Finite? then Some(NonFinite)
      else if !seenState then Some(NoState)
      else if watchdogState != WATCHDOG_OK then Some(BadWatchdog(if watchdogState == "" then SAFE_STOP else watchdogState))
      else if connectionState != CONNECTED then Some(BadLink(if connectionState == "" then TIMEOUT else connectionState))
      else None
    }

    function SetLimits(index: int, low: Option<int>, high: Option<int>): ArmValue
      requires 0 <= index < |joints|
    {
      this.(joints := joints[index := joints[index].SetLimits(low, high)])
    }

    function CommandFor(values: seq<Float>, index: nat): Float {
      if index < |values| then values[index] else Finite(JOINT_HOLD)
    }

    function OnCommand(values: seq<Float>, nowS: real): ArmValue {
      this.(lastCmdS := Some(nowS), commandGen := commandGen + 1,
            joints := seq(|joints|, i requires 0 <= i < |joints| => joints[i].(value := CommandFor(values, i))))
    }

    function OnTeleopState(connection: string, watchdog: string): ArmValue {
      this.(seenState := true, connectionState := connection, watchdogState := watchdog)
    }

    function Tick(nowS: real, presents: seq<Option<int>>): ArmValue {
      if DeadmanReason(nowS).Some? then
        this.(live := false, joints := seq(|joints|, i requires 0 <= i < |joints| => joints[i].Released()))
      else
        this.(live := true,
              joints := seq(|joints|, i requires 0 <= i < |joints| => joints[i].StepOne(At(presents, i), maxDelta, commandGen)))
    }

    function Goals(presents: seq<Option<int>>): seq<JointGoal> {
      seq(|joints|, i requires 0 <= i < |joints| => joints[i].Goal(i, At(presents, i)))
    }

    function TickOutput(nowS: real, presents: seq<Option<int>>): ArmOutput {
      ArmOutput(DeadmanReason(nowS), Tick(nowS, presents).Goals(presents))
    }
  }

  function FreshJoint(): JointValue {
    JointValue(None, None, None, Finite(JOINT_HOLD), -1)
  }

  /** The controller as constructed: no limits yet, and holds. */
  function NewArm(maxDelta: int, commandTimeoutS: real): ArmValue {
    var none := FreshJoint();
    ArmValue(maxDelta, commandTimeoutS, [none, none, none, none, none], None, 0, false, TIMEOUT, SAFE_STOP, false)
  }

  class JointArmController {
    const maxDelta: int
    const commandTimeoutS: real
    var limits: seq<Option<Limits>>
    var goal: seq<Option<int>>
    var output: seq<Option<int>>
    var values: seq<Float>
    var steppedGen: seq<int>
    var lastCmdS: Option<real>
    var commandGen: int
    var seenState: bool
    var connectionState: string
    var watchdogState: string
    var live: bool

    predicate Valid()
      reads this
    {
      |limits| == |goal| == |output| == |values| == |steppedGen| == ARM_COUNT
    }

    function Slot(index: nat): JointValue
      requires Valid() && index < ARM_COUNT
      reads this
    {
      JointValue(limits[index], goal[index], output[index], values[index], steppedGen[index])
    }

    function Value(): (v: ArmValue)
      requires Valid()
      reads this
      ensures |v.joints| == ARM_COUNT
    {
      var joints := [Slot(0), Slot(1), Slot(2), Slot(3), Slot(4)];
      ArmValue(maxDelta, commandTimeoutS, joints, lastCmdS, commandGen, seenState, connectionState, watchdogState, live)
    }

    constructor (maxDelta: int, commandTimeoutS: real)
      requires maxDelta > 0
      ensures Valid()
      ensures Value() == NewArm(maxDelta, commandTimeoutS)
    {
      this.maxDelta, this.commandTimeoutS := maxDelta, commandTimeoutS;
      limits, goal, output := [None, None, None, None, None], [None, None, None, None, None], [None, None, None, None, None];
      var hold := Finite(JOINT_HOLD);
      values, steppedGen := [hold, hold, hold, hold, hold], [-1, -1, -1, -1, -1];
      lastCmdS, commandGen := None, 0;
      seenState, connectionState, watchdogState, live := false, TIMEOUT, SAFE_STOP, false;
    }

    /** Refused for an index that is not an arm joint. */
    method SetLimits(index: int, low: Option<int>, high: Option<int>) returns (refused: bool)
      requires Valid()
      modifies this
      ensures Valid() && refused == !(0 <= index < ARM_COUNT)
      ensures Value() == if refused then old(Value()) else old(Value()).SetLimits(index, low, high)
    {
      if index < 0 || index >= ARM_COUNT {
        return true;
      }
      refused := false;
      SetSlot(index, low, high);
    }

    method SetSlot(index: nat, low: Option<int>, high: Option<int>)
      requires Valid() && index < ARM_COUNT
      modifies `limits, `goal, `output, `steppedGen
      ensures Valid()
      ensures Slot(index) == old(Slot(index)).SetLimits(low, high)
      ensures forall k :: 0 <= k < ARM_COUNT && k != index ==> Slot(k) == old(Slot(k))
    {
      if low == None || high == None || high.value <= low.value {
        limits := limits[index := None];
        goal := goal[index := None];
        output := output[index := None];
        steppedGen := steppedGen[index := -1];
        return;
      }
      limits := limits[index := Some(Limits(low.value, high.value))];
    }

    method OnCommand(values: seq<Float>, nowS: real)
      requires Valid()
      modifies this
      ensures Valid() && Value() == old(Value()).OnCommand(values, nowS)
    {
      lastCmdS := Some(nowS);
      commandGen := commandGen + 1;
      for index := 0 to ARM_COUNT
        invariant Valid() && unchanged(`limits, `goal, `output, `steppedGen, `seenState, `connectionState, `watchdogState, `live)
        invariant lastCmdS == Some(nowS) && commandGen == old(commandGen) + 1
        invariant forall k :: 0 <= k < index ==> this.values[k] == Value().CommandFor(values, k)
      {
        if index < |values| {
          this.values := this.values[index := values[index]];
        } else {
          this.values := this.values[index := Finite(JOINT_HOLD)];
        }
      }
    }

    method OnTeleopState(connection: string, watchdog: string)
      requires Valid()
      modifies this
      ensures Valid() && Value() == old(Value()).OnTeleopState(connection, watchdog)
    {
      seenState := true;
      connectionState := connection;
      watchdogState := watchdog;
    }

    method DeadmanReason(nowS: real) returns (reason: Option<Deadman>)
      requires Valid()
      ensures reason == Value().DeadmanReason(nowS)
    {
      if lastCmdS == None {
        return Some(NoCommand);
      }
      if nowS - lastCmdS.value > commandTimeoutS {
        return Some(CommandTimeout);
      }
      for index := 0 to ARM_COUNT
        invariant forall k :: 0 <= k < index ==> Value().joints[k].value.Finite?
      {
        if !values[index].Finite? {
          assert !Value().joints[index].value.Finite?;
          return Some(NonFinite);
        }
      }
      if !seenState {
        return Some(NoState);
      }
      if watchdogState != WATCHDOG_OK {
        return Some(BadWatchdog(if watchdogState == "" then SAFE_STOP else watchdogState));
      }
      if connectionState != CONNECTED {
        return Some(BadLink(if connectionState == "" then TIMEOUT else connectionState));
      }
      return None;
    }

    method Tick(nowS: real, presents: seq<Option<int>>) returns (out: ArmOutput)
      requires Valid()
      modifies this
      ensures Valid() && Value() == old(Value()).Tick(nowS, presents)
      ensures out == old(Value()).TickOutput(nowS, presents)
    {
      hide JointValue.StepOne, ArmValue.DeadmanReason;
      ghost var was := Value();
      var reason := DeadmanReason(nowS);
      if reason.Some? {
        goal, output := [None, None, None, None, None], [None, None, None, None, None];
        steppedGen := [-1, -1, -1, -1, -1];
        live := false;
        assert Value() == was.Tick(nowS, presents);
      } else {
        live := true;
        for index := 0 to ARM_COUNT
          invariant Valid()
          invariant Value() == was.(live := true, joints := Value().joints)
          invariant forall k :: 0 <= k < ARM_COUNT ==>
            Slot(k) == if k < index then was.joints[k].StepOne(At(presents, k), maxDelta, commandGen) else was.joints[k]
        {
          StepOne(index, At(presents, index));
        }
        assert Value().joints == was.Tick(nowS, presents).joints;
      }
      var joints := Goals(presents);
      return ArmOutput(reason, joints);
    }

    method StepOne(index: nat, present: Option<int>)
      requires Valid() && index < ARM_COUNT
      modifies `goal, `output, `steppedGen
      ensures Valid()
      ensures Slot(index) == old(Slot(index)).StepOne(present, maxDelta, commandGen)
      ensures forall k :: 0 <= k < ARM_COUNT && k != index ==> Slot(k) == old(Slot(k))
    {
      hide MapFraction, Clamp, ClampTinyDelta, JointMotion;
      if limits[index] == None {
        goal := goal[index := None];
        output := output[index := None];
        return;
      }
      var Limits(low, high) := limits[index].value;
      var value := values[index];
      var sign := JointMotion(value);
      if sign == None {
        if !value.Finite? || value.r < -TOKEN_TOLERANCE || value.r > 1.0 + TOKEN_TOLERANCE {
          output := output[index := goal[index]];
          return;
        }
        TrackFraction(index, present, low, high, value.r);
        return;
      }
      if sign.value == 0 {
        Hold(index, present, low, high);
        return;
      }
      if present == None || !(low <= present.value <= high) {
        output := output[index := goal[index]];
        return;
      }
      if steppedGen[index] == commandGen {
        output := output[index := goal[index]];
        return;
      }
      var stepped := Clamp(present.value + sign.value * maxDelta, low, high);
      if goal[index].Some? {
        stepped := Clamp(ClampTinyDelta(stepped, goal[index].value, maxDelta), low, high);
      }
      goal := goal[index := Some(stepped)];
      output := output[index := Some(stepped)];
      steppedGen := steppedGen[index := commandGen];
    }

    method Hold(index: nat, present: Option<int>, low: int, high: int)
      requires Valid() && index < ARM_COUNT && limits[index] == Some(Limits(low, high))
      modifies `goal, `output
      ensures Valid()
      ensures Slot(index) == old(Slot(index)).Hold(present)
      ensures forall k :: 0 <= k < ARM_COUNT && k != index ==> Slot(k) == old(Slot(k))
    {
      if goal[index] == None && present.Some? && low <= present.value <= high {
        goal := goal[index := present];
      }
      output := output[index := goal[index]];
    }

    method TrackFraction(index: nat, present: Option<int>, low: int, high: int, value: real)
      requires Valid() && index < ARM_COUNT && limits[index] == Some(Limits(low, high)) && values[index] == Finite(value)
      modifies `goal, `output
      ensures Valid()
      ensures Slot(index) == old(Slot(index)).TrackFraction(present, maxDelta)
      ensures forall k :: 0 <= k < ARM_COUNT && k != index ==> Slot(k) == old(Slot(k))
    {
      hide MapFraction, Clamp, ClampTinyDelta;
      var base;
      if goal[index] == None {
        if present == None || !(low <= present.value <= high) {
          output := output[index := None];
          return;
        }
        base := present.value;
      } else {
        base := goal[index].value;
      }
      var target := Clamp(MapFraction(value, low, high), low, high);
      var stepped := Clamp(ClampTinyDelta(target, base, maxDelta), low, high);
      goal := goal[index := Some(stepped)];
      output := output[index := Some(stepped)];
    }

    method Goals(presents: seq<Option<int>>) returns (goals: seq<JointGoal>)
      requires Valid()
      ensures goals == Value().Goals(presents)
    {
      goals := [];
      for index := 0 to ARM_COUNT
        invariant |goals| == index
        invariant forall k :: 0 <= k < index ==> goals[k] == Slot(k).Goal(k, At(presents, k))
      {
        var known := limits[index].Some?;
        goals := goals + [JointGoal(index + 1, known && output[index].Some?, if known then output[index] else None,
                                    At(presents, index))];
      }
    }
  }
}
