/**
  Runs of the arm controller in which the limits are set at any time: exactly when every goal
  stays inside its limits, and runs where a goal does not, or where a jog moves one backwards.
 */
module JointLimits {
  import opened Wrappers
  import opened Motion
  import opened Gripper
  import opened Joint
  import opened JointRuns

  datatype Call = LimitsCall(index: int, low: Option<int>, high: Option<int>) | Plain(e: ArmEvent)

  function Made(v: ArmValue, call: Call): ArmValue {
    match call
    case LimitsCall(index, low, high) => if 0 <= index < |v.joints| then v.SetLimits(index, low, high) else v
    case Plain(e) => Next(v, e)
  }

  function CallRun(v: ArmValue, calls: seq<Call>): ArmValue {
    if calls == [] then v else Made(CallRun(v, calls[..|calls| - 1]), calls[|calls| - 1])
  }

  /** New limits are unknown or empty, or there is no goal yet, or it is inside them. */
  predicate LeavesNoGoalOutside(v: ArmValue, call: Call) {
    call.LimitsCall? && 0 <= call.index < |v.joints| ==>
      || call.low == None || call.high == None || call.high.value <= call.low.value || v.joints[call.index].goal == None
      || call.low.value <= v.joints[call.index].goal.value <= call.high.value
  }

  lemma CallKeeps(v: ArmValue, call: Call)
    requires Sound(v)
    ensures Sound(Made(v, call)) <==> LeavesNoGoalOutside(v, call)
  {
    hide JointValue.SetLimits, SoundJoint;
    match call
    case Plain(e) => NextIsSound(v, e);
    case LimitsCall(index, low, high) =>
      if 0 <= index < |v.joints| {
        var t := Made(v, call);
        assert t.joints[index] == v.joints[index].SetLimits(low, high);
        assert SoundJoint(v.joints[index]);
        NewLimitsKeepSound(v.joints[index], low, high);
        assert forall i :: 0 <= i < |v.joints| && i != index ==> t.joints[i] == v.joints[i];
      }
  }

  lemma CallRunTurn(v: ArmValue, calls: seq<Call>, n: nat)
    requires n < |calls|
    ensures CallRun(v, calls[..n + 1]) == Made(CallRun(v, calls[..n]), calls[n])
  {
    assert calls[..n + 1][..n] == calls[..n];
  }

  lemma {:induction false} SoundSoFar(v: ArmValue, calls: seq<Call>, n: nat)
    requires Sound(v) && n <= |calls|
    requires forall k: nat :: k < n ==> LeavesNoGoalOutside(CallRun(v, calls[..k]), calls[k])
    ensures Sound(CallRun(v, calls[..n]))
  {
    if n > 0 {
      hide Sound, LeavesNoGoalOutside, Made;
      SoundSoFar(v, calls, n - 1);
      CallRunTurn(v, calls, n - 1);
      CallKeeps(CallRun(v, calls[..n - 1]), calls[n - 1]);
    }
  }

  lemma NewArmIsSound(maxDelta: int, timeoutS: real)
    requires maxDelta > 0
    ensures Sound(NewArm(maxDelta, timeoutS))
  {
  }

  /**
    In a run of a new controller every goal is always inside its limits, and put out, exactly when
    each change of limits leaves no goal outside.
   */
  lemma GoalsStayInside(maxDelta: int, timeoutS: real, calls: seq<Call>)
    requires maxDelta > 0
    ensures var arm := NewArm(maxDelta, timeoutS);
            && ((forall n: nat :: n <= |calls| ==> Sound(CallRun(arm, calls[..n])))
                <==> (forall n: nat :: n < |calls| ==> LeavesNoGoalOutside(CallRun(arm, calls[..n]), calls[n])))
  {
    hide Sound, LeavesNoGoalOutside, NewArm, CallRun;
    var arm := NewArm(maxDelta, timeoutS);
    NewArmIsSound(maxDelta, timeoutS);
    if forall n: nat :: n <= |calls| ==> Sound(CallRun(arm, calls[..n])) {
      forall n: nat | n < |calls| ensures LeavesNoGoalOutside(CallRun(arm, calls[..n]), calls[n]) {
        assert Sound(CallRun(arm, calls[..n])) && Sound(CallRun(arm, calls[..n + 1]));
        CallRunTurn(arm, calls, n);
        CallKeeps(CallRun(arm, calls[..n]), calls[n]);
      }
    }
    if forall n: nat :: n < |calls| ==> LeavesNoGoalOutside(CallRun(arm, calls[..n]), calls[n]) {
      forall n: nat | n <= |calls| ensures Sound(CallRun(arm, calls[..n])) {
        SoundSoFar(arm, calls, n);
      }
    }
  }

  // ---------- The limits themselves ----------

  /** The last range set for a joint, or none when that was unknown or empty. */
  function LastRange(calls: seq<Call>, i: nat): Option<(int, int)> {
    if calls == [] then None
    else
      match calls[|calls| - 1]
      case LimitsCall(index, Some(low), Some(high)) =>
        if index != i then LastRange(calls[..|calls| - 1], i) else if low < high then Some((low, high)) else None
      case LimitsCall(index, _, _) => if index != i then LastRange(calls[..|calls| - 1], i) else None
      case Plain(_) => LastRange(calls[..|calls| - 1], i)
  }

  predicate LimitsAre(v: ArmValue, calls: seq<Call>) {
    && |v.joints| == ARM_COUNT
    && forall i: nat :: i < ARM_COUNT ==>
         v.joints[i].limits == if LastRange(calls, i) == None then None
                               else Some(Limits(LastRange(calls, i).value.0, LastRange(calls, i).value.1))
  }

  lemma NextKeepsLimits(v: ArmValue, e: ArmEvent)
    requires |v.joints| == ARM_COUNT
    ensures var t := Next(v, e); |t.joints| == ARM_COUNT && forall i :: 0 <= i < ARM_COUNT ==> t.joints[i].limits == v.joints[i].limits
  {
    hide ArmValue.DeadmanReason, JointMotion, InFractionRange, MapFraction;
  }

  /** Over every run each joint has the last range set for it, if that was one; nothing else changes its limits. */
  lemma {:induction false} LimitsFollowCalls(maxDelta: int, timeoutS: real, calls: seq<Call>)
    ensures LimitsAre(CallRun(NewArm(maxDelta, timeoutS), calls), calls)
  {
    if calls != [] {
      hide Next;
      var init, last := calls[..|calls| - 1], calls[|calls| - 1];
      LimitsFollowCalls(maxDelta, timeoutS, init);
      if last.Plain? {
        NextKeepsLimits(CallRun(NewArm(maxDelta, timeoutS), init), last.e);
      }
    }
  }

  // ---------- When the arm is live, from the calls alone ----------

  function LastCommand(calls: seq<Call>): (k: Option<nat>)
    ensures k.Some? ==> k.value < |calls| && calls[k.value].Plain? && calls[k.value].e.Command?
  {
    if calls == [] then None
    else
      var last := calls[|calls| - 1];
      if last.Plain? && last.e.Command? then Some(|calls| - 1) else LastCommand(calls[..|calls| - 1])
  }

  function LastState(calls: seq<Call>): (k: Option<nat>)
    ensures k.Some? ==> k.value < |calls| && calls[k.value].Plain? && calls[k.value].e.State?
  {
    if calls == [] then None
    else
      var last := calls[|calls| - 1];
      if last.Plain? && last.e.State? then Some(|calls| - 1) else LastState(calls[..|calls| - 1])
  }

  /** The floats of a command for the five joints are numbers; those missing are holds. */
  predicate FiveNumbers(values: seq<Float>) {
    forall i :: 0 <= i < ARM_COUNT && i < |values| ==> values[i].Finite?
  }

  /** The last command came in time and is numbers, and the last state told was OK and CONNECTED. */
  predicate LiveAt(calls: seq<Call>, timeoutS: real, nowS: real) {
    var k, j := LastCommand(calls), LastState(calls);
    && k.Some? && nowS - calls[k.value].e.nowS <= timeoutS && FiveNumbers(calls[k.value].e.values)
    && j.Some? && calls[j.value].e.watchdog == WATCHDOG_OK && calls[j.value].e.connection == CONNECTED
  }

  predicate ValuesAre(v: ArmValue, values: seq<Float>) {
    && |v.joints| == ARM_COUNT
    && forall i :: 0 <= i < ARM_COUNT ==> v.joints[i].value == if i < |values| then values[i] else Finite(Leader.JOINT_HOLD)
  }

  predicate Follows(v: ArmValue, timeoutS: real, calls: seq<Call>) {
    var k, j := LastCommand(calls), LastState(calls);
    && v.commandTimeoutS == timeoutS
    && v.lastCmdS == (if k == None then None else Some(calls[k.value].e.nowS))
    && ValuesAre(v, if k == None then [] else calls[k.value].e.values)
    && v.seenState == j.Some?
    && (j.Some? ==> v.connectionState == calls[j.value].e.connection && v.watchdogState == calls[j.value].e.watchdog)
  }

  lemma TickKeepsValues(v: ArmValue, values: seq<Float>, nowS: real, presents: seq<Option<int>>)
    requires ValuesAre(v, values)
    ensures ValuesAre(v.Tick(nowS, presents), values)
  {
    hide ArmValue.DeadmanReason, JointMotion, InFractionRange, MapFraction;
  }

  lemma CallKeepsFollowing(v: ArmValue, timeoutS: real, calls: seq<Call>, call: Call)
    requires Follows(v, timeoutS, calls)
    ensures Follows(Made(v, call), timeoutS, calls + [call])
  {
    assert (calls + [call])[..|calls|] == calls;
    if call.Plain? && call.e.ArmTick? {
      TickKeepsValues(v, if LastCommand(calls) == None then [] else calls[LastCommand(calls).value].e.values, call.e.nowS, call.e.presents);
      hide JointValue.StepOne, ArmValue.DeadmanReason, ValuesAre;
    }
  }

  lemma {:induction false} RunFollows(maxDelta: int, timeoutS: real, calls: seq<Call>)
    ensures Follows(CallRun(NewArm(maxDelta, timeoutS), calls), timeoutS, calls)
  {
    if calls != [] {
      hide Follows, Made;
      RunFollows(maxDelta, timeoutS, calls[..|calls| - 1]);
      CallKeepsFollowing(CallRun(NewArm(maxDelta, timeoutS), calls[..|calls| - 1]), timeoutS, calls[..|calls| - 1], calls[|calls| - 1]);
      assert calls[..|calls| - 1] + [calls[|calls| - 1]] == calls;
    }
  }

  lemma FiniteWhenNumbers(v: ArmValue, values: seq<Float>)
    requires ValuesAre(v, values)
    ensures (forall i :: 0 <= i < |v.joints| ==> v.joints[i].value.Finite?) <==> FiveNumbers(values)
  {
    if !FiveNumbers(values) {
      var i :| 0 <= i < ARM_COUNT && i < |values| && !values[i].Finite?;
      assert !v.joints[i].value.Finite?;
    }
  }

  /** What a tick puts out for a joint: torque exactly with a goal, a goal only when live and within known limits. */
  lemma OutputsGoals(v: ArmValue, nowS: real, presents: seq<Option<int>>, i: nat)
    requires |v.joints| == ARM_COUNT && i < ARM_COUNT
    ensures var out, after := v.TickOutput(nowS, presents), v.Tick(nowS, presents);
            && |out.joints| == |after.joints| == ARM_COUNT && out.joints[i].servoId == i + 1
            && out.joints[i].torqueEnable == out.joints[i].goalPosition.Some?
            && (out.deadman.Some? ==> out.joints[i].goalPosition == None && after.joints[i].goal == None)
            && (out.deadman == None && after.joints[i].limits.Some? ==> out.joints[i].goalPosition == after.joints[i].output)
            && (after.joints[i].limits == None ==> out.joints[i].goalPosition == None)
  {
    hide ArmValue.DeadmanReason, JointValue.StepOne;
  }

  /**
    After every run of a new controller, limits set at any time, a tick is live exactly when the
    last command came at most the timeout before it and is numbers, and the last state told was OK
    and CONNECTED. A tick that is not live turns every joint's torque off and drops every goal.
   */
  lemma ArmLiveExactly(maxDelta: int, timeoutS: real, calls: seq<Call>, nowS: real, presents: seq<Option<int>>)
    ensures var arm := CallRun(NewArm(maxDelta, timeoutS), calls);
            var out, after := arm.TickOutput(nowS, presents), arm.Tick(nowS, presents);
            && (out.deadman == None <==> LiveAt(calls, timeoutS, nowS)) && after.live == LiveAt(calls, timeoutS, nowS)
            && |out.joints| == |after.joints| == ARM_COUNT
            && (!LiveAt(calls, timeoutS, nowS) ==>
                  forall i :: 0 <= i < ARM_COUNT ==>
                    !out.joints[i].torqueEnable && out.joints[i].goalPosition == None && after.joints[i].goal == None)
  {
    hide CallRun, NewArm, FiveNumbers, JointValue.StepOne;
    RunFollows(maxDelta, timeoutS, calls);
    var arm := CallRun(NewArm(maxDelta, timeoutS), calls);
    FiniteWhenNumbers(arm, if LastCommand(calls) == None then [] else calls[LastCommand(calls).value].e.values);
    forall i: nat | i < ARM_COUNT
      ensures var out, after := arm.TickOutput(nowS, presents), arm.Tick(nowS, presents);
              out.deadman.Some? ==> !out.joints[i].torqueEnable && out.joints[i].goalPosition == None && after.joints[i].goal == None
    {
      OutputsGoals(arm, nowS, presents, i);
    }
  }

  // ---------- Two runs ----------

  lemma Then(v: ArmValue, calls: seq<Call>, call: Call) returns (more: seq<Call>)
    ensures more == calls + [call] && CallRun(v, more) == Made(CallRun(v, calls), call)
  {
    more := calls + [call];
    assert more[..|calls|] == calls;
  }

  /** Joint 0 is live, holds at 900 inside 0..1000, and has stepped for no command yet. */
  predicate HoldsAt900(v: ArmValue) {
    && Sound(v) && v.maxDelta == 48 && v.commandTimeoutS == 0.5 && v.DeadmanReason(0.0) == None
    && v.joints[0] == JointValue(Some(Limits(0, 1000)), Some(900), Some(900), Finite(Leader.JOINT_HOLD), -1)
    && v.commandGen == 1
  }

  lemma Holding() returns (calls: seq<Call>)
    ensures HoldsAt900(CallRun(NewArm(48, 0.5), calls))
  {
    hide MapFraction, CallRun;
    var arm := NewArm(48, 0.5);
    calls := [];
    assert CallRun(arm, []) == arm by { Nothing(arm); }
    NewArmIsSound(48, 0.5);
    var next := LimitsCall(0, Some(0), Some(1000));
    CallKeeps(CallRun(arm, calls), next);
    calls := Then(arm, calls, next);
    next := Plain(State(CONNECTED, WATCHDOG_OK));
    CallKeeps(CallRun(arm, calls), next);
    calls := Then(arm, calls, next);
    next := Plain(Command([], 0.0));
    CallKeeps(CallRun(arm, calls), next);
    calls := Then(arm, calls, next);
    next := Plain(ArmTick(0.0, [Some(900)]));
    CallKeeps(CallRun(arm, calls), next);
    calls := Then(arm, calls, next);
  }

  lemma Nothing(v: ArmValue)
    ensures CallRun(v, []) == v
  {
  }

  /** A known range moved off a goal: the controller goes on putting that goal out, live. */
  lemma MovedLimitsStrandAGoal() returns (calls: seq<Call>)
    ensures var r := CallRun(NewArm(48, 0.5), calls);
            && |r.joints| == ARM_COUNT && r.joints[0].limits == Some(Limits(0, 500)) && r.DeadmanReason(0.0) == None
            && |r.TickOutput(0.0, [Some(900)]).joints| == ARM_COUNT
            && r.TickOutput(0.0, [Some(900)]).joints[0].goalPosition == Some(900)
  {
    calls := Holding();
    hide MapFraction, CallRun, NewArm;
    calls := Then(NewArm(48, 0.5), calls, LimitsCall(0, Some(0), Some(500)));
  }

  /** A positive jog while the joint is far below its goal lowers the goal by a whole step. */
  lemma JogCanGoBack() returns (calls: seq<Call>)
    ensures var r := CallRun(NewArm(48, 0.5), calls);
            && Sound(r) && r.DeadmanReason(0.0) == None && JointMotion(r.joints[0].value) == Some(1)
            && r.joints[0].goal == Some(900) && r.Tick(0.0, [Some(100)]).joints[0].goal == Some(852)
  {
    calls := Holding();
    hide MapFraction, CallRun, NewArm;
    var jog := Plain(Command([Finite(2.0)], 0.0));
    CallKeeps(CallRun(NewArm(48, 0.5), calls), jog);
    var before := CallRun(NewArm(48, 0.5), calls);
    forall i | 0 <= i < |before.joints| ensures Made(before, jog).joints[i].value.Finite? {
      assert Made(before, jog).joints[i].value == before.CommandFor([Finite(2.0)], i);
    }
    calls := Then(NewArm(48, 0.5), calls, jog);
  }
}
