/**
  The whole follower: both controllers, both actuators, one bus. Beside the real bus runs an
  eager one, on which the same controller outputs are written in full at every tick.
 */
module Robot {
  import opened Wrappers
  import opened Motion
  import opened Gripper
  import opened Joint
  import opened JointRuns
  import opened ServoBus

  datatype RobotValue = RobotValue(
    jaw: GripperValue, arm: ArmValue, jawTorque: Option<bool>, jawGoal: Option<int>,
    armTorque: map<int, bool>, armGoal: map<int, Option<int>>, bus: BusValue, eager: BusValue)
  {
    function Jaw(): JawState {
      JawState(jawTorque, jawGoal, bus)
    }

    function Arm(onBus: BusValue): ArmState {
      ArmState(arm.maxDelta, armTorque, armGoal, onBus)
    }
  }

  datatype RobotEvent =
    | JointCommand(values: seq<Float>, nowS: real)
    | GripperSafe(value: Float, nowS: real)
    | TeleopState(connection: string, watchdog: string)
    | NodeTick(nowS: real, jawPresent: int, presents: seq<Option<int>>)

  /** The jaw's controller and actuator, then the arm's. */
  function TickNode(r: RobotValue, nowS: real, jawPresent: int, presents: seq<Option<int>>): RobotValue {
    var out := r.jaw.TickOutput(nowS, jawPresent);
    var jaw := r.Jaw().Apply(out);
    var armOut := r.arm.TickOutput(nowS, presents);
    var arm := r.Arm(jaw.bus).Apply(armOut);
    RobotValue(r.jaw.Tick(nowS, jawPresent), r.arm.Tick(nowS, presents), jaw.lastTorque, jaw.lastGoal,
               arm.lastTorque, arm.lastGoal, arm.bus, EagerArm(EagerJaw(r.eager, out), armOut))
  }

  function Step(r: RobotValue, e: RobotEvent): RobotValue {
    match e
    case JointCommand(values, nowS) => r.(arm := r.arm.OnCommand(values, nowS))
    case GripperSafe(value, nowS) => r.(jaw := r.jaw.OnGripperSafe(value, nowS))
    case TeleopState(connection, watchdog) =>
      r.(jaw := r.jaw.OnTeleopState(connection, watchdog), arm := r.arm.OnTeleopState(connection, watchdog))
    case NodeTick(nowS, jawPresent, presents) => TickNode(r, nowS, jawPresent, presents)
  }

  function Run(r: RobotValue, es: seq<RobotEvent>): RobotValue {
    if es == [] then r else Step(Run(r, es[..|es| - 1]), es[|es| - 1])
  }

  predicate SameRegisters(a: BusValue, b: BusValue) {
    a.torque == b.torque && a.goal == b.goal && a.present == b.present
  }

  predicate Answers(bus: BusValue, servo: int) {
    servo in bus.torque && servo in bus.goal && servo in bus.present
  }

  /** What an actuator remembers of a servo is what the registers hold. */
  predicate Shadowed(bus: BusValue, servo: int, lastTorque: Option<bool>, lastGoal: Option<int>) {
    && Answers(bus, servo)
    && bus.torque[servo] == (lastTorque == Some(true))
    && (lastGoal.Some? ==>
          bus.torque[servo] && bus.goal[servo] == bus.present[servo] == Clamp(lastGoal.value, POSITION_MIN, POSITION_MAX))
  }

  /** Joint i's shadow is faithful and its goal is what the actuator last accepted. */
  predicate JointShadowed(a: ArmState, j: JointValue, servo: int) {
    Shadowed(a.bus, servo, Get(a.lastTorque, servo), a.LastGoal(servo)) && a.LastGoal(servo) == j.goal && SoundJoint(j)
  }

  ghost predicate ArmShadowed(a: ArmState, v: ArmValue) {
    && Sound(v) && a.maxDelta == v.maxDelta
    && forall i :: 0 <= i < ARM_COUNT ==> JointShadowed(a, v.joints[i], i + 1)
  }

  ghost predicate Faithful(r: RobotValue) {
    && SameRegisters(r.bus, r.eager)
    && Shadowed(r.bus, GRIPPER_ID, r.jawTorque, r.jawGoal)
    && ArmShadowed(r.Arm(r.bus), r.arm) && JawSound(r.jaw)
    && forall k :: k in r.armTorque ==> 1 <= k <= ARM_COUNT
  }

  /** Torque off on a bus with the six servos, nothing shadowed, limits set, no tick yet. */
  predicate Initial(r: RobotValue) {
    && Configured(r.arm) && r.bus == r.eager && JawSound(r.jaw)
    && r.jawTorque != Some(true) && r.jawGoal == None && r.armTorque == map[] && r.armGoal == map[]
    && forall k :: 1 <= k <= GRIPPER_ID ==> Answers(r.bus, k) && !r.bus.torque[k]
  }

  // ---------- The jaw ----------

  lemma JawStep(s: JawState, eager: BusValue, out: GripperOutput)
    requires SameRegisters(s.bus, eager) && Shadowed(s.bus, GRIPPER_ID, s.lastTorque, s.lastGoal)
    ensures var next := s.Apply(out);
            && SameRegisters(next.bus, EagerJaw(eager, out))
            && Shadowed(next.bus, GRIPPER_ID, next.lastTorque, next.lastGoal)
  {
    hide Clamp;
    var next := s.Apply(out);
    if out.deadman.None? && out.goalPosition.Some? && out.goalPosition == s.lastGoal {
      var at := Clamp(s.lastGoal.value, POSITION_MIN, POSITION_MAX);
      assert s.bus.torque[GRIPPER_ID := true] == s.bus.torque;
      assert s.bus.goal[GRIPPER_ID := at] == s.bus.goal && s.bus.present[GRIPPER_ID := at] == s.bus.present;
    }
  }

  lemma JawLeavesArm(s: JawState, out: GripperOutput, servo: int)
    requires servo != GRIPPER_ID && Answers(s.bus, servo)
    ensures var next := s.Apply(out);
            && Answers(next.bus, servo) && next.bus.torque[servo] == s.bus.torque[servo]
            && next.bus.goal[servo] == s.bus.goal[servo] && next.bus.present[servo] == s.bus.present[servo]
  {
  }

  // ---------- One joint ----------

  /** The guard accepts every goal the controller asks for. */
  lemma GuardAccepts(a: ArmState, j: JointValue, servo: int, present: Option<int>, gen: int)
    requires JointShadowed(a, j, servo) && a.maxDelta > 0
    ensures var next := j.StepOne(present, a.maxDelta, gen);
            next.goal.Some? ==> GoalIsOneStep(next.goal.value, present, a.LastGoal(servo), a.maxDelta)
  {
    hide JointValue.StepOne, Shadowed;
    StepIsSound(j, present, a.maxDelta, gen);
  }

  /** One joint applied: the same registers as writing in full, and a faithful shadow of the new goal. */
  lemma OneJoint(a: ArmState, eager: BusValue, j: JointValue, index: nat, present: Option<int>, gen: int)
    requires index < ARM_COUNT && a.maxDelta > 0 && JointShadowed(a, j, index + 1) && SameRegisters(a.bus, eager)
    ensures var next := j.StepOne(present, a.maxDelta, gen);
            var joint := next.Goal(index, present);
            && JointShadowed(a.ApplyOne(joint), next, index + 1)
            && SameRegisters(a.ApplyOne(joint).bus, EagerOne(eager, joint))
  {
    hide JointValue.StepOne, GoalIsOneStep, Clamp;
    var next, servo := j.StepOne(present, a.maxDelta, gen), index + 1;
    StepIsSound(j, present, a.maxDelta, gen);
    GuardAccepts(a, j, servo, present, gen);
    if next.goal.Some? && next.goal == a.LastGoal(servo) {
      var at := Clamp(next.goal.value, POSITION_MIN, POSITION_MAX);
      assert a.bus.torque[servo := true] == a.bus.torque;
      assert a.bus.goal[servo := at] == a.bus.goal && a.bus.present[servo := at] == a.bus.present;
    } else if next.goal == None {
      assert a.bus.torque[servo := false] == a.LetGo(servo).bus.torque;
    }
  }

  lemma OneLeavesOthers(a: ArmState, joint: JointGoal, j: JointValue, servo: int)
    requires JointShadowed(a, j, servo) && servo != joint.servoId
    ensures JointShadowed(a.ApplyOne(joint), j, servo) && a.ApplyOne(joint).maxDelta == a.maxDelta
  {
    hide GoalIsOneStep, SoundJoint, Clamp;
  }

  // ---------- The arm ----------

  /** With the first n joints applied, those are faithful to the new goals and the rest to the old. */
  ghost predicate UpTo(a: ArmState, eager: BusValue, v: ArmValue, t: ArmValue, n: nat)
    requires n <= ARM_COUNT == |v.joints| == |t.joints|
  {
    && SameRegisters(a.bus, eager) && a.maxDelta == v.maxDelta
    && (forall i :: 0 <= i < n ==> JointShadowed(a, t.joints[i], i + 1))
    && (forall i :: n <= i < ARM_COUNT ==> JointShadowed(a, v.joints[i], i + 1))
  }

  lemma ArmTurn(a: ArmState, eager: BusValue, v: ArmValue, nowS: real, presents: seq<Option<int>>, n: nat)
    requires Sound(v) && v.DeadmanReason(nowS) == None && n < ARM_COUNT
    requires UpTo(a, eager, v, v.Tick(nowS, presents), n)
    ensures var joint := v.TickOutput(nowS, presents).joints[n];
            UpTo(a.ApplyOne(joint), EagerOne(eager, joint), v, v.Tick(nowS, presents), n + 1)
  {
    hide JointValue.StepOne, ArmState.ApplyOne, JointShadowed, SoundJoint, ArmValue.DeadmanReason, EagerOne;
    var t := v.Tick(nowS, presents);
    var joint := v.TickOutput(nowS, presents).joints[n];
    OneJoint(a, eager, v.joints[n], n, At(presents, n), v.commandGen);
    forall i | 0 <= i < ARM_COUNT && i != n
      ensures JointShadowed(a.ApplyOne(joint), if i < n then t.joints[i] else v.joints[i], i + 1)
      ensures a.ApplyOne(joint).maxDelta == a.maxDelta
    {
      OneLeavesOthers(a, joint, if i < n then t.joints[i] else v.joints[i], i + 1);
    }
    if n == 0 {
      assert a.ApplyOne(joint).maxDelta == a.maxDelta by { OneLeavesOthers(a, joint, v.joints[1], 2); }
    } else {
      assert a.ApplyOne(joint).maxDelta == a.maxDelta by { OneLeavesOthers(a, joint, t.joints[0], 1); }
    }
  }

  lemma {:induction false} ArmLive(a: ArmState, eager: BusValue, v: ArmValue, nowS: real, presents: seq<Option<int>>, n: nat)
    requires ArmShadowed(a, v) && SameRegisters(a.bus, eager) && v.DeadmanReason(nowS) == None && n <= ARM_COUNT
    ensures var joints := v.TickOutput(nowS, presents).joints[..n];
            UpTo(a.ApplyAll(joints), EagerAll(eager, joints), v, v.Tick(nowS, presents), n)
  {
    if n > 0 {
      hide JointValue.StepOne, ArmState.ApplyOne, EagerOne, SameRegisters, JointShadowed, ArmValue.DeadmanReason;
      var all := v.TickOutput(nowS, presents).joints;
      assert all[..n][..n - 1] == all[..n - 1];
      ArmLive(a, eager, v, nowS, presents, n - 1);
      ArmTurn(a.ApplyAll(all[..n - 1]), EagerAll(eager, all[..n - 1]), v, nowS, presents, n - 1);
    }
  }

  lemma ArmDeadman(a: ArmState, eager: BusValue, v: ArmValue, nowS: real, presents: seq<Option<int>>)
    requires ArmShadowed(a, v) && SameRegisters(a.bus, eager) && v.DeadmanReason(nowS).Some?
    requires forall k :: k in a.lastTorque ==> 1 <= k <= ARM_COUNT
    ensures var out := v.TickOutput(nowS, presents);
            && ArmShadowed(a.Apply(out), v.Tick(nowS, presents))
            && SameRegisters(a.Apply(out).bus, EagerArm(eager, out))
  {
    hide ArmValue.DeadmanReason, Clamp;
    var out, t := v.TickOutput(nowS, presents), v.Tick(nowS, presents);
    var next := a.Apply(out);
    NextIsSound(v, ArmTick(nowS, presents));
    forall i | 0 <= i < ARM_COUNT ensures JointShadowed(next, t.joints[i], i + 1) {
      JointReleased(a, v.joints[i], i + 1);
    }
    ReleasedAlike(a, v, eager);
  }

  lemma JointReleased(a: ArmState, j: JointValue, servo: int)
    requires JointShadowed(a, j, servo)
    ensures JointShadowed(a.Release(), j.Released(), servo)
  {
  }

  lemma ReleasedAlike(a: ArmState, v: ArmValue, eager: BusValue)
    requires ArmShadowed(a, v) && SameRegisters(a.bus, eager)
    requires forall k :: k in a.lastTorque ==> 1 <= k <= ARM_COUNT
    ensures a.Release().bus.torque == eager.torque + map[1 := false, 2 := false, 3 := false, 4 := false, 5 := false]
  {
    hide Clamp, SoundJoint;
    assert JointShadowed(a, v.joints[0], 1) && JointShadowed(a, v.joints[1], 2) && JointShadowed(a, v.joints[2], 3);
    assert JointShadowed(a, v.joints[3], 4) && JointShadowed(a, v.joints[4], 5);
    var x, y := a.Release().bus.torque, eager.torque + map[1 := false, 2 := false, 3 := false, 4 := false, 5 := false];
    forall k | k in x ensures k in y && x[k] == y[k] {
    }
    assert x.Keys == y.Keys;
  }

  lemma {:induction false} OnlyArmServos(a: ArmState, joints: seq<JointGoal>)
    requires forall k :: k in a.lastTorque ==> 1 <= k <= ARM_COUNT
    ensures forall k :: k in a.ApplyAll(joints).lastTorque ==> 1 <= k <= ARM_COUNT
    ensures a.ApplyAll(joints).maxDelta == a.maxDelta
  {
    if joints != [] {
      hide GoalIsOneStep, BusValue.WriteGoal, BusValue.WriteTorque;
      OnlyArmServos(a, joints[..|joints| - 1]);
    }
  }

  lemma ArmApplied(a: ArmState, eager: BusValue, v: ArmValue, nowS: real, presents: seq<Option<int>>)
    requires ArmShadowed(a, v) && SameRegisters(a.bus, eager)
    requires forall k :: k in a.lastTorque ==> 1 <= k <= ARM_COUNT
    ensures var out := v.TickOutput(nowS, presents);
            && ArmShadowed(a.Apply(out), v.Tick(nowS, presents))
            && SameRegisters(a.Apply(out).bus, EagerArm(eager, out))
            && forall k :: k in a.Apply(out).lastTorque ==> 1 <= k <= ARM_COUNT
  {
    hide JointShadowed, JointValue.StepOne, ArmValue.DeadmanReason, EagerOne, ArmState.ApplyOne;
    if v.DeadmanReason(nowS).Some? {
      ArmDeadman(a, eager, v, nowS, presents);
    } else {
      var joints := v.TickOutput(nowS, presents).joints;
      assert joints[..ARM_COUNT] == joints;
      ArmLive(a, eager, v, nowS, presents, ARM_COUNT);
      NextIsSound(v, ArmTick(nowS, presents));
      OnlyArmServos(a, joints);
    }
  }

  // ---------- Whole runs ----------

  lemma ArmSurvivesJaw(s: JawState, out: GripperOutput, a: ArmState, v: ArmValue)
    requires a.bus == s.bus && ArmShadowed(a, v)
    ensures ArmShadowed(a.(bus := s.Apply(out).bus), v)
  {
    hide Clamp, SoundJoint, JawState.Apply;
    var b := a.(bus := s.Apply(out).bus);
    forall i | 0 <= i < ARM_COUNT ensures JointShadowed(b, v.joints[i], i + 1) {
      assert JointShadowed(a, v.joints[i], i + 1);
      JawLeavesArm(s, out, i + 1);
    }
    assert forall i :: 0 <= i < ARM_COUNT ==> JointShadowed(b, v.joints[i], i + 1);
  }

  /** Applying the arm leaves the jaw's registers. */
  lemma {:induction false} ArmLeavesJaw(a: ArmState, joints: seq<JointGoal>)
    requires Answers(a.bus, GRIPPER_ID)
    ensures var b := a.ApplyAll(joints).bus;
            && Answers(b, GRIPPER_ID) && b.torque[GRIPPER_ID] == a.bus.torque[GRIPPER_ID]
            && b.goal[GRIPPER_ID] == a.bus.goal[GRIPPER_ID] && b.present[GRIPPER_ID] == a.bus.present[GRIPPER_ID]
  {
    if joints != [] {
      hide GoalIsOneStep, Clamp;
      ArmLeavesJaw(a, joints[..|joints| - 1]);
    }
  }

  lemma TickIsFaithful(r: RobotValue, nowS: real, jawPresent: int, presents: seq<Option<int>>)
    requires Faithful(r)
    ensures Faithful(TickNode(r, nowS, jawPresent, presents))
  {
    hide GripperValue.Tick, GripperValue.TickOutput, JawState.Apply, ArmShadowed, EagerJaw, EagerArm, Clamp;
    hide ArmValue.Tick, ArmValue.TickOutput, ArmState.ApplyAll, SameRegisters;
    var out, armOut := r.jaw.TickOutput(nowS, jawPresent), r.arm.TickOutput(nowS, presents);
    JawStep(r.Jaw(), r.eager, out);
    ArmSurvivesJaw(r.Jaw(), out, r.Arm(r.bus), r.arm);
    var mid := r.Arm(r.Jaw().Apply(out).bus);
    ArmApplied(mid, EagerJaw(r.eager, out), r.arm, nowS, presents);
    ArmLeavesJaw(mid, armOut.joints);
    JawTickIsSound(r.jaw, nowS, jawPresent);
    SameDelta(r, nowS, presents, mid);
  }

  lemma SameDelta(r: RobotValue, nowS: real, presents: seq<Option<int>>, a: ArmState)
    requires ArmShadowed(r.Arm(r.bus), r.arm) && a.maxDelta == r.arm.maxDelta
    requires forall k :: k in a.lastTorque ==> 1 <= k <= ARM_COUNT
    ensures a.Apply(r.arm.TickOutput(nowS, presents)).maxDelta == r.arm.Tick(nowS, presents).maxDelta
  {
    hide ArmValue.DeadmanReason, ArmState.ApplyAll, JointValue.StepOne;
    OnlyArmServos(a, r.arm.TickOutput(nowS, presents).joints);
  }

  lemma CommandIsFaithful(a: ArmState, v: ArmValue, values: seq<Float>, nowS: real)
    requires ArmShadowed(a, v)
    ensures ArmShadowed(a, v.OnCommand(values, nowS))
  {
    hide Shadowed;
    NextIsSound(v, Command(values, nowS));
    forall i | 0 <= i < ARM_COUNT ensures JointShadowed(a, v.OnCommand(values, nowS).joints[i], i + 1) {
      assert JointShadowed(a, v.joints[i], i + 1);
    }
  }

  lemma StepIsFaithful(r: RobotValue, e: RobotEvent)
    requires Faithful(r)
    ensures Faithful(Step(r, e))
  {
    match e
    case JointCommand(values, nowS) =>
      hide Shadowed, ArmShadowed;
      CommandIsFaithful(r.Arm(r.bus), r.arm, values, nowS);
    case GripperSafe(value, nowS) =>
    case TeleopState(connection, watchdog) =>
    case NodeTick(nowS, jawPresent, presents) =>
      hide Faithful, TickNode;
      TickIsFaithful(r, nowS, jawPresent, presents);
  }

  lemma InitialIsFaithful(r: RobotValue)
    requires Initial(r)
    ensures Faithful(r)
  {
    assert Answers(r.bus, GRIPPER_ID);
    forall i | 0 <= i < ARM_COUNT ensures JointShadowed(r.Arm(r.bus), r.arm.joints[i], i + 1) {
      assert Answers(r.bus, i + 1);
    }
  }

  /**
    Skipping repeated writes and guarding each step loses nothing: over every run, the bus holds
    the registers that writing every output in full at every tick would have left, and both
    shadows hold what the registers hold.
   */
  lemma {:induction false} ShadowsAreFaithful(r: RobotValue, es: seq<RobotEvent>)
    requires Initial(r)
    ensures Faithful(Run(r, es))
  {
    if es == [] {
      InitialIsFaithful(r);
    } else {
      hide Faithful, Step, Initial;
      ShadowsAreFaithful(r, es[..|es| - 1]);
      StepIsFaithful(Run(r, es[..|es| - 1]), es[|es| - 1]);
    }
  }

  /** The joint goals the actuator has accepted, in range, are exactly in the goal registers. */
  lemma RegistersHoldTheGoals(r: RobotValue, es: seq<RobotEvent>, i: nat)
    requires Initial(r) && i < ARM_COUNT
    ensures var s := Run(r, es);
            && |s.arm.joints| == ARM_COUNT && i + 1 in s.bus.torque && i + 1 in s.bus.goal
            && var j := s.arm.joints[i];
               j.goal.Some? ==>
                 && s.bus.torque[i + 1] && j.limits.Some? && i + 1 in s.bus.present && s.bus.present[i + 1] == s.bus.goal[i + 1]
                 && (POSITION_MIN <= j.limits.value.low && j.limits.value.high <= POSITION_MAX ==> s.bus.goal[i + 1] == j.goal.value)
  {
    ShadowsAreFaithful(r, es);
    var s := Run(r, es);
    assert JointShadowed(s.Arm(s.bus), s.arm.joints[i], i + 1);
  }

  /** In every reachable state the one-step guard accepts every goal of the next tick. */
  lemma GuardNeverRejects(r: RobotValue, es: seq<RobotEvent>, nowS: real, presents: seq<Option<int>>, i: nat)
    requires Initial(r) && i < ARM_COUNT && Run(r, es).arm.DeadmanReason(nowS) == None
    ensures var s := Run(r, es);
            var joints := s.arm.TickOutput(nowS, presents).joints;
            && |joints| == ARM_COUNT && joints[i].servoId == i + 1
            && (joints[i].torqueEnable <==> joints[i].goalPosition.Some?)
            && (joints[i].goalPosition.Some? ==>
                  GoalIsOneStep(joints[i].goalPosition.value, joints[i].present, s.Arm(s.bus).LastGoal(i + 1), s.arm.maxDelta))
  {
    hide JointValue.StepOne, GoalIsOneStep, Shadowed, ArmValue.DeadmanReason;
    ShadowsAreFaithful(r, es);
    var s := Run(r, es);
    assert JointShadowed(s.Arm(s.bus), s.arm.joints[i], i + 1);
    GuardAccepts(s.Arm(s.bus), s.arm.joints[i], i + 1, At(presents, i), s.arm.commandGen);
    StepIsSound(s.arm.joints[i], At(presents, i), s.arm.maxDelta, s.arm.commandGen);
  }

  // ---------- Goal register writes ----------

  /** The writes after `from` are for arm servos, each to its controller's goal. */
  ghost predicate WritesGoals(log: seq<(int, int)>, from: nat, v: ArmValue) {
    forall n :: from <= n < |log| ==> IsGoalOf(log[n], v)
  }

  predicate IsGoalOf(write: (int, int), v: ArmValue) {
    && 1 <= write.0 <= |v.joints| && v.joints[write.0 - 1].goal.Some?
    && write.1 == Clamp(v.joints[write.0 - 1].goal.value, POSITION_MIN, POSITION_MAX)
  }

  lemma {:induction false} ArmWrites(a: ArmState, v: ArmValue, nowS: real, presents: seq<Option<int>>, n: nat)
    requires Sound(v) && n <= ARM_COUNT && v.DeadmanReason(nowS) == None
    ensures var joints := v.TickOutput(nowS, presents).joints;
            && |joints| == ARM_COUNT && a.bus.goalWrites <= a.ApplyAll(joints[..n]).bus.goalWrites
            && WritesGoals(a.ApplyAll(joints[..n]).bus.goalWrites, |a.bus.goalWrites|, v.Tick(nowS, presents))
  {
    hide JointValue.StepOne, GoalIsOneStep, Clamp, ArmValue.DeadmanReason;
    NextIsSound(v, ArmTick(nowS, presents));
    if n > 0 {
      var joints := v.TickOutput(nowS, presents).joints;
      assert joints[..n][..n - 1] == joints[..n - 1];
      ArmWrites(a, v, nowS, presents, n - 1);
      var before := a.ApplyAll(joints[..n - 1]);
      OneWrite(before, joints[n - 1]);
      assert joints[n - 1].goalPosition.Some? && joints[n - 1].torqueEnable ==>
        IsGoalOf((n, Clamp(joints[n - 1].goalPosition.value, POSITION_MIN, POSITION_MAX)), v.Tick(nowS, presents));
    }
  }

  lemma OneWrite(a: ArmState, joint: JointGoal)
    ensures var log := a.ApplyOne(joint).bus.goalWrites;
            || log == a.bus.goalWrites
            || (joint.torqueEnable && joint.goalPosition.Some?
                && log == a.bus.goalWrites + [(joint.servoId, Clamp(joint.goalPosition.value, POSITION_MIN, POSITION_MAX))])
  {
    hide GoalIsOneStep;
  }

  lemma JawWrites(s: JawState, out: GripperOutput)
    ensures var log := s.Apply(out).bus.goalWrites;
            || log == s.bus.goalWrites
            || (out.deadman == None && out.goalPosition.Some?
                && log == s.bus.goalWrites + [(GRIPPER_ID, Clamp(out.goalPosition.value, POSITION_MIN, POSITION_MAX))])
  {
  }

  /** A goal write at a tick, and what makes it safe. */
  ghost predicate SafeWrite(s: RobotValue, t: RobotValue, write: (int, int), nowS: real, presents: seq<Option<int>>) {
    if write.0 == GRIPPER_ID then
      && s.jaw.DeadmanReason(nowS) == None && t.jaw.output.Some? && InRange(t.jaw, t.jaw.output.value)
      && write.1 == Clamp(t.jaw.output.value, POSITION_MIN, POSITION_MAX)
    else
      && s.arm.DeadmanReason(nowS) == None && IsGoalOf(write, t.arm) && |s.arm.joints| == |t.arm.joints|
      && SoundJoint(t.arm.joints[write.0 - 1])
      && OneStepOn(s.arm.joints[write.0 - 1], t.arm.joints[write.0 - 1], At(presents, write.0 - 1), s.arm.maxDelta)
  }

  lemma ArmWriteIsSafe(s: RobotValue, t: RobotValue, write: (int, int), nowS: real, presents: seq<Option<int>>)
    requires Sound(s.arm) && t.arm == s.arm.Tick(nowS, presents) && s.arm.DeadmanReason(nowS) == None && IsGoalOf(write, t.arm)
    ensures SafeWrite(s, t, write, nowS, presents)
  {
    hide JointValue.StepOne, Clamp, ArmValue.DeadmanReason, SoundJoint, OneStepOn;
    NextIsSound(s.arm, ArmTick(nowS, presents));
    StepIsSound(s.arm.joints[write.0 - 1], At(presents, write.0 - 1), s.arm.maxDelta, s.arm.commandGen);
  }

  lemma TickWrites(s: RobotValue, nowS: real, jawPresent: int, presents: seq<Option<int>>, n: nat)
    requires Sound(s.arm) && JawSound(s.jaw)
    requires |s.bus.goalWrites| <= n < |TickNode(s, nowS, jawPresent, presents).bus.goalWrites|
    ensures var t := TickNode(s, nowS, jawPresent, presents);
            s.bus.goalWrites <= t.bus.goalWrites && SafeWrite(s, t, t.bus.goalWrites[n], nowS, presents)
  {
    hide ArmValue.DeadmanReason, ArmValue.Tick, IsGoalOf, JawState.Apply, GripperValue.Tick, ArmState.ApplyAll, Sound;
    hide ArmValue.Goals, Clamp, GripperValue.ClampGoal;
    JawTickIsSound(s.jaw, nowS, jawPresent);
    var out := s.jaw.TickOutput(nowS, jawPresent);
    JawWrites(s.Jaw(), out);
    if s.arm.DeadmanReason(nowS) == None {
      var t := TickNode(s, nowS, jawPresent, presents);
      var mid := s.Arm(s.Jaw().Apply(out).bus);
      var joints := s.arm.TickOutput(nowS, presents).joints;
      ArmWrites(mid, s.arm, nowS, presents, ARM_COUNT);
      assert joints[..ARM_COUNT] == joints;
      if n >= |mid.bus.goalWrites| {
        ArmWriteIsSafe(s, t, t.bus.goalWrites[n], nowS, presents);
      }
    }
  }

  /**
    What a tick writes to goal registers, in every reachable state. In deadman: nothing, for
    the arm or for the jaw. Live: for the jaw, its output, inside its range; for an arm servo, its
    new goal, inside the joint's limits and within one step of the goal before or of the present
    position.
   */
  lemma GoalWritesAreSafe(r: RobotValue, es: seq<RobotEvent>, nowS: real, jawPresent: int, presents: seq<Option<int>>, n: nat)
    requires Initial(r)
    requires |Run(r, es).bus.goalWrites| <= n < |TickNode(Run(r, es), nowS, jawPresent, presents).bus.goalWrites|
    ensures var s := Run(r, es);
            var t := TickNode(s, nowS, jawPresent, presents);
            s.bus.goalWrites <= t.bus.goalWrites && SafeWrite(s, t, t.bus.goalWrites[n], nowS, presents)
  {
    hide TickNode, SafeWrite;
    ShadowsAreFaithful(r, es);
    TickWrites(Run(r, es), nowS, jawPresent, presents, n);
  }

  /** After any deadman tick of the arm every arm servo's torque is off and its position registers stand. */
  lemma DeadmanLetsGo(r: RobotValue, es: seq<RobotEvent>, nowS: real, jawPresent: int, presents: seq<Option<int>>, i: nat)
    requires Initial(r) && i < ARM_COUNT && Run(r, es).arm.DeadmanReason(nowS).Some?
    ensures var s := Run(r, es);
            var t := TickNode(s, nowS, jawPresent, presents);
            && Answers(s.bus, i + 1) && Answers(t.bus, i + 1) && !t.bus.torque[i + 1]
            && t.bus.goal[i + 1] == s.bus.goal[i + 1] && t.bus.present[i + 1] == s.bus.present[i + 1]
  {
    hide ArmValue.DeadmanReason, GripperValue.TickOutput, GripperValue.Tick, JawState.Apply, Clamp, SoundJoint;
    ShadowsAreFaithful(r, es);
    var s := Run(r, es);
    var t := TickNode(s, nowS, jawPresent, presents);
    TickIsFaithful(s, nowS, jawPresent, presents);
    assert JointShadowed(s.Arm(s.bus), s.arm.joints[i], i + 1);
    assert JointShadowed(t.Arm(t.bus), t.arm.joints[i], i + 1);
    JawLeavesArm(s.Jaw(), s.jaw.TickOutput(nowS, jawPresent), i + 1);
  }

  /** The same for the jaw's servo. */
  lemma DeadmanLetsJawGo(r: RobotValue, es: seq<RobotEvent>, nowS: real, jawPresent: int, presents: seq<Option<int>>)
    requires Initial(r) && Run(r, es).jaw.DeadmanReason(nowS).Some?
    ensures var s := Run(r, es);
            var t := TickNode(s, nowS, jawPresent, presents);
            && Answers(s.bus, GRIPPER_ID) && Answers(t.bus, GRIPPER_ID) && !t.bus.torque[GRIPPER_ID]
            && t.bus.goal[GRIPPER_ID] == s.bus.goal[GRIPPER_ID] && t.bus.present[GRIPPER_ID] == s.bus.present[GRIPPER_ID]
  {
    hide ArmValue.TickOutput, ArmValue.Tick, GripperValue.DeadmanReason, Clamp, ArmShadowed, ArmState.ApplyAll, SameRegisters;
    ShadowsAreFaithful(r, es);
    var s := Run(r, es);
    var mid := s.Arm(s.Jaw().Apply(s.jaw.TickOutput(nowS, jawPresent)).bus);
    ArmLeavesJaw(mid, s.arm.TickOutput(nowS, presents).joints);
    JawReleased(s.Jaw(), s.jaw.TickOutput(nowS, jawPresent));
    ReleaseLeavesJaw(mid);
  }

  lemma JawReleased(s: JawState, out: GripperOutput)
    requires out.deadman.Some? && Shadowed(s.bus, GRIPPER_ID, s.lastTorque, s.lastGoal)
    ensures var b := s.Apply(out).bus;
            && Answers(b, GRIPPER_ID) && !b.torque[GRIPPER_ID] && b.goal == s.bus.goal && b.present == s.bus.present
  {
  }

  lemma ReleaseLeavesJaw(a: ArmState)
    requires Answers(a.bus, GRIPPER_ID) && forall k :: k in a.lastTorque ==> 1 <= k <= ARM_COUNT
    ensures var b := a.Release().bus;
            Answers(b, GRIPPER_ID) && b.torque[GRIPPER_ID] == a.bus.torque[GRIPPER_ID] && b.goal == a.bus.goal && b.present == a.bus.present
  {
  }

  // ---------- A silent operator ----------

  /** Every arm command of the run came more than this long before now. */
  predicate ArmSilent(es: seq<RobotEvent>, timeoutS: real, nowS: real) {
    forall k :: 0 <= k < |es| && es[k].JointCommand? ==> nowS - es[k].nowS > timeoutS
  }

  predicate JawSilent(es: seq<RobotEvent>, timeoutS: real, nowS: real) {
    forall k :: 0 <= k < |es| && es[k].GripperSafe? ==> nowS - es[k].nowS > timeoutS
  }

  lemma TicksKeepStamps(v: ArmValue, jaw: GripperValue, nowS: real, presents: seq<Option<int>>, jawPresent: int)
    ensures v.Tick(nowS, presents).lastCmdS == v.lastCmdS && v.Tick(nowS, presents).commandTimeoutS == v.commandTimeoutS
    ensures jaw.Tick(nowS, jawPresent).lastSafeS == jaw.lastSafeS && jaw.Tick(nowS, jawPresent).commandTimeoutS == jaw.commandTimeoutS
  {
    hide ArmValue.DeadmanReason, GripperValue.DeadmanReason, JointValue.StepOne, IsKeyboardGripper, MapFraction;
  }

  /** Only a command, or a jaw float, moves the time the deadman counts from. */
  lemma StepStamps(r: RobotValue, e: RobotEvent)
    ensures var s := Step(r, e);
            && s.arm.lastCmdS == (if e.JointCommand? then Some(e.nowS) else r.arm.lastCmdS)
            && s.jaw.lastSafeS == (if e.GripperSafe? then Some(e.nowS) else r.jaw.lastSafeS)
            && s.arm.commandTimeoutS == r.arm.commandTimeoutS && s.jaw.commandTimeoutS == r.jaw.commandTimeoutS
  {
    if e.NodeTick? {
      hide GripperValue.TickOutput, ArmValue.TickOutput, ArmValue.Tick, GripperValue.Tick, JawState.Apply, ArmState.Apply;
      hide EagerJaw, EagerArm;
      TicksKeepStamps(r.arm, r.jaw, e.nowS, e.presents, e.jawPresent);
    }
  }

  predicate Past(stamp: Option<real>, timeoutS: real, nowS: real) {
    stamp.Some? ==> nowS - stamp.value > timeoutS
  }

  lemma {:induction false} SilenceIsPast(r: RobotValue, es: seq<RobotEvent>, armS: real, jawS: real, nowS: real)
    requires r.arm.lastCmdS == None && r.jaw.lastSafeS == None
    ensures var s := Run(r, es);
            && s.arm.commandTimeoutS == r.arm.commandTimeoutS && s.jaw.commandTimeoutS == r.jaw.commandTimeoutS
            && (ArmSilent(es, armS, nowS) ==> Past(s.arm.lastCmdS, armS, nowS))
            && (JawSilent(es, jawS, nowS) ==> Past(s.jaw.lastSafeS, jawS, nowS))
  {
    if es != [] {
      hide Step;
      var init := es[..|es| - 1];
      SilenceIsPast(r, init, armS, jawS, nowS);
      StepStamps(Run(r, init), es[|es| - 1]);
      assert forall k :: 0 <= k < |init| ==> init[k] == es[k];
    }
  }

  lemma SilenceIsDeadman(r: RobotValue, es: seq<RobotEvent>, nowS: real)
    requires r.arm.lastCmdS == None && r.jaw.lastSafeS == None
    ensures ArmSilent(es, r.arm.commandTimeoutS, nowS) ==> Run(r, es).arm.DeadmanReason(nowS).Some?
    ensures JawSilent(es, r.jaw.commandTimeoutS, nowS) ==> Run(r, es).jaw.DeadmanReason(nowS).Some?
  {
    hide Run, ArmSilent, JawSilent;
    SilenceIsPast(r, es, r.arm.commandTimeoutS, r.jaw.commandTimeoutS, nowS);
  }

  /**
    Over every run: when no arm command came within the timeout before a tick, that tick turns the
    torque of every arm servo off and leaves its position registers; likewise the jaw's servo when
    no jaw float came in time.
   */
  lemma SilenceLetsGo(r: RobotValue, es: seq<RobotEvent>, nowS: real, jawPresent: int, presents: seq<Option<int>>, i: nat)
    requires Initial(r) && r.arm.lastCmdS == None && r.jaw.lastSafeS == None && i < ARM_COUNT
    ensures var s := Run(r, es);
            var t := TickNode(s, nowS, jawPresent, presents);
            && (ArmSilent(es, r.arm.commandTimeoutS, nowS) ==>
                  && Answers(s.bus, i + 1) && Answers(t.bus, i + 1) && !t.bus.torque[i + 1]
                  && t.bus.goal[i + 1] == s.bus.goal[i + 1] && t.bus.present[i + 1] == s.bus.present[i + 1])
            && (JawSilent(es, r.jaw.commandTimeoutS, nowS) ==>
                  && Answers(s.bus, GRIPPER_ID) && Answers(t.bus, GRIPPER_ID) && !t.bus.torque[GRIPPER_ID]
                  && t.bus.goal[GRIPPER_ID] == s.bus.goal[GRIPPER_ID] && t.bus.present[GRIPPER_ID] == s.bus.present[GRIPPER_ID])
  {
    hide Run, TickNode, Initial, ArmSilent, JawSilent, Answers;
    SilenceIsDeadman(r, es, nowS);
    if ArmSilent(es, r.arm.commandTimeoutS, nowS) {
      DeadmanLetsGo(r, es, nowS, jawPresent, presents, i);
    }
    if JawSilent(es, r.jaw.commandTimeoutS, nowS) {
      DeadmanLetsJawGo(r, es, nowS, jawPresent, presents);
    }
  }

  // ---------- The guard, whatever it is asked ----------

  /**
    The actuator itself never writes a goal far away: asked for any goal, by any caller, it changes
    a servo's goal register only for a goal within one step of the present position reported with
    it or of the goal it last accepted, and refuses anything else without touching the bus.
   */
  lemma GuardStopsFarGoals(a: ArmState, joint: JointGoal)
    ensures var t, goal := a.ApplyOne(joint), joint.goalPosition;
            && (t.bus.goalWrites != a.bus.goalWrites ==>
                  && 1 <= joint.servoId <= ARM_COUNT && joint.torqueEnable && goal.Some?
                  && t.bus.goalWrites == a.bus.goalWrites + [(joint.servoId, Clamp(goal.value, POSITION_MIN, POSITION_MAX))]
                  && (Within(goal.value, joint.present, a.maxDelta) || Within(goal.value, a.LastGoal(joint.servoId), a.maxDelta)))
            && (joint.torqueEnable && goal.Some?
                && !Within(goal.value, joint.present, a.maxDelta) && !Within(goal.value, a.LastGoal(joint.servoId), a.maxDelta)
                ==> t == a)
  {
    hide Clamp;
  }

  predicate Within(goal: int, from: Option<int>, step: int) {
    from.Some? && -step <= goal - from.value <= step
  }
}
