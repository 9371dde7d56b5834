/**
  Whole runs of the arm controller with the limits fixed: every goal stays inside its limits and
  near the one before, jogs are paid for by commands, and a leader fraction is reached.
 */
module JointRuns {
  import opened Wrappers
  import opened Motion
  import opened Gripper
  import opened Leader
  import opened Joint

  datatype ArmEvent =
    | Command(values: seq<Float>, nowS: real)
    | State(connection: string, watchdog: string)
    | ArmTick(nowS: real, presents: seq<Option<int>>)

  function Next(v: ArmValue, e: ArmEvent): ArmValue {
    match e
    case Command(values, nowS) => v.OnCommand(values, nowS)
    case State(connection, watchdog) => v.OnTeleopState(connection, watchdog)
    case ArmTick(nowS, presents) => v.Tick(nowS, presents)
  }

  function ArmRun(v: ArmValue, es: seq<ArmEvent>): ArmValue {
    if es == [] then v else Next(ArmRun(v, es[..|es| - 1]), es[|es| - 1])
  }

  /** No goal without limits, no goal outside them, and the output is the goal. */
  predicate SoundJoint(j: JointValue) {
    && j.output == j.goal
    && (j.limits == None ==> j.goal == None)
    && (j.limits.Some? ==> j.limits.value.low < j.limits.value.high)
    && (j.limits.Some? && j.goal.Some? ==> j.limits.value.Inside(j.goal.value))
  }

  predicate Sound(v: ArmValue) {
    v.maxDelta > 0 && |v.joints| == ARM_COUNT && forall i :: 0 <= i < |v.joints| ==> SoundJoint(v.joints[i])
  }

  /** Within a step of the goal before, or of a present position inside the limits when there is none. */
  predicate OneStepOn(before: JointValue, after: JointValue, present: Option<int>, maxDelta: int) {
    after.goal.Some? ==>
      if before.goal.Some? then Abs(after.goal.value - before.goal.value) <= maxDelta
      else before.limits.Some? && before.Usable(present) && Abs(after.goal.value - present.value) <= maxDelta
  }

  lemma StepIsSound(j: JointValue, present: Option<int>, maxDelta: int, gen: int)
    requires SoundJoint(j) && maxDelta > 0
    ensures var next := j.StepOne(present, maxDelta, gen);
            && SoundJoint(next) && OneStepOn(j, next, present, maxDelta)
            && next.limits == j.limits && next.value == j.value
            && (j.goal.Some? ==> next.goal.Some?)
  {
    hide MapFraction, JointValue.TrackFraction, JointValue.Jog;
    if j.limits.Some? {
      if JointMotion(j.value) == None {
        if InFractionRange(j.value) {
          TrackIsSound(j, present, maxDelta);
        }
      } else if JointMotion(j.value) != Some(0) {
        JogIsSound(j, JointMotion(j.value).value, present, maxDelta, gen);
      }
    }
  }

  lemma TrackIsSound(j: JointValue, present: Option<int>, maxDelta: int)
    requires SoundJoint(j) && j.limits.Some? && j.value.Finite? && maxDelta > 0
    ensures var next := j.TrackFraction(present, maxDelta);
            && SoundJoint(next) && OneStepOn(j, next, present, maxDelta)
            && next.limits == j.limits && next.value == j.value && (j.goal.Some? ==> next.goal.Some?)
  {
    hide MapFraction;
  }

  lemma JogIsSound(j: JointValue, sign: int, present: Option<int>, maxDelta: int, gen: int)
    requires SoundJoint(j) && j.limits.Some? && (sign == 1 || sign == -1) && maxDelta > 0
    ensures var next := j.Jog(sign, present, maxDelta, gen);
            && SoundJoint(next) && OneStepOn(j, next, present, maxDelta)
            && next.limits == j.limits && next.value == j.value && (j.goal.Some? ==> next.goal.Some?)
  {
    assert sign * maxDelta == if sign == 1 then maxDelta else -maxDelta;
  }

  lemma NextIsSound(v: ArmValue, e: ArmEvent)
    requires Sound(v)
    ensures Sound(Next(v, e)) && Next(v, e).maxDelta == v.maxDelta
  {
    hide JointValue.StepOne, SoundJoint, ArmValue.DeadmanReason;
    forall i | 0 <= i < |v.joints| ensures SoundJoint(Next(v, e).joints[i]) {
      if e.ArmTick? && v.DeadmanReason(e.nowS) == None {
        StepIsSound(v.joints[i], At(e.presents, i), v.maxDelta, v.commandGen);
      } else {
        Untouched(v.joints[i]);
        if e.Command? {
          NewValue(v.joints[i], v.CommandFor(e.values, i));
        }
      }
    }
  }

  lemma Untouched(j: JointValue)
    requires SoundJoint(j)
    ensures SoundJoint(j.Released())
  {
  }

  lemma NewValue(j: JointValue, value: Float)
    requires SoundJoint(j)
    ensures SoundJoint(j.(value := value))
  {
  }

  lemma {:induction false} RunIsSound(v: ArmValue, es: seq<ArmEvent>)
    requires Sound(v)
    ensures Sound(ArmRun(v, es)) && ArmRun(v, es).maxDelta == v.maxDelta
  {
    if es != [] {
      hide Sound, Next;
      RunIsSound(v, es[..|es| - 1]);
      NextIsSound(ArmRun(v, es[..|es| - 1]), es[|es| - 1]);
    }
  }

  /** The limits as the node sets them once, before any tick: unknown, or a nonempty range. */
  predicate Configured(v: ArmValue) {
    && v.maxDelta > 0 && |v.joints| == ARM_COUNT
    && forall i :: 0 <= i < ARM_COUNT ==>
         && v.joints[i].goal == None && v.joints[i].output == None
         && (v.joints[i].limits.Some? ==> v.joints[i].limits.value.low < v.joints[i].limits.value.high)
  }

  /**
    At every tick of every run with the limits fixed, each joint outputs its goal, the goal is
    inside the limits, and it is within one step of the goal before or of the present position.
   */
  lemma GoalsStaySafe(v: ArmValue, es: seq<ArmEvent>, nowS: real, presents: seq<Option<int>>, i: nat)
    requires Configured(v) && i < ARM_COUNT
    ensures var before := ArmRun(v, es);
            var after := before.Tick(nowS, presents);
            && |before.joints| == |after.joints| == ARM_COUNT
            && after.joints[i].output == after.joints[i].goal
            && (after.joints[i].goal.Some? ==> after.joints[i].limits.Some? && after.joints[i].limits.value.Inside(after.joints[i].goal.value))
            && OneStepOn(before.joints[i], after.joints[i], At(presents, i), v.maxDelta)
  {
    hide JointValue.StepOne, ArmValue.DeadmanReason;
    RunIsSound(v, es);
    var before := ArmRun(v, es);
    NextIsSound(before, ArmTick(nowS, presents));
    if before.DeadmanReason(nowS) == None {
      StepIsSound(before.joints[i], At(presents, i), before.maxDelta, before.commandGen);
    }
    assert SoundJoint(before.Tick(nowS, presents).joints[i]);
  }

  /** New limits keep that exactly when they leave no old goal outside. */
  lemma NewLimitsKeepSound(j: JointValue, low: Option<int>, high: Option<int>)
    requires SoundJoint(j)
    ensures SoundJoint(j.SetLimits(low, high))
       <==> (low == None || high == None || high.value <= low.value || j.goal == None || low.value <= j.goal.value <= high.value)
  {
  }

  // ---------- Jogs ----------

  function Commands(es: seq<ArmEvent>): nat {
    if es == [] then 0 else Commands(es[..|es| - 1]) + if es[|es| - 1].Command? then 1 else 0
  }

  /** The joint has not yet stepped for the last received command. */
  function Unspent(v: ArmValue, i: nat): nat
    requires i < |v.joints|
  {
    if v.joints[i].steppedGen == v.commandGen then 0 else 1
  }

  /** Every tick is live and every command is a jog or a hold for this joint. */
  predicate JogsAndHolds(v: ArmValue, es: seq<ArmEvent>, i: nat) {
    es == [] ||
    (var before, last := ArmRun(v, es[..|es| - 1]), es[|es| - 1];
     && JogsAndHolds(v, es[..|es| - 1], i)
     && (last.Command? ==> JointMotion(v.CommandFor(last.values, i)).Some?)
     && (last.ArmTick? ==> before.DeadmanReason(last.nowS) == None))
  }

  lemma JogTick(v: ArmValue, i: nat, nowS: real, presents: seq<Option<int>>)
    requires Sound(v) && i < ARM_COUNT && v.joints[i].goal.Some? && JointMotion(v.joints[i].value).Some?
    requires v.DeadmanReason(nowS) == None
    ensures var t := v.Tick(nowS, presents);
            && t.joints[i].goal.Some? && t.joints[i].value == v.joints[i].value && t.commandGen == v.commandGen
            && (if t.joints[i].goal == v.joints[i].goal then Unspent(t, i) <= Unspent(v, i)
                else Unspent(t, i) == 0 && Unspent(v, i) == 1)
            && Abs(t.joints[i].goal.value - v.joints[i].goal.value) <= v.maxDelta
  {
    hide MapFraction, ArmValue.DeadmanReason, JointMotion;
    StepIsSound(v.joints[i], At(presents, i), v.maxDelta, v.commandGen);
  }

  /** Distance travelled, and the step a command still owes, are covered by the commands received. */
  ghost predicate Covered(v: ArmValue, r: ArmValue, i: nat, start: int, budget: int)
    requires i < |r.joints| && i < |v.joints|
  {
    && r.joints[i].goal.Some? && JointMotion(r.joints[i].value).Some?
    && Abs(r.joints[i].goal.value - start) + Owed(r, i) <= budget + Owed(v, i)
  }

  function Owed(v: ArmValue, i: nat): int
    requires i < |v.joints|
  {
    if Unspent(v, i) == 1 then v.maxDelta else 0
  }

  function Paid(es: seq<ArmEvent>, step: int): int {
    if es == [] then 0 else Paid(es[..|es| - 1], step) + if es[|es| - 1].Command? then step else 0
  }

  lemma {:induction false} PaidIsCommands(es: seq<ArmEvent>, step: int)
    ensures Paid(es, step) == Commands(es) * step
  {
    if es != [] {
      PaidIsCommands(es[..|es| - 1], step);
      assert (Commands(es[..|es| - 1]) + 1) * step == Commands(es[..|es| - 1]) * step + step;
    }
  }

  lemma {:induction false} JogsAreCovered(v: ArmValue, es: seq<ArmEvent>, i: nat, start: int)
    requires Sound(v) && i < ARM_COUNT && v.joints[i].goal == Some(start) && JointMotion(v.joints[i].value).Some?
    requires JogsAndHolds(v, es, i)
    ensures Sound(ArmRun(v, es)) && ArmRun(v, es).maxDelta == v.maxDelta
    ensures Covered(v, ArmRun(v, es), i, start, Paid(es, v.maxDelta))
  {
    RunIsSound(v, es);
    if es != [] {
      hide JointMotion, JointValue.StepOne, SoundJoint, ArmValue.DeadmanReason, ArmValue.Tick;
      var before, last := ArmRun(v, es[..|es| - 1]), es[|es| - 1];
      JogsAreCovered(v, es[..|es| - 1], i, start);
      if last.ArmTick? {
        JogTick(before, i, last.nowS, last.presents);
      }
    }
  }

  /**
    Jog conservation. Within one live period of jogs and holds, n received commands move a joint's
    goal by at most n steps, plus one if a command received before was still to be stepped for,
    however many ticks run.
   */
  lemma JogConservation(v: ArmValue, es: seq<ArmEvent>, i: nat, start: int)
    requires Sound(v) && i < ARM_COUNT && v.joints[i].goal == Some(start) && JointMotion(v.joints[i].value).Some?
    requires JogsAndHolds(v, es, i)
    ensures var r := ArmRun(v, es);
            && |r.joints| == ARM_COUNT && r.joints[i].goal.Some?
            && Abs(r.joints[i].goal.value - start) <= (Commands(es) + Unspent(v, i)) * v.maxDelta
  {
    hide Sound, JogsAndHolds, ArmRun, JointMotion;
    Five(v);
    JogsAreCovered(v, es, i, start);
    Five(ArmRun(v, es));
    PaidIsCommands(es, v.maxDelta);
    assert (Commands(es) + Unspent(v, i)) * v.maxDelta == Commands(es) * v.maxDelta + Unspent(v, i) * v.maxDelta;
    if Unspent(v, i) == 1 {
      assert Unspent(v, i) * v.maxDelta == v.maxDelta;
    }
  }

  predicate Onward(sign: int, before: int, after: int) {
    if sign > 0 then after >= before else after <= before
  }

  /**
    A jog does not always move the goal its way: it starts from the present position. A live tick
    moves the goal the jog's way, or keeps it, exactly when there is nothing to step from, the
    command was stepped for already, or one clamped step from the present position reaches the goal.
   */
  lemma JogGoesForward(v: ArmValue, i: nat, sign: int, nowS: real, presents: seq<Option<int>>)
    requires Sound(v) && i < ARM_COUNT && v.DeadmanReason(nowS) == None && v.joints[i].goal.Some?
    requires sign != 0 && JointMotion(v.joints[i].value) == Some(sign)
    ensures var j, present, after := v.joints[i], At(presents, i), v.Tick(nowS, presents).joints[i].goal;
            && j.limits.Some? && after.Some?
            && (Onward(sign, j.goal.value, after.value)
                <==> || !j.Usable(present) || j.steppedGen == v.commandGen
                     || Onward(sign, j.goal.value, Clamp(present.value + sign * v.maxDelta, j.limits.value.low, j.limits.value.high)))
  {
    hide MapFraction, ArmValue.DeadmanReason;
    assert sign == 1 || sign == -1;
    assert SoundJoint(v.joints[i]);
  }

  // ---------- Where a jog and a hold leave the goal ----------

  /** The position in [low, high] that is nearest to the one asked for. */
  predicate Nearest(to: int, asked: int, low: int, high: int) {
    low <= to <= high && (low <= asked <= high ==> to == asked) && (asked > high ==> to == high) && (asked < low ==> to == low)
  }

  /**
    The first tick of a command that jogs, with the joint inside its limits: it aims one step from
    the present position, within the limits, and puts the goal as near to that as one step from the
    last goal allows, or there when there is no goal. The command is then spent.
   */
  lemma JogGoesNearest(j: JointValue, sign: int, present: Option<int>, maxDelta: int, gen: int, aim: int)
    requires SoundJoint(j) && maxDelta > 0 && j.limits.Some? && j.Usable(present) && j.steppedGen != gen
    requires sign != 0 && JointMotion(j.value) == Some(sign)
    requires Nearest(aim, if sign > 0 then present.value + maxDelta else present.value - maxDelta, j.limits.value.low, j.limits.value.high)
    ensures var next := j.StepOne(present, maxDelta, gen);
            && next.goal.Some? && next.output == next.goal && next.steppedGen == gen
            && (j.goal == None ==> next.goal.value == aim)
            && (j.goal.Some? ==> Nearest(next.goal.value, aim, j.goal.value - maxDelta, j.goal.value + maxDelta))
  {
    hide MapFraction;
    assert sign == 1 || sign == -1;
  }

  /**
    Everything else leaves the goal alone: a jog already stepped for, or with the joint not inside
    its limits; a float that is no token and no fraction; and a hold, but that a hold without a
    goal takes the present position as one. Without limits there is no goal.
   */
  lemma OthersKeepGoal(j: JointValue, present: Option<int>, maxDelta: int, gen: int)
    requires SoundJoint(j) && maxDelta > 0
    ensures var next, motion := j.StepOne(present, maxDelta, gen), JointMotion(j.value);
            && (j.limits == None ==> next.goal == None && next.output == None)
            && (j.limits.Some? && motion == Some(0) ==>
                  next.goal == (if j.goal == None && j.Usable(present) then present else j.goal) && next.output == next.goal)
            && (j.limits.Some? && motion.Some? && motion != Some(0) && (j.steppedGen == gen || !j.Usable(present)) ==>
                  next.goal == j.goal && next.output == j.goal && next.steppedGen == j.steppedGen)
            && (j.limits.Some? && motion == None && !InFractionRange(j.value) ==> next.goal == j.goal && next.output == j.goal)
            && (j.limits.Some? && motion == None && InFractionRange(j.value) && j.goal == None && !j.Usable(present) ==>
                  next.goal == None && next.output == None)
  {
    hide MapFraction;
  }

  /** A deadman tick forgets which command was stepped for: once live again, the last command may step once more. */
  lemma DeadmanForgetsStep(v: ArmValue, i: nat, nowS: real, presents: seq<Option<int>>)
    requires i < |v.joints| && v.DeadmanReason(nowS).Some? && v.commandGen >= 0
    ensures var t := v.Tick(nowS, presents);
            && |t.joints| == |v.joints| && t.joints[i].goal == None && t.joints[i].output == None
            && t.joints[i].steppedGen != t.commandGen && t.commandGen == v.commandGen && t.joints[i].limits == v.joints[i].limits
  {
    hide ArmValue.DeadmanReason;
  }

  // ---------- Leader fractions ----------

  /** Every finite encoding is a fraction to the robot, never a jog or a hold, and is close. */
  lemma JointEncodingIsFraction(fraction: Float)
    requires fraction.Finite?
    ensures var sent := Finite(EncodeJointFraction(fraction));
            && JointMotion(sent) == None && InFractionRange(sent)
            && AbsReal(sent.r - ClampReal(fraction.r, 0.0, 1.0)) <= 0.0021
  {
  }

  /** Only a reading that is not a number is sent as a hold. */
  lemma JointHoldsOnlyOnBadReading(fraction: Float)
    ensures JointMotion(Finite(EncodeJointFraction(fraction))).Some? <==> !fraction.Finite?
  {
    if fraction.Finite? {
      JointEncodingIsFraction(fraction);
    }
  }

  /** Every tick is live and every command carries this fraction for the joint. */
  predicate Follows(v: ArmValue, es: seq<ArmEvent>, i: nat, fraction: Float) {
    es == [] ||
    (var before, last := ArmRun(v, es[..|es| - 1]), es[|es| - 1];
     && Follows(v, es[..|es| - 1], i, fraction)
     && (last.Command? ==> v.CommandFor(last.values, i) == fraction)
     && (last.ArmTick? ==> before.DeadmanReason(last.nowS) == None))
  }

  /** Where the fraction leads, in ticks. */
  function FractionTarget(limits: Limits, fraction: real): int {
    Clamp(MapFraction(fraction, limits.low, limits.high), limits.low, limits.high)
  }

  predicate IsFraction(value: Float) {
    JointMotion(value) == None && InFractionRange(value)
  }

  predicate Following(v: ArmValue, i: nat, limits: Limits, fraction: real) {
    && Sound(v) && i < ARM_COUNT && v.joints[i].limits == Some(limits)
    && v.joints[i].value == Finite(fraction) && IsFraction(Finite(fraction))
  }

  lemma FollowStep(v: ArmValue, i: nat, limits: Limits, fraction: real, nowS: real, presents: seq<Option<int>>,
                   start: int, travel: int)
    requires Following(v, i, limits, fraction) && v.DeadmanReason(nowS) == None && travel >= 0 && limits.Inside(start)
    requires if v.joints[i].goal == None then At(presents, i) == Some(start) && travel == 0
             else v.joints[i].goal == Some(ClampTinyDelta(FractionTarget(limits, fraction), start, travel))
    ensures var t := v.Tick(nowS, presents);
            && Following(t, i, limits, fraction)
            && t.joints[i].goal == Some(ClampTinyDelta(FractionTarget(limits, fraction), start, travel + v.maxDelta))
  {
    hide MapFraction, JointMotion, InFractionRange, ArmValue.DeadmanReason, Sound;
    NextIsSound(v, ArmTick(nowS, presents));
    assert |v.joints| == ARM_COUNT && v.maxDelta > 0 by { Five(v); }
    StepsAddUp(FractionTarget(limits, fraction), start, travel, v.maxDelta);
  }

  /** Without a goal, a present position that is unknown or outside the limits starts nothing. */
  lemma NoStep(v: ArmValue, i: nat, limits: Limits, fraction: real, nowS: real, presents: seq<Option<int>>)
    requires Following(v, i, limits, fraction) && v.DeadmanReason(nowS) == None
    requires v.joints[i].goal == None && !Reported(At(presents, i), limits)
    ensures Following(v.Tick(nowS, presents), i, limits, fraction) && v.Tick(nowS, presents).joints[i].goal == None
  {
    hide MapFraction, JointMotion, InFractionRange, ArmValue.DeadmanReason, Sound;
    NextIsSound(v, ArmTick(nowS, presents));
    Five(v);
  }

  predicate Reported(present: Option<int>, limits: Limits) {
    present.Some? && limits.Inside(present.value)
  }

  /** Where a walk starts: at the goal, or at the first present position inside the limits. */
  function WalkStart(es: seq<ArmEvent>, i: nat, limits: Limits, goal: Option<int>): Option<int> {
    if es == [] then goal
    else
      var before, last := WalkStart(es[..|es| - 1], i, limits, goal), es[|es| - 1];
      if before.Some? then before
      else if last.ArmTick? && Reported(At(last.presents, i), limits) then At(last.presents, i) else None
  }

  predicate Counts(es: seq<ArmEvent>, i: nat, limits: Limits, goal: Option<int>)
    requires es != []
  {
    es[|es| - 1].ArmTick? && WalkStart(es, i, limits, goal).Some?
  }

  /** The ticks of the walk, from the first that has something to start from. */
  function Ticks(es: seq<ArmEvent>, i: nat, limits: Limits, goal: Option<int>): nat {
    if es == [] then 0 else Ticks(es[..|es| - 1], i, limits, goal) + if Counts(es, i, limits, goal) then 1 else 0
  }

  function Travel(es: seq<ArmEvent>, i: nat, limits: Limits, goal: Option<int>, step: int): int {
    if es == [] then 0 else Travel(es[..|es| - 1], i, limits, goal, step) + if Counts(es, i, limits, goal) then step else 0
  }

  lemma {:induction false} TravelIsTicks(es: seq<ArmEvent>, i: nat, limits: Limits, goal: Option<int>, step: int)
    ensures Travel(es, i, limits, goal, step) == Ticks(es, i, limits, goal) * step
  {
    if es != [] {
      var n := Ticks(es[..|es| - 1], i, limits, goal);
      TravelIsTicks(es[..|es| - 1], i, limits, goal, step);
      assert (n + 1) * step == n * step + step;
    }
  }

  lemma Five(v: ArmValue)
    requires Sound(v)
    ensures |v.joints| == ARM_COUNT && v.maxDelta > 0
  {
  }

  /** Ticks of a constant fraction on a live link walk from the start exactly that many bounded steps. */
  lemma {:induction false} FollowWalk(v: ArmValue, es: seq<ArmEvent>, i: nat, limits: Limits, fraction: real)
    requires Following(v, i, limits, fraction) && Follows(v, es, i, Finite(fraction))
    requires v.joints[i].goal.Some? ==> limits.Inside(v.joints[i].goal.value)
    ensures var r, goal := ArmRun(v, es), v.joints[i].goal;
            var start, travel := WalkStart(es, i, limits, goal), Travel(es, i, limits, goal, v.maxDelta);
            && Following(r, i, limits, fraction) && r.maxDelta == v.maxDelta && travel >= 0
            && (start == None ==> travel == 0) && (start.Some? ==> limits.Inside(start.value))
            && r.joints[i].goal == if start == None then None
                                   else Some(ClampTinyDelta(FractionTarget(limits, fraction), start.value, travel))
  {
    hide FractionTarget, IsFraction, Sound, ArmValue.DeadmanReason, ArmValue.Tick;
    Five(v);
    RunIsSound(v, es);
    if es != [] {
      hide ClampTinyDelta;
      var before, last, goal := ArmRun(v, es[..|es| - 1]), es[|es| - 1], v.joints[i].goal;
      FollowWalk(v, es[..|es| - 1], i, limits, fraction);
      Five(before);
      if last.ArmTick? {
        var start := WalkStart(es, i, limits, goal);
        if start.Some? {
          var travel := Travel(es[..|es| - 1], i, limits, goal, v.maxDelta);
          FollowStep(before, i, limits, fraction, last.nowS, last.presents, start.value, travel);
        } else {
          NoStep(before, i, limits, fraction, last.nowS, last.presents);
        }
      }
    }
  }

  /** The target is the mapped fraction itself. */
  lemma TargetIsMapped(limits: Limits, fraction: real)
    requires limits.low <= limits.high
    ensures FractionTarget(limits, fraction) == MapFraction(fraction, limits.low, limits.high)
  {
    MapFractionInside(fraction, limits.low, limits.high);
  }

  /**
    Leader tracking terminates for a joint as for the jaw: after ceil(distance / max_delta) live
    ticks the goal is the mapped fraction; before that it is max_delta per tick closer without
    overshoot; it then stays. The distance is from the goal, or from the first present position
    inside the limits, and the ticks count from there.
   */
  lemma JointArrives(v: ArmValue, es: seq<ArmEvent>, i: nat, limits: Limits, fraction: real, start: int)
    requires Following(v, i, limits, fraction) && Follows(v, es, i, Finite(fraction))
    requires WalkStart(es, i, limits, v.joints[i].goal) == Some(start)
    ensures Sound(ArmRun(v, es)) && v.maxDelta > 0
    ensures var goal, n := ArmRun(v, es).joints[i].goal, Ticks(es, i, limits, v.joints[i].goal);
            goal.Some? && Walked(goal.value, MapFraction(fraction, limits.low, limits.high), start, n, v.maxDelta)
  {
    GoalInside(v, i, limits, fraction);
    hide ArmRun, Follows, FractionTarget, ClampTinyDelta, IsFraction, Sound, WalkStart, MapFraction, Walked, Ticks, Travel;
    Five(v);
    FollowWalk(v, es, i, limits, fraction);
    Five(ArmRun(v, es));
    TargetIsMapped(limits, fraction);
    TravelIsTicks(es, i, limits, v.joints[i].goal, v.maxDelta);
    WalkArrives(FractionTarget(limits, fraction), start, Ticks(es, i, limits, v.joints[i].goal), v.maxDelta);
  }

  lemma GoalInside(v: ArmValue, i: nat, limits: Limits, fraction: real)
    requires Following(v, i, limits, fraction)
    ensures limits.low <= limits.high && (v.joints[i].goal.Some? ==> limits.Inside(v.joints[i].goal.value))
  {
    assert SoundJoint(v.joints[i]);
  }
}
