/**
  The jaw policy: keyboard tokens step once, a leader fraction is walked to, a deadman drops the
  goal. `GripperValue` gives the controller's steps; the class is the controller.
 */
module Gripper {
  import opened Wrappers
  import opened Motion

  const CONNECTED := "CONNECTED"
  const TIMEOUT := "TIMEOUT"
  const SAFE_STOP := "SAFE STOP ACTIVATED"
  const WATCHDOG_OK := "OK"
  const DEFAULT_MAX_DELTA_TICKS := 48
  const POSITION_MIN := 0
  const POSITION_MAX := 4095
  const OPEN_LEVEL := 0.75
  const CLOSE_LEVEL := 0.25
  const TOKEN_TOLERANCE := 0.0001

  /** Why a controller is in deadman. */
  datatype Deadman = NoCommand | CommandTimeout | NonFinite | NoState | BadWatchdog(state: string) | BadLink(state: string)

  predicate Near(value: real, token: real) {
    AbsReal(value - token) <= TOKEN_TOLERANCE
  }

  /** One of the five floats the keyboard sends. */
  predicate IsKeyboardGripper(value: real) {
    Near(value, 0.0) || Near(value, 0.25) || Near(value, 0.5) || Near(value, 0.75) || Near(value, 1.0)
  }

  function GripperMotion(value: real): int {
    if value >= OPEN_LEVEL then 1 else if value <= CLOSE_LEVEL then -1 else 0
  }

  datatype GripperOutput = GripperOutput(torqueEnable: bool, goalPosition: Option<int>, deadman: Option<Deadman>)

  datatype GripperValue = GripperValue(
    rangeMin: int, rangeMax: int, maxDelta: int, commandTimeoutS: real,
    lastSafeS: Option<real>, lastValue: Float, seenState: bool, connectionState: string, watchdogState: string,
    goal: Option<int>, output: Option<int>, seen: Option<real>, live: bool)
  {
    function ClampGoal(goal: int): int {
      Clamp(goal, MaxInt(rangeMin, POSITION_MIN), MinInt(rangeMax, POSITION_MAX))
    }

    function DeadmanReason(nowS: real): Option<Deadman> {
      if lastSafeS == None then Some(NoCommand)
      else if nowS - lastSafeS.value > commandTimeoutS then Some(CommandTimeout)
      else if !lastValue.Finite? then Some(NonFinite)
      else if !seenState then Some(NoState)
      else if watchdogState != WATCHDOG_OK then Some(BadWatchdog(if watchdogState == "" then SAFE_STOP else watchdogState))
      else if connectionState != CONNECTED then Some(BadLink(if connectionState == "" then TIMEOUT else connectionState))
      else None
    }

    function OnGripperSafe(value: Float, nowS: real): GripperValue {
      this.(lastSafeS := Some(nowS), lastValue := value)
    }

    function OnTeleopState(connection: string, watchdog: string): GripperValue {
      this.(seenState := true, connectionState := connection, watchdogState := watchdog)
    }

    function Base(present: int): int {
      if goal.Some? then goal.value else present
    }

    /** One bounded step from the last goal towards the jaw fraction. */
    function TrackPosition(present: int, value: real): GripperValue {
      var target := ClampGoal(MapFraction(value, rangeMin, rangeMax));
      var stepped := ClampGoal(ClampTinyDelta(target, Base(present), maxDelta));
      this.(goal := Some(stepped), output := Some(stepped), seen := Some(value))
    }

    /** The step a keyboard token takes now: zero when it is latched, a hold, or the first sample. */
    function KeyStep(value: real): int {
      if live && IsKeyboardGripper(value) && seen != Some(value) then GripperMotion(value) else 0
    }

    function LiveTick(present: int): GripperValue
      requires lastValue.Finite?
    {
      var value := lastValue.r;
      if !IsKeyboardGripper(value) then TrackPosition(present, value).(live := true)
      else if !live then this.(live := true, seen := Some(value), output := Some(ClampGoal(present)))
      else if KeyStep(value) == 0 then this.(seen := Some(value))
      else
        var stepped := ClampGoal(Base(present) + KeyStep(value) * maxDelta);
        this.(seen := Some(value), goal := Some(stepped), output := Some(stepped))
    }

    function Tick(nowS: real, present: int): GripperValue {
      if DeadmanReason(nowS).Some? then this.(goal := None, output := None, live := false)
      else LiveTick(present)
    }

    function TickOutput(nowS: real, present: int): GripperOutput {
      if DeadmanReason(nowS).Some? then GripperOutput(false, None, DeadmanReason(nowS))
      else GripperOutput(true, Tick(nowS, present).output, None)
    }
  }

  /** The controller as constructed. */
  function NewJaw(rangeMin: int, rangeMax: int, maxDelta: int, commandTimeoutS: real): GripperValue {
    GripperValue(rangeMin, rangeMax, maxDelta, commandTimeoutS, None, Finite(0.0), false, TIMEOUT, SAFE_STOP, None, None, None,
                 false)
  }

  class GripperController {
    const rangeMin: int
    const rangeMax: int
    const maxDelta: int
    const commandTimeoutS: real
    var lastSafeS: Option<real>
    var lastValue: Float
    var seenState: bool
    var connectionState: string
    var watchdogState: string
    var goal: Option<int>
    var output: Option<int>
    var seen: Option<real>
    var live: bool

    function Value(): GripperValue
      reads this
    {
      GripperValue(rangeMin, rangeMax, maxDelta, commandTimeoutS, lastSafeS, lastValue, seenState, connectionState,
                   watchdogState, goal, output, seen, live)
    }

    constructor (rangeMin: int, rangeMax: int, maxDelta: int, commandTimeoutS: real)
      requires maxDelta > 0 && rangeMax > rangeMin
      ensures Value() == NewJaw(rangeMin, rangeMax, maxDelta, commandTimeoutS)
    {
      this.rangeMin, this.rangeMax := rangeMin, rangeMax;
      this.maxDelta, this.commandTimeoutS := maxDelta, commandTimeoutS;
      lastSafeS, lastValue := None, Finite(0.0);
      seenState, connectionState, watchdogState := false, TIMEOUT, SAFE_STOP;
      goal, output, seen, live := None, None, None, false;
    }

    method OnGripperSafe(value: Float, nowS: real)
      modifies this
      ensures Value() == old(Value()).OnGripperSafe(value, nowS)
    {
      lastSafeS := Some(nowS);
      lastValue := value;
    }

    method OnTeleopState(connection: string, watchdog: string)
      modifies this
      ensures Value() == old(Value()).OnTeleopState(connection, watchdog)
    {
      seenState := true;
      connectionState := connection;
      watchdogState := watchdog;
    }

    method Tick(nowS: real, present: int) returns (out: GripperOutput)
      modifies this
      ensures Value() == old(Value()).Tick(nowS, present)
      ensures out == old(Value()).TickOutput(nowS, present)
    {
      hide MapFraction, IsKeyboardGripper, GripperMotion;
      var reason := Value().DeadmanReason(nowS);
      if reason.Some? {
        goal, output, live := None, None, false;
        return GripperOutput(false, None, reason);
      }
      var value := lastValue.r;
      if !live {
        live := true;
        seen := Some(value);
        if !IsKeyboardGripper(value) {
          TrackPosition(present, value);
          return GripperOutput(true, output, None);
        }
        output := Some(Value().ClampGoal(present));
        return GripperOutput(true, output, None);
      }
      if !IsKeyboardGripper(value) {
        TrackPosition(present, value);
        return GripperOutput(true, output, None);
      }
      if Some(value) != seen {
        var motion := GripperMotion(value);
        seen := Some(value);
        if motion != 0 {
          var base := if goal.Some? then goal.value else present;
          goal := Some(Value().ClampGoal(base + motion * maxDelta));
          output := goal;
        }
      }
      return GripperOutput(true, output, None);
    }

    method TrackPosition(present: int, value: real)
      modifies this
      ensures Value() == old(Value()).TrackPosition(present, value)
    {
      hide GripperValue.ClampGoal, MapFraction;
      var base := if goal.Some? then goal.value else present;
      var target := Value().ClampGoal(MapFraction(value, rangeMin, rangeMax));
      var stepped := Value().ClampGoal(ClampTinyDelta(target, base, maxDelta));
      goal := Some(stepped);
      output := Some(stepped);
      seen := Some(value);
    }
  }

  // ---------- Following a leader ----------

  datatype Event = Safe(value: Float, nowS: real) | Link(connection: string, watchdog: string) | TickAt(nowS: real, present: int)

  function Apply(v: GripperValue, e: Event): GripperValue {
    match e
    case Safe(value, nowS) => v.OnGripperSafe(value, nowS)
    case Link(connection, watchdog) => v.OnTeleopState(connection, watchdog)
    case TickAt(nowS, present) => v.Tick(nowS, present)
  }

  function Run(v: GripperValue, es: seq<Event>): GripperValue {
    if es == [] then v else Apply(Run(v, es[..|es| - 1]), es[|es| - 1])
  }

  function Ticks(es: seq<Event>): nat {
    if es == [] then 0 else Ticks(es[..|es| - 1]) + if es[|es| - 1].TickAt? then 1 else 0
  }

  /** One bounded step per tick. */
  function Travel(es: seq<Event>, step: int): int {
    if es == [] then 0 else Travel(es[..|es| - 1], step) + if es[|es| - 1].TickAt? then step else 0
  }

  lemma {:induction false} TravelIsTicks(es: seq<Event>, step: int)
    ensures Travel(es, step) == Ticks(es) * step
  {
    if es != [] {
      TravelIsTicks(es[..|es| - 1], step);
      assert (Ticks(es[..|es| - 1]) + 1) * step == Ticks(es[..|es| - 1]) * step + step;
    }
  }

  /** Every tick of the run is live, and every sample is this fraction. */
  predicate ConstantAndLive(v: GripperValue, es: seq<Event>, fraction: real) {
    es == [] ||
    (var before, last := Run(v, es[..|es| - 1]), es[|es| - 1];
     && ConstantAndLive(v, es[..|es| - 1], fraction)
     && (last.Safe? ==> last.value == Finite(fraction))
     && (last.TickAt? ==> before.DeadmanReason(last.nowS) == None))
  }

  /** The opening a fraction asks for. */
  function Target(v: GripperValue, fraction: real): int {
    v.ClampGoal(MapFraction(fraction, v.rangeMin, v.rangeMax))
  }

  predicate InRange(v: GripperValue, position: int) {
    v.ClampGoal(position) == position
  }

  /** The present position of the first tick. */
  function FirstPresent(es: seq<Event>): Option<int> {
    if es == [] then None
    else
      var before := FirstPresent(es[..|es| - 1]);
      if before.Some? then before else if es[|es| - 1].TickAt? then Some(es[|es| - 1].present) else None
  }

  /** Where a walk starts: at the goal, or where the jaw is at the first tick. */
  function WalkStart(v: GripperValue, es: seq<Event>): Option<int> {
    if v.goal.Some? then v.goal else FirstPresent(es)
  }

  /** Ticks of a constant fraction on a live link walk from the start exactly that many bounded steps. */
  lemma {:induction false} LeaderWalk(v: GripperValue, es: seq<Event>, fraction: real)
    requires v.maxDelta > 0 && v.lastValue == Finite(fraction) && !IsKeyboardGripper(fraction)
    requires WalkStart(v, es).Some? ==> InRange(v, WalkStart(v, es).value)
    requires ConstantAndLive(v, es, fraction)
    ensures var r, start := Run(v, es), WalkStart(v, es);
            && r == v.(lastSafeS := r.lastSafeS, seenState := r.seenState, connectionState := r.connectionState,
                       watchdogState := r.watchdogState, goal := r.goal, output := r.output, seen := r.seen, live := r.live)
            && Travel(es, v.maxDelta) >= 0 && (start == None ==> Travel(es, v.maxDelta) == 0)
            && r.goal == if start == None then None
                         else Some(ClampTinyDelta(Target(v, fraction), start.value, Travel(es, v.maxDelta)))
  {
    hide IsKeyboardGripper, MapFraction, ClampTinyDelta, Clamp;
    if es == [] {
      if v.goal.Some? {
        NoTravel(Target(v, fraction), v.goal.value);
      }
    } else {
      var init, last := es[..|es| - 1], es[|es| - 1];
      LeaderWalk(v, init, fraction);
      if last.TickAt? {
        WalkStep(Run(v, init), fraction, last.nowS, last.present, WalkStart(v, es).value, Travel(init, v.maxDelta));
      }
    }
  }

  lemma NoTravel(target: int, start: int)
    ensures ClampTinyDelta(target, start, 0) == start
  {
  }

  lemma WalkStep(v: GripperValue, fraction: real, nowS: real, present: int, start: int, travel: int)
    requires v.maxDelta > 0 && travel >= 0 && v.lastValue == Finite(fraction) && !IsKeyboardGripper(fraction)
    requires InRange(v, start) && v.DeadmanReason(nowS) == None
    requires if v.goal == None then start == present && travel == 0
             else v.goal == Some(ClampTinyDelta(Target(v, fraction), start, travel))
    ensures var next := Some(ClampTinyDelta(Target(v, fraction), start, travel + v.maxDelta));
            v.Tick(nowS, present) == v.(goal := next, output := next, seen := Some(fraction), live := true)
  {
    hide IsKeyboardGripper, MapFraction;
    StepsAddUp(Target(v, fraction), start, travel, v.maxDelta);
  }

  /** With the range inside the servo's, the target is the mapped fraction itself. */
  lemma TargetIsMapped(v: GripperValue, fraction: real)
    requires POSITION_MIN <= v.rangeMin <= v.rangeMax <= POSITION_MAX
    ensures Target(v, fraction) == MapFraction(fraction, v.rangeMin, v.rangeMax)
  {
    MapFractionInside(fraction, v.rangeMin, v.rangeMax);
  }

  /**
    Leader tracking terminates: after ceil(distance / max_delta) live ticks the goal is the
    target, before that it has not overshot and is max_delta per tick closer, and it then stays.
    The distance is from the goal, or from the present position of the first tick without one.
   */
  lemma {:induction false} LeaderArrives(v: GripperValue, es: seq<Event>, fraction: real, start: int)
    requires v.maxDelta > 0 && v.lastValue == Finite(fraction) && !IsKeyboardGripper(fraction)
    requires WalkStart(v, es) == Some(start) && InRange(v, start) && ConstantAndLive(v, es, fraction)
    ensures var goal := Run(v, es).goal;
            goal.Some? && Walked(goal.value, Target(v, fraction), start, Ticks(es), v.maxDelta)
    ensures POSITION_MIN <= v.rangeMin <= v.rangeMax <= POSITION_MAX ==>
              Target(v, fraction) == MapFraction(fraction, v.rangeMin, v.rangeMax)
  {
    hide Run, ConstantAndLive, ClampTinyDelta, Target, MapFraction, WalkStart, Walked;
    LeaderWalk(v, es, fraction);
    if POSITION_MIN <= v.rangeMin <= v.rangeMax <= POSITION_MAX {
      TargetIsMapped(v, fraction);
    }
    TravelIsTicks(es, v.maxDelta);
    WalkArrives(Target(v, fraction), start, Ticks(es), v.maxDelta);
  }

  // ---------- Bounds ----------

  predicate JawSound(v: GripperValue) {
    && v.maxDelta > 0
    && (v.goal.Some? ==> InRange(v, v.goal.value)) && (v.output.Some? ==> InRange(v, v.output.value))
  }

  /** A tick keeps goal and output inside the range and moves a goal there was at most one step. */
  lemma JawTickIsSound(v: GripperValue, nowS: real, present: int)
    requires JawSound(v)
    ensures var t := v.Tick(nowS, present);
            && JawSound(t) && t.maxDelta == v.maxDelta && t.rangeMin == v.rangeMin && t.rangeMax == v.rangeMax
            && (t.goal.Some? && v.goal.Some? ==> Abs(t.goal.value - v.goal.value) <= v.maxDelta)
  {
    hide IsKeyboardGripper, MapFraction, GripperValue.KeyStep, GripperValue.ClampGoal;
    forall x: int ensures v.Tick(nowS, present).ClampGoal(x) == v.ClampGoal(x) {
      SameClamp(v, v.Tick(nowS, present), x);
    }
    if v.DeadmanReason(nowS) == None {
      var value := v.lastValue.r;
      KeyStepIsSign(v, value);
      forall x: int ensures InRange(v, v.ClampGoal(x)) {
        ClampedInRange(v, x);
      }
      var base := v.Base(present);
      if InRange(v, base) {
        StepIsClose(v, base, v.KeyStep(value));
        TargetIsClose(v, base, Target(v, value));
      }
    }
  }

  /**
    A first goal is within one step of the present position exactly when the range itself is:
    when clamping the present position moves it at most one step.
   */
  lemma FirstGoalIsClose(v: GripperValue, nowS: real, present: int)
    requires JawSound(v) && v.goal == None && v.Tick(nowS, present).goal.Some?
    ensures Abs(v.Tick(nowS, present).goal.value - present) <= v.maxDelta
       <==> Abs(v.ClampGoal(present) - present) <= v.maxDelta
  {
    hide IsKeyboardGripper, MapFraction, GripperValue.KeyStep;
    var value := v.lastValue.r;
    KeyStepIsSign(v, value);
    var sign := v.KeyStep(value);
    assert sign * v.maxDelta == if sign == 0 then 0 else if sign == 1 then v.maxDelta else -v.maxDelta;
  }

  /** The ends of the goals' range. */
  function LowEnd(v: GripperValue): int { MaxInt(v.rangeMin, POSITION_MIN) }

  function HighEnd(v: GripperValue): int { MinInt(v.rangeMax, POSITION_MAX) }

  /** A new keyboard token at a live tick. */
  predicate NewToken(v: GripperValue, nowS: real) {
    && v.DeadmanReason(nowS) == None && v.live && IsKeyboardGripper(v.lastValue.r) && v.seen != Some(v.lastValue.r)
  }

  /**
    A new token opens or closes the jaw. From a base inside the range, the last goal or the present
    position when there is none: at or above 0.75 the goal goes one step up, at or below 0.25 one
    step down, stopping at the end of the range; between them no goal is set or moved.
   */
  lemma TokenMovesGoal(v: GripperValue, nowS: real, present: int)
    requires NewToken(v, nowS) && v.maxDelta > 0
    ensures var x, base, goal := v.lastValue.r, v.Base(present), v.Tick(nowS, present).goal;
            && (OPEN_LEVEL <= x && LowEnd(v) <= base <= HighEnd(v) ==>
                  && goal.Some? && base <= goal.value <= HighEnd(v)
                  && (base + v.maxDelta <= HighEnd(v) ==> goal.value == base + v.maxDelta)
                  && (base + v.maxDelta > HighEnd(v) ==> goal.value == HighEnd(v)))
            && (x <= CLOSE_LEVEL && LowEnd(v) <= base <= HighEnd(v) ==>
                  && goal.Some? && LowEnd(v) <= goal.value <= base
                  && (base - v.maxDelta >= LowEnd(v) ==> goal.value == base - v.maxDelta)
                  && (base - v.maxDelta < LowEnd(v) ==> goal.value == LowEnd(v)))
            && (CLOSE_LEVEL < x < OPEN_LEVEL ==> goal == v.goal)
  {
    hide IsKeyboardGripper, MapFraction;
  }

  /** A token seen before, or the first one after a deadman, moves nothing; the first puts out where the jaw is. */
  lemma OldTokenMovesNothing(v: GripperValue, nowS: real, present: int)
    requires v.DeadmanReason(nowS) == None && IsKeyboardGripper(v.lastValue.r) && !NewToken(v, nowS)
    ensures v.Tick(nowS, present).goal == v.goal && v.Tick(nowS, present).seen == Some(v.lastValue.r)
    ensures v.Tick(nowS, present).output == if v.live then v.output else Some(v.ClampGoal(present))
  {
    hide IsKeyboardGripper, MapFraction;
  }

  function Sign(x: int): int {
    if x > 0 then 1 else if x < 0 then -1 else 0
  }

  /** Which way a live tick that reads a keyboard token moves the goal, from the last goal or from where the jaw is. */
  function KeyMove(v: GripperValue, nowS: real, present: int): int {
    var after := v.Tick(nowS, present).goal;
    if v.DeadmanReason(nowS) == None && IsKeyboardGripper(v.lastValue.r) && after.Some? && after != v.goal
    then Sign(after.value - v.ClampGoal(v.Base(present))) else 0
  }

  predicate HasRoom(v: GripperValue, base: int) {
    LowEnd(v) <= base - v.maxDelta && base + v.maxDelta <= HighEnd(v)
  }

  /** The goal moves the way the token says, or not at all; with room on both sides it moves a whole step. */
  lemma GoalMovesAsPressed(v: GripperValue, nowS: real, present: int)
    requires JawSound(v)
    ensures var moved, step := KeyMove(v, nowS, present), if v.DeadmanReason(nowS) == None then v.KeyStep(v.lastValue.r) else 0;
            && (moved == 0 || moved == step)
            && (step != 0 && HasRoom(v, v.Base(present)) ==>
                  moved == step && v.Tick(nowS, present).goal == Some(v.Base(present) + step * v.maxDelta))
  {
    hide IsKeyboardGripper, MapFraction;
    if v.DeadmanReason(nowS) == None {
      var x := v.lastValue.r;
      KeyStepIsSign(v, x);
      var step := v.KeyStep(x);
      assert step * v.maxDelta == if step == 0 then 0 else if step == 1 then v.maxDelta else -v.maxDelta;
    }
  }

  /** Over every run, whatever positions the jaw reports. */
  lemma {:induction false} JawRunIsSound(v: GripperValue, es: seq<Event>)
    requires JawSound(v)
    ensures var r := Run(v, es);
            JawSound(r) && r.maxDelta == v.maxDelta && r.rangeMin == v.rangeMin && r.rangeMax == v.rangeMax
  {
    if es != [] {
      hide GripperValue.Tick, GripperValue.ClampGoal;
      var before, last := Run(v, es[..|es| - 1]), es[|es| - 1];
      JawRunIsSound(v, es[..|es| - 1]);
      if last.TickAt? {
        JawTickIsSound(before, last.nowS, last.present);
      } else {
        forall x: int ensures Run(v, es).ClampGoal(x) == before.ClampGoal(x) {
          SameClamp(before, Run(v, es), x);
        }
      }
    }
  }

  /**
    In every run of a controller, a tick that makes a goal where there was none makes it within
    one step of the present position exactly when clamping that position moves it at most one step.
   */
  lemma FirstGoalsAreClose(rangeMin: int, rangeMax: int, maxDelta: int, timeoutS: real, es: seq<Event>, nowS: real, present: int)
    requires maxDelta > 0
    requires var before := Run(NewJaw(rangeMin, rangeMax, maxDelta, timeoutS), es);
             before.goal == None && before.Tick(nowS, present).goal.Some?
    ensures var jaw := NewJaw(rangeMin, rangeMax, maxDelta, timeoutS);
            && (Abs(Run(jaw, es).Tick(nowS, present).goal.value - present) <= maxDelta
                <==> Abs(jaw.ClampGoal(present) - present) <= maxDelta)
  {
    hide GripperValue.Tick, GripperValue.ClampGoal, Run;
    var jaw := NewJaw(rangeMin, rangeMax, maxDelta, timeoutS);
    JawRunIsSound(jaw, es);
    FirstGoalIsClose(Run(jaw, es), nowS, present);
    SameClamp(jaw, Run(jaw, es), present);
  }

  lemma KeyStepIsSign(v: GripperValue, value: real)
    ensures -1 <= v.KeyStep(value) <= 1
  {
  }

  lemma SameClamp(v: GripperValue, t: GripperValue, x: int)
    requires t.rangeMin == v.rangeMin && t.rangeMax == v.rangeMax
    ensures t.ClampGoal(x) == v.ClampGoal(x)
  {
  }

  lemma ClampedInRange(v: GripperValue, x: int)
    ensures v.ClampGoal(v.ClampGoal(x)) == v.ClampGoal(x)
  {
  }

  lemma StepIsClose(v: GripperValue, base: int, sign: int)
    requires v.maxDelta > 0 && InRange(v, base) && -1 <= sign <= 1
    ensures Abs(v.ClampGoal(base + sign * v.maxDelta) - base) <= v.maxDelta
  {
    assert sign * v.maxDelta == if sign == 0 then 0 else if sign == 1 then v.maxDelta else -v.maxDelta;
  }

  lemma TargetIsClose(v: GripperValue, base: int, target: int)
    requires v.maxDelta > 0 && InRange(v, base)
    ensures Abs(v.ClampGoal(ClampTinyDelta(target, base, v.maxDelta)) - base) <= v.maxDelta
  {
  }

  /** A run whose first goal is further away: the jaw reports a position far below its range. */
  lemma JawStepsIntoRange() returns (es: seq<Event>)
    ensures var before := Run(NewJaw(2036, 3466, DEFAULT_MAX_DELTA_TICKS, 0.5), es);
            && before.goal == None && before.Tick(0.0, 100).goal.Some?
            && before.Tick(0.0, 100).goal.value - 100 > DEFAULT_MAX_DELTA_TICKS
  {
    hide MapFraction;
    var jaw := NewJaw(2036, 3466, DEFAULT_MAX_DELTA_TICKS, 0.5);
    var linked, ready := [Link(CONNECTED, WATCHDOG_OK)], [Link(CONNECTED, WATCHDOG_OK), Safe(Finite(0.1), 0.0)];
    es := ready;
    assert linked[..0] == [] && ready[..1] == linked;
    assert Run(jaw, linked) == jaw.OnTeleopState(CONNECTED, WATCHDOG_OK);
    assert Run(jaw, ready) == jaw.OnTeleopState(CONNECTED, WATCHDOG_OK).OnGripperSafe(Finite(0.1), 0.0);
    assert Run(jaw, ready).DeadmanReason(0.0) == None;
  }

  // ---------- When the jaw is live, from the events alone ----------

  function LastSafe(es: seq<Event>): (k: Option<nat>)
    ensures k.Some? ==> k.value < |es| && es[k.value].Safe?
  {
    if es == [] then None else if es[|es| - 1].Safe? then Some(|es| - 1) else LastSafe(es[..|es| - 1])
  }

  function LastLink(es: seq<Event>): (k: Option<nat>)
    ensures k.Some? ==> k.value < |es| && es[k.value].Link?
  {
    if es == [] then None else if es[|es| - 1].Link? then Some(|es| - 1) else LastLink(es[..|es| - 1])
  }

  /** The last float came in time and is a number, and the last state told was OK and CONNECTED. */
  predicate LiveAt(es: seq<Event>, timeoutS: real, nowS: real) {
    var k, j := LastSafe(es), LastLink(es);
    && k.Some? && nowS - es[k.value].nowS <= timeoutS && es[k.value].value.Finite?
    && j.Some? && es[j.value].watchdog == WATCHDOG_OK && es[j.value].connection == CONNECTED
  }

  predicate Follows(v: GripperValue, timeoutS: real, es: seq<Event>) {
    var k, j := LastSafe(es), LastLink(es);
    && v.commandTimeoutS == timeoutS
    && v.lastSafeS == (if k == None then None else Some(es[k.value].nowS)) && (k.Some? ==> v.lastValue == es[k.value].value)
    && v.seenState == j.Some?
    && (j.Some? ==> v.connectionState == es[j.value].connection && v.watchdogState == es[j.value].watchdog)
  }

  lemma {:induction false} RunFollows(v: GripperValue, es: seq<Event>)
    requires v.lastSafeS == None && !v.seenState
    ensures Follows(Run(v, es), v.commandTimeoutS, es)
  {
    if es != [] {
      hide MapFraction, IsKeyboardGripper;
      RunFollows(v, es[..|es| - 1]);
    }
  }

  /**
    After every run of a new controller a tick is live exactly when the last jaw float came at most
    the timeout before it and is a number, and the last state told was OK and CONNECTED. A tick
    that is not live turns torque off, asks for no goal and drops the one there was.
   */
  lemma JawLiveExactly(rangeMin: int, rangeMax: int, maxDelta: int, timeoutS: real, es: seq<Event>, nowS: real, present: int)
    ensures var jaw := Run(NewJaw(rangeMin, rangeMax, maxDelta, timeoutS), es);
            var out, after := jaw.TickOutput(nowS, present), jaw.Tick(nowS, present);
            && (out.deadman == None <==> LiveAt(es, timeoutS, nowS))
            && out.torqueEnable == LiveAt(es, timeoutS, nowS) && after.live == LiveAt(es, timeoutS, nowS)
            && (!LiveAt(es, timeoutS, nowS) ==> out.goalPosition == None && after.goal == None && after.output == None)
  {
    hide Run, MapFraction, IsKeyboardGripper;
    RunFollows(NewJaw(rangeMin, rangeMax, maxDelta, timeoutS), es);
  }

  /** With a goal, what is put out is the goal; a live controller always puts something out. */
  predicate OutputFollows(v: GripperValue) {
    (v.goal.Some? ==> v.output == v.goal) && (v.live ==> v.output.Some?) && (!v.live ==> v.goal == None && v.output == None)
  }

  /**
    Over every run of a new controller, a live tick asks for its goal, and for the place where it
    found the jaw when the link came up as long as there is none.
   */
  lemma {:induction false} OutputIsGoal(rangeMin: int, rangeMax: int, maxDelta: int, timeoutS: real, es: seq<Event>)
    ensures OutputFollows(Run(NewJaw(rangeMin, rangeMax, maxDelta, timeoutS), es))
  {
    if es != [] {
      hide MapFraction, IsKeyboardGripper, GripperValue.ClampGoal, GripperValue.DeadmanReason;
      OutputIsGoal(rangeMin, rangeMax, maxDelta, timeoutS, es[..|es| - 1]);
    }
  }
}
