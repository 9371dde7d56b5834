/**
  Operator presses against robot steps, across the host, the wire and the jaw controller. The
  wire is any in-order, lossy, repeating delivery of the emitted floats.
 */
module GripperPresses {
  import opened Wrappers
  import opened Motion
  import opened Gripper
  import opened Leader
  import opened OperatorKeys

  datatype HostEvent =
    | KeyEvent(key: char, down: bool)
    | PublishEvent(sample: Sample)
    | AttachEvent(asLeader: bool, sample: Sample)
    | DetachEvent(sample: Sample)
    | EnableEvent
    | DisableEvent

  function HostStep(o: OperatorValue, e: HostEvent): OperatorValue {
    match e
    case KeyEvent(key, down) => o.ApplyKey(key, down)
    case PublishEvent(sample) => o.Publish(sample)
    case AttachEvent(asLeader, sample) => o.Attach(asLeader, sample)
    case DetachEvent(sample) => o.Detach(sample)
    case EnableEvent => o.EnableLink()
    case DisableEvent => o.DisableLink()
  }

  /** Publishing, or ending a session, with the link and a session up. */
  predicate Emits(o: OperatorValue, e: HostEvent) {
    (e.PublishEvent? || e.AttachEvent? || e.DetachEvent?) && o.connected && o.socketOpen
  }

  predicate Presses(o: OperatorValue, e: HostEvent) {
    e.KeyEvent? && o.IsPress(e.key, e.down)
  }

  function PressSign(e: HostEvent): int
    requires e.KeyEvent?
  {
    if Binding(e.key) == Some(Open) then 1 else -1
  }

  datatype Event =
    | Host(e: HostEvent)
    | Arrive(index: nat, nowS: real)
    | RobotLink(connection: string, watchdog: string)
    | RobotTick(nowS: real, present: int)

  /**
    Both ends and the wire between: every float emitted and how many presses preceded it, every
    press and every step by sign, which way the goal itself moved at each tick that moved it for a
    keyboard float, and the index of the last float that arrived.
   */
  datatype System = System(op: OperatorValue, robot: GripperValue, emitted: seq<real>, marks: seq<nat>,
                           presses: seq<int>, steps: seq<int>, moves: seq<int>, arrived: nat)

  /** The sign of the keyboard step a tick takes, or zero. */
  function StepTaken(v: GripperValue, nowS: real): int {
    if v.DeadmanReason(nowS) == None then v.KeyStep(v.lastValue.r) else 0
  }

  /** An entry, unless it is zero. */
  function One(x: int): seq<int> {
    if x == 0 then [] else [x]
  }

  function Step(s: System, event: Event): System {
    match event
    case Host(e) =>
      var next := s.(op := HostStep(s.op, e));
      if Emits(s.op, e) then
        next.(emitted := s.emitted + [s.op.EmittedGripper(e.sample)], marks := s.marks + [|s.presses|])
      else if Presses(s.op, e) then next.(presses := s.presses + [PressSign(e)])
      else next
    case Arrive(index, nowS) =>
      if s.arrived <= index < |s.emitted| then
        s.(robot := s.robot.OnGripperSafe(Finite(s.emitted[index]), nowS), arrived := index)
      else s
    case RobotLink(connection, watchdog) => s.(robot := s.robot.OnTeleopState(connection, watchdog))
    case RobotTick(nowS, present) =>
      s.(robot := s.robot.Tick(nowS, present),
         steps := s.steps + One(StepTaken(s.robot, nowS)), moves := s.moves + One(KeyMove(s.robot, nowS, present)))
  }

  function Run(s: System, es: seq<Event>): System {
    if es == [] then s else Step(Run(s, es[..|es| - 1]), es[|es| - 1])
  }

  /** `a` is `b` with entries left out, in order. */
  predicate Subsequence(a: seq<int>, b: seq<int>) {
    a == [] || (b != [] && (|| (a[|a| - 1] == b[|b| - 1] && Subsequence(a[..|a| - 1], b[..|b| - 1]))
                            || Subsequence(a, b[..|b| - 1])))
  }

  lemma {:induction false} SubsequenceOfLonger(a: seq<int>, b: seq<int>, more: seq<int>)
    requires Subsequence(a, b) && b <= more
    ensures Subsequence(a, more)
  {
    if b != more {
      assert b <= more[..|more| - 1];
      SubsequenceOfLonger(a, b, more[..|more| - 1]);
    }
  }

  lemma SubsequenceGrows(a: seq<int>, b: seq<int>, x: int)
    requires Subsequence(a, b)
    ensures Subsequence(a + [x], b + [x])
  {
    assert (a + [x])[..|a|] == a && (b + [x])[..|b|] == b;
  }

  function CountOf(a: seq<int>, x: int): nat {
    if a == [] then 0 else CountOf(a[..|a| - 1], x) + if a[|a| - 1] == x then 1 else 0
  }

  lemma {:induction false} SubsequenceCounts(a: seq<int>, b: seq<int>, x: int)
    requires Subsequence(a, b)
    ensures CountOf(a, x) <= CountOf(b, x) && |a| <= |b|
  {
    if a != [] {
      if a[|a| - 1] == b[|b| - 1] && Subsequence(a[..|a| - 1], b[..|b| - 1]) {
        SubsequenceCounts(a[..|a| - 1], b[..|b| - 1], x);
      } else {
        SubsequenceCounts(a, b[..|b| - 1], x);
      }
    }
  }

  // ---------- What the emitted floats say about the presses ----------

  predicate IsToken(x: real) {
    x == 1.0 || x == 0.75 || x == 0.25 || x == 0.0
  }

  predicate OnTheWire(x: real) {
    IsToken(x) || x == GRIPPER_HOLD || !IsKeyboardGripper(x)
  }

  function LastMark(s: System): nat {
    if s.marks == [] then 0 else s.marks[|s.marks| - 1]
  }

  /** Emission n is a step token only because of the last press before it. */
  predicate Explained(s: System, n: nat)
    requires |s.marks| == |s.emitted| && n < |s.emitted|
  {
    && s.marks[n] <= |s.presses| && OnTheWire(s.emitted[n])
    && (IsToken(s.emitted[n]) ==> s.marks[n] > 0 && s.presses[s.marks[n] - 1] == GripperMotion(s.emitted[n]))
  }

  /** A step token that differs from an earlier float was pressed for since that float. */
  predicate PressedSince(s: System, j: nat, n: nat)
    requires |s.marks| == |s.emitted| && j <= n < |s.emitted|
  {
    s.marks[j] <= s.marks[n]
    && (IsToken(s.emitted[n]) && s.emitted[j] != s.emitted[n] ==> s.marks[j] < s.marks[n])
  }

  /** The same for the float the next emit would carry in keyboard mode. */
  predicate HostExplained(s: System) {
    && OnTheWire(s.op.gripper)
    && (IsToken(s.op.gripper) ==> s.presses != [] && s.presses[|s.presses| - 1] == GripperMotion(s.op.gripper))
    && (IsToken(s.op.gripper) && s.op.gripperSent != Some(s.op.gripper) ==> LastMark(s) < |s.presses|)
    && s.op.gripperSent == (if s.emitted == [] then None else Some(s.emitted[|s.emitted| - 1]))
    && (s.op.connected && !s.op.leader ==> IsToken(s.op.gripper) || s.op.gripper == GRIPPER_HOLD)
  }

  ghost predicate WireExplained(s: System) {
    && |s.marks| == |s.emitted|
    && (forall n :: 0 <= n < |s.emitted| ==> Explained(s, n))
    && (forall j, n :: 0 <= j <= n < |s.emitted| ==> PressedSince(s, j, n))
    && HostExplained(s)
  }

  /** Some arrived float the robot has taken in accounts for the steps so far. */
  ghost predicate RobotExplained(s: System) {
    && |s.marks| == |s.emitted|
    && (s.robot.lastSafeS.Some? ==> s.arrived < |s.emitted| && s.robot.lastValue == Finite(s.emitted[s.arrived]))
    && (s.robot.live ==> s.robot.lastSafeS.Some?)
    && (s.steps == [] || s.robot.lastSafeS.Some?)
    && (s.robot.lastSafeS == None ==> s.arrived == 0)
    && (s.robot.lastSafeS.Some? ==> exists k :: SeenAt(s, k))
  }

  ghost predicate SeenAt(s: System, k: int) {
    && 0 <= k <= s.arrived < |s.emitted| == |s.marks|
    && (s.robot.live ==> s.robot.seen == Some(s.emitted[k]))
    && s.marks[k] <= |s.presses| && Subsequence(s.steps, s.presses[..s.marks[k]])
  }

  ghost predicate Explains(s: System) {
    WireExplained(s) && RobotExplained(s)
  }

  predicate Initial(s: System) {
    && s.op == OperatorValue(false, false, false, GRIPPER_HOLD, None, false, false, None, AllHold(), None)
    && s.robot.lastSafeS == None && !s.robot.live && JawSound(s.robot)
    && s.emitted == [] && s.marks == [] && s.presses == [] && s.steps == [] && s.moves == [] && s.arrived == 0
  }

  // ---------- The invariant is kept ----------

  lemma StepValueIsNew(latched: real, open: bool)
    ensures var v := GripperStepValue(latched, open);
            IsToken(v) && v != latched && GripperMotion(v) == if open then 1 else -1
  {
  }

  lemma EncodedIsOnTheWire(o: OperatorValue, sample: Sample)
    requires OnTheWire(o.gripper)
    ensures OnTheWire(o.EmittedGripper(sample))
    ensures o.leader ==> !IsToken(o.EmittedGripper(sample))
  {
    if o.leader && sample.jaw.Some? {
      GripperHoldsOnlyOnBadReading(sample.jaw.value);
    }
  }

  /** A key that is no press lets the jaw float fall back to hold at most. */
  lemma QuietKey(s: System, key: char, down: bool)
    requires HostExplained(s) && !Presses(s.op, KeyEvent(key, down))
    ensures HostExplained(Step(s, Host(KeyEvent(key, down))))
  {
    hide IsKeyboardGripper, GripperMotion, GripperStepValue, IsToken, OnTheWire;
    TokensAreKeys(GRIPPER_HOLD);
    assert OnTheWire(GRIPPER_HOLD) by { HoldOnTheWire(); }
  }

  lemma HoldOnTheWire()
    ensures OnTheWire(GRIPPER_HOLD) && !IsToken(GRIPPER_HOLD)
  {
  }

  /** Nothing but a press or an emit touches the wire; the jaw float only falls back to hold. */
  lemma QuietKeepsHost(s: System, e: HostEvent)
    requires HostExplained(s) && !Emits(s.op, e) && !Presses(s.op, e)
    ensures HostExplained(Step(s, Host(e)))
  {
    if e.KeyEvent? {
      QuietKey(s, e.key, e.down);
    } else {
      hide IsKeyboardGripper, GripperMotion, EncodeGripperFraction, EncodeJointFraction, IsToken, OnTheWire;
      hide OperatorValue.EmittedJoints, OperatorValue.EmittedGripper;
      HoldOnTheWire();
    }
  }

  lemma PressKeepsHost(s: System, e: HostEvent)
    requires HostExplained(s) && !Emits(s.op, e) && Presses(s.op, e) && LastMark(s) <= |s.presses|
    ensures HostExplained(Step(s, Host(e)))
  {
    hide IsKeyboardGripper, GripperMotion, IsToken, GripperStepValue;
    StepValueIsNew(s.op.StepBase(), Binding(e.key) == Some(Open));
  }

  lemma EmitKeepsHost(s: System, e: HostEvent)
    requires HostExplained(s) && Emits(s.op, e) && |s.marks| == |s.emitted|
    ensures HostExplained(Step(s, Host(e)))
  {
    hide IsKeyboardGripper, GripperMotion, EncodeGripperFraction;
    EncodedIsOnTheWire(s.op, e.sample);
  }

  lemma EmitKeepsWire(s: System, e: HostEvent)
    requires WireExplained(s) && Emits(s.op, e)
    ensures WireExplained(Step(s, Host(e)))
  {
    hide HostExplained, IsKeyboardGripper, GripperMotion, EncodeGripperFraction, HostStep;
    EmitKeepsHost(s, e);
    NewEmission(s, e);
    var t := Step(s, Host(e));
    var last := |s.emitted|;
    forall n | 0 <= n < |t.emitted| ensures Explained(t, n) {
      if n < last {
        assert Explained(s, n);
      }
    }
    forall j, n | 0 <= j <= n < |t.emitted| ensures PressedSince(t, j, n) {
      if n < last {
        assert PressedSince(s, j, n);
      } else if j < last {
        assert Explained(s, j);
        assert PressedSince(s, j, last - 1);
      }
    }
  }

  /** The float just emitted is explained, and differs from the one before only for a press. */
  lemma NewEmission(s: System, e: HostEvent)
    requires WireExplained(s) && Emits(s.op, e)
    ensures var x := s.op.EmittedGripper(e.sample);
            && OnTheWire(x)
            && (IsToken(x) ==> s.presses != [] && s.presses[|s.presses| - 1] == GripperMotion(x))
            && (IsToken(x) && s.emitted != [] && s.emitted[|s.emitted| - 1] != x ==> LastMark(s) < |s.presses|)
            && (s.emitted != [] ==> LastMark(s) <= |s.presses|)
  {
    hide IsKeyboardGripper, GripperMotion, EncodeGripperFraction;
    EncodedIsOnTheWire(s.op, e.sample);
    if s.emitted != [] {
      assert Explained(s, |s.emitted| - 1);
    }
  }

  lemma HostKeepsWire(s: System, e: HostEvent)
    requires WireExplained(s)
    ensures WireExplained(Step(s, Host(e)))
  {
    if Emits(s.op, e) {
      EmitKeepsWire(s, e);
    } else {
      hide HostExplained, IsKeyboardGripper, GripperMotion, HostStep, OnTheWire;
      assert s.emitted != [] ==> Explained(s, |s.emitted| - 1);
      if Presses(s.op, e) {
        PressKeepsHost(s, e);
      } else {
        QuietKeepsHost(s, e);
      }
      var t := Step(s, Host(e));
      forall n | 0 <= n < |t.emitted| ensures Explained(t, n) {
        assert Explained(s, n);
      }
      forall j, n | 0 <= j <= n < |t.emitted| ensures PressedSince(t, j, n) {
        assert PressedSince(s, j, n);
      }
    }
  }

  lemma HostKeepsRobot(s: System, e: HostEvent)
    requires RobotExplained(s)
    ensures RobotExplained(Step(s, Host(e)))
  {
    hide HostStep, Emits, Presses, Subsequence;
    var t := Step(s, Host(e));
    if s.robot.lastSafeS.Some? {
      var k :| SeenAt(s, k);
      assert t.presses[..s.marks[k]] == s.presses[..s.marks[k]];
      assert SeenAt(t, k);
    }
  }

  lemma ArriveKeeps(s: System, index: nat, nowS: real)
    requires Explains(s)
    ensures Explains(Step(s, Arrive(index, nowS)))
  {
    hide HostExplained, Explained, PressedSince, Subsequence;
    var t := Step(s, Arrive(index, nowS));
    assert HostExplained(t) by { SameHost(s, t); }
    SameWire(s, t);
    if s.arrived <= index < |s.emitted| {
      if s.robot.lastSafeS.Some? {
        var k :| SeenAt(s, k);
        assert SeenAt(t, k);
      } else {
        assert Explained(s, 0);
        NothingYet(t);
      }
    }
  }

  lemma SameHost(s: System, t: System)
    requires HostExplained(s) && t.op == s.op && t.emitted == s.emitted && t.marks == s.marks && t.presses == s.presses
    ensures HostExplained(t)
  {
  }

  lemma SameWire(s: System, t: System)
    requires WireExplained(s) && t.op == s.op && t.emitted == s.emitted && t.marks == s.marks && t.presses == s.presses
    ensures WireExplained(t)
  {
    hide HostExplained, OnTheWire, GripperMotion;
    SameHost(s, t);
    forall n | 0 <= n < |t.emitted| ensures Explained(t, n) {
      assert Explained(s, n);
    }
    forall j, n | 0 <= j <= n < |t.emitted| ensures PressedSince(t, j, n) {
      assert PressedSince(s, j, n);
    }
  }

  lemma NothingYet(t: System)
    requires WireExplained(t) && t.emitted != [] && t.arrived < |t.emitted| && t.steps == [] && !t.robot.live
    ensures SeenAt(t, 0)
  {
    assert Explained(t, 0);
  }

  /** A keyboard step at a tick is paid for by a press since the float the robot last took in. */
  lemma TickKeeps(s: System, nowS: real, present: int)
    requires Explains(s)
    ensures Explains(Step(s, RobotTick(nowS, present)))
  {
    hide HostExplained, IsKeyboardGripper, MapFraction, GripperValue.ClampGoal, Subsequence;
    var t := Step(s, RobotTick(nowS, present));
    SameWire(s, t);
    TickFrame(s.robot, nowS, present);
    if s.robot.lastSafeS.Some? {
      var k :| SeenAt(s, k);
      var a := s.arrived;
      assert Explained(s, a) && PressedSince(s, k, a);
      if s.robot.DeadmanReason(nowS).Some? {
        assert t.steps == s.steps;
        assert SeenAt(t, k);
      } else if StepTaken(s.robot, nowS) == 0 {
        assert t.steps == s.steps;
        SubsequenceOfLonger(s.steps, s.presses[..s.marks[k]], s.presses[..s.marks[a]]);
        assert SeenAt(t, a);
      } else {
        PaidStep(s, k, nowS);
        assert SeenAt(t, a);
      }
    }
  }

  lemma TickFrame(v: GripperValue, nowS: real, present: int)
    ensures var t := v.Tick(nowS, present);
            && t.lastSafeS == v.lastSafeS && t.lastValue == v.lastValue
            && (v.DeadmanReason(nowS) == None ==> v.lastSafeS.Some? && t.live && t.seen == Some(v.lastValue.r))
            && (v.DeadmanReason(nowS).Some? ==> !t.live)
  {
    hide IsKeyboardGripper, MapFraction;
  }

  lemma TokenMoves(v: GripperValue, x: real)
    requires v.KeyStep(x) != 0 && OnTheWire(x)
    ensures IsToken(x) && v.KeyStep(x) == GripperMotion(x) && v.live && v.seen != Some(x)
  {
  }

  lemma TakenIsKeyStep(v: GripperValue, nowS: real)
    requires v.DeadmanReason(nowS) == None
    ensures v.lastSafeS.Some? && v.lastValue.Finite? && StepTaken(v, nowS) == v.KeyStep(v.lastValue.r)
  {
  }

  lemma PaidStep(s: System, k: int, nowS: real)
    requires Explains(s) && SeenAt(s, k) && s.robot.DeadmanReason(nowS) == None && StepTaken(s.robot, nowS) != 0
    ensures s.marks[s.arrived] <= |s.presses|
    ensures Subsequence(s.steps + [StepTaken(s.robot, nowS)], s.presses[..s.marks[s.arrived]])
  {
    hide HostExplained, IsKeyboardGripper, GripperMotion, IsToken, OnTheWire, Subsequence, GripperValue.KeyStep;
    hide StepTaken, GripperValue.DeadmanReason;
    var a := s.arrived;
    TakenIsKeyStep(s.robot, nowS);
    assert Explained(s, a) && PressedSince(s, k, a);
    TokenMoves(s.robot, s.emitted[a]);
    OneMorePress(s.steps, s.presses, s.marks[k], s.marks[a]);
  }

  lemma OneMorePress(steps: seq<int>, presses: seq<int>, before: nat, m: nat)
    requires before < m <= |presses| && Subsequence(steps, presses[..before])
    ensures Subsequence(steps + [presses[m - 1]], presses[..m])
  {
    hide Subsequence;
    SubsequenceOfLonger(steps, presses[..before], presses[..m - 1]);
    SubsequenceGrows(steps, presses[..m - 1], presses[m - 1]);
    assert presses[..m - 1] + [presses[m - 1]] == presses[..m];
  }

  lemma {:induction false} RunExplains(s: System, es: seq<Event>)
    requires Initial(s)
    ensures Explains(Run(s, es))
  {
    if es == [] {
    } else {
      hide WireExplained, RobotExplained, Step;
      var before, last := Run(s, es[..|es| - 1]), es[|es| - 1];
      RunExplains(s, es[..|es| - 1]);
      match last
      case Host(e) =>
        HostKeepsWire(before, e);
        HostKeepsRobot(before, e);
      case Arrive(index, nowS) => ArriveKeeps(before, index, nowS);
      case RobotLink(connection, watchdog) => LinkKeeps(before, connection, watchdog);
      case RobotTick(nowS, present) => TickKeeps(before, nowS, present);
    }
  }

  lemma LinkKeeps(s: System, connection: string, watchdog: string)
    requires Explains(s)
    ensures Explains(Step(s, RobotLink(connection, watchdog)))
  {
    hide HostExplained, Subsequence;
    var t := Step(s, RobotLink(connection, watchdog));
    SameWire(s, t);
    if s.robot.lastSafeS.Some? {
      var k :| SeenAt(s, k);
      assert SeenAt(t, k);
    }
  }

  // ---------- What the goal does ----------

  lemma {:induction false} SubsequenceTransitive(a: seq<int>, b: seq<int>, c: seq<int>)
    requires Subsequence(a, b) && Subsequence(b, c)
    ensures Subsequence(a, c)
    decreases |b| + |c|
  {
    if a != [] {
      if Subsequence(b, c[..|c| - 1]) {
        SubsequenceTransitive(a, b, c[..|c| - 1]);
      } else if a[|a| - 1] == b[|b| - 1] && Subsequence(a[..|a| - 1], b[..|b| - 1]) {
        SubsequenceTransitive(a[..|a| - 1], b[..|b| - 1], c[..|c| - 1]);
      } else {
        SubsequenceTransitive(a, b[..|b| - 1], c[..|c| - 1]);
      }
    }
  }

  lemma OneMoves(moves: seq<int>, steps: seq<int>, moved: int, step: int)
    requires Subsequence(moves, steps) && (moved == 0 || moved == step)
    ensures Subsequence(moves + One(moved), steps + One(step))
  {
    assert moves + [] == moves && steps + [] == steps;
    if moved != 0 {
      SubsequenceGrows(moves, steps, step);
    } else if step != 0 {
      SubsequenceOfLonger(moves, steps, steps + [step]);
    }
  }

  lemma RobotStaysSound(s: System, event: Event)
    requires JawSound(s.robot)
    ensures JawSound(Step(s, event).robot)
  {
    hide HostStep, GripperValue.Tick, KeyMove, StepTaken;
    match event
    case RobotTick(nowS, present) => JawTickIsSound(s.robot, nowS, present);
    case _ =>
  }

  /** The goal's moves are steps taken, the same way; the others found the jaw at the end of its range. */
  lemma {:induction false} MovesAreSteps(s: System, es: seq<Event>)
    requires JawSound(s.robot) && Subsequence(s.moves, s.steps)
    ensures JawSound(Run(s, es).robot) && Subsequence(Run(s, es).moves, Run(s, es).steps)
  {
    if es != [] {
      hide HostStep, GripperValue.Tick, KeyMove, StepTaken, Subsequence, JawSound, One;
      var before, last := Run(s, es[..|es| - 1]), es[|es| - 1];
      MovesAreSteps(s, es[..|es| - 1]);
      RobotStaysSound(before, last);
      if last.RobotTick? {
        GoalMovesAsPressed(before.robot, last.nowS, last.present);
        assert StepTaken(before.robot, last.nowS)
            == if before.robot.DeadmanReason(last.nowS) == None then before.robot.KeyStep(before.robot.lastValue.r) else 0 by {
          TakenIs(before.robot, last.nowS);
        }
        OneMoves(before.moves, before.steps, KeyMove(before.robot, last.nowS, last.present), StepTaken(before.robot, last.nowS));
      }
    }
  }

  lemma NothingMoved(s: System)
    requires Initial(s)
    ensures Subsequence(s.moves, s.steps)
  {
  }

  lemma TakenIs(v: GripperValue, nowS: real)
    ensures StepTaken(v, nowS) == if v.DeadmanReason(nowS) == None then v.KeyStep(v.lastValue.r) else 0
  {
  }

  /**
    Over any run of keys, emits, sessions and links, and any lossy, repeating, in-order delivery:
    the robot's keyboard steps, with their directions, are a subsequence of the operator's
    presses, and so are the moves of its goal at ticks that read a keyboard float. So there are
    never more steps or moves than presses, in either direction.
   */
  lemma {:induction false} AtMostOneStepPerPress(s: System, es: seq<Event>)
    requires Initial(s)
    ensures var r := Run(s, es);
            && Subsequence(r.steps, r.presses) && Subsequence(r.moves, r.presses)
            && CountOf(r.steps, 1) <= CountOf(r.presses, 1) && CountOf(r.steps, -1) <= CountOf(r.presses, -1)
            && CountOf(r.moves, 1) <= CountOf(r.presses, 1) && CountOf(r.moves, -1) <= CountOf(r.presses, -1)
            && |r.steps| <= |r.presses| && |r.moves| <= |r.presses|
  {
    RunExplains(s, es);
    MovesAreSteps(s, es);
    var r := Run(s, es);
    hide Run;
    if r.robot.lastSafeS.Some? {
      var k :| SeenAt(r, k);
      SubsequenceOfLonger(r.steps, r.presses[..r.marks[k]], r.presses);
    }
    SubsequenceTransitive(r.moves, r.steps, r.presses);
    SubsequenceCounts(r.steps, r.presses, 1);
    SubsequenceCounts(r.steps, r.presses, -1);
    SubsequenceCounts(r.moves, r.presses, 1);
    SubsequenceCounts(r.moves, r.presses, -1);
  }

  // ---------- Exactly one step per press ----------

  function Latest(s: System): real
    requires s.emitted != []
  {
    s.emitted[|s.emitted| - 1]
  }

  /** The robot is live, and the last float it took in is the last one sent. */
  predicate Caught(s: System) {
    && s.emitted != [] && s.arrived == |s.emitted| - 1
    && s.robot.live && s.robot.seen == Some(Latest(s)) && s.robot.lastValue == Finite(Latest(s))
  }

  /** No press waits to be emitted. */
  predicate Settled(s: System) {
    LastMark(s) == |s.presses|
  }

  /** Keys and emits only; sample every emitted float, emit every press before the next, stay live. */
  predicate Careful(s: System, event: Event) {
    match event
    case Host(e) =>
      && (e.KeyEvent? || e.PublishEvent?) && !s.op.leader
      && (Emits(s.op, e) ==> Caught(s)) && (Presses(s.op, e) ==> Settled(s))
    case RobotTick(nowS, _) => s.robot.DeadmanReason(nowS) == None
    case _ => true
  }

  predicate CarefulRun(s: System, es: seq<Event>) {
    es == [] || (CarefulRun(s, es[..|es| - 1]) && Careful(Run(s, es[..|es| - 1]), es[|es| - 1]))
  }

  /** Steps still to come: for a step token sent but not yet taken in, and for a press not yet sent. */
  function Outstanding(s: System): seq<int>
    requires s.emitted != [] && (!Settled(s) ==> s.presses != [])
  {
    (if IsToken(Latest(s)) && s.robot.seen != Some(Latest(s)) then [GripperMotion(Latest(s))] else [])
    + if Settled(s) then [] else [s.presses[|s.presses| - 1]]
  }

  predicate Attentive(s: System) {
    && s.emitted != [] && |s.marks| == |s.emitted| && !s.op.leader && HostExplained(s)
    && LastMark(s) <= |s.presses|
    && (!Settled(s) ==> s.op.gripperUnsent && IsToken(s.op.gripper) && s.op.gripper != Latest(s) && s.presses != [])
    && s.robot.live && s.robot.seen.Some?
    && |s.emitted| - 2 <= s.arrived < |s.emitted| && s.robot.lastValue == Finite(s.emitted[s.arrived])
    && (s.arrived == |s.emitted| - 2 ==> s.robot.seen == Some(s.emitted[s.arrived]))
    && (OnTheWire(Latest(s)) && (IsKeyboardGripper(Latest(s)) || s.robot.seen == Some(Latest(s))))
  }

  lemma CaughtIsAttentive(s: System)
    requires Explains(s) && Caught(s) && Settled(s) && !s.op.leader
    ensures Attentive(s) && Outstanding(s) == []
  {
    hide IsKeyboardGripper, Subsequence;
    assert Explained(s, |s.emitted| - 1);
  }

  lemma CarefulKey(s: System, key: char, down: bool)
    requires Attentive(s) && Careful(s, Host(KeyEvent(key, down)))
    ensures var t := Step(s, Host(KeyEvent(key, down)));
            && Attentive(t) && t.steps == s.steps && |t.presses| >= |s.presses|
            && t.presses == s.presses + t.presses[|s.presses|..]
            && Outstanding(t) == Outstanding(s) + t.presses[|s.presses|..]
  {
    hide IsKeyboardGripper, GripperMotion, IsToken, GripperStepValue, OnTheWire, HostExplained;
    var e := KeyEvent(key, down);
    var t := Step(s, Host(e));
    assert s.op.gripperSent == Some(Latest(s)) by { SentIsLatest(s); }
    if Presses(s.op, e) {
      StepValueIsNew(s.op.StepBase(), Binding(key) == Some(Open));
      PressKeepsHost(s, e);
      assert t.presses[|s.presses|..] == [PressSign(e)];
    } else {
      QuietKeepsHost(s, e);
      assert t.presses[|s.presses|..] == [];
      assert Outstanding(s) + [] == Outstanding(s);
    }
  }

  lemma SentIsLatest(s: System)
    requires HostExplained(s) && s.emitted != []
    ensures s.op.gripperSent == Some(Latest(s))
  {
  }

  /** Sending hands the press's step from the key machine to the wire. */
  lemma CarefulPublish(s: System, sample: Sample)
    requires Attentive(s) && Careful(s, Host(PublishEvent(sample)))
    ensures var t := Step(s, Host(PublishEvent(sample)));
            Attentive(t) && t.steps == s.steps && t.presses == s.presses && Outstanding(t) == Outstanding(s)
  {
    hide GripperMotion, EncodeGripperFraction;
    var e := PublishEvent(sample);
    if Emits(s.op, e) {
      EmitKeepsHost(s, e);
      TokensAreKeys(s.op.gripper);
    } else {
      QuietKeepsHost(s, e);
    }
  }

  lemma TokensAreKeys(x: real)
    ensures IsToken(x) || x == GRIPPER_HOLD ==> IsKeyboardGripper(x)
    ensures IsToken(x) ==> x != GRIPPER_HOLD && GripperMotion(x) != 0
    ensures x == GRIPPER_HOLD ==> GripperMotion(x) == 0
  {
  }

  lemma CarefulTick(s: System, nowS: real, present: int)
    requires Attentive(s) && Careful(s, RobotTick(nowS, present))
    ensures var t := Step(s, RobotTick(nowS, present));
            && Attentive(t) && t.presses == s.presses
            && t.steps + Outstanding(t) == s.steps + Outstanding(s)
  {
    hide HostExplained, IsKeyboardGripper, GripperMotion, MapFraction;
    var t := Step(s, RobotTick(nowS, present));
    SameHost(s, t);
    TickFrame(s.robot, nowS, present);
    var x := s.robot.lastValue.r;
    TokensAreKeys(x);
    if s.robot.seen == Some(x) {
      assert s.robot.KeyStep(x) == 0;
      assert t.steps == s.steps;
    } else {
      assert x == Latest(s) && IsKeyboardGripper(x);
      assert s.robot.KeyStep(x) == GripperMotion(x);
      var pressed := if Settled(s) then [] else [s.presses[|s.presses| - 1]];
      if IsToken(x) {
        assert Outstanding(s) == [GripperMotion(x)] + pressed && Outstanding(t) == [] + pressed;
        assert s.steps + ([GripperMotion(x)] + pressed) == s.steps + [GripperMotion(x)] + ([] + pressed);
      } else {
        assert x == GRIPPER_HOLD by { HoldOrToken(x); }
        assert t.steps == s.steps + [] == s.steps;
      }
    }
  }

  lemma HoldOrToken(x: real)
    requires OnTheWire(x) && IsKeyboardGripper(x) && !IsToken(x)
    ensures x == GRIPPER_HOLD
  {
  }

  lemma CarefulElse(s: System, event: Event)
    requires Attentive(s) && (event.Arrive? || event.RobotLink?)
    ensures var t := Step(s, event);
            Attentive(t) && t.steps == s.steps && t.presses == s.presses && Outstanding(t) == Outstanding(s)
  {
    hide HostExplained, IsKeyboardGripper, GripperMotion, IsToken;
    SameHost(s, Step(s, event));
  }

  lemma {:induction false} CarefulKeeps(s: System, es: seq<Event>)
    requires Attentive(s) && Outstanding(s) == [] && CarefulRun(s, es)
    ensures var r := Run(s, es);
            && Attentive(r) && |r.presses| >= |s.presses|
            && r.steps + Outstanding(r) == s.steps + r.presses[|s.presses|..]
  {
    hide Attentive, Careful, Outstanding, Step, Settled;
    if es == [] {
      assert s.presses[|s.presses|..] == [];
    } else {
      var before, last := Run(s, es[..|es| - 1]), es[|es| - 1];
      CarefulKeeps(s, es[..|es| - 1]);
      match last {
        case Host(e) =>
          CarefulHostOnly(before, e);
          if e.KeyEvent? {
            CarefulKey(before, e.key, e.down);
            OutstandingDefined(before);
            var more := Run(s, es).presses[|before.presses|..];
            assert Run(s, es).presses[|s.presses|..] == before.presses[|s.presses|..] + more;
            BothGrow(before.steps, Outstanding(before), s.steps, before.presses[|s.presses|..], more);
          } else {
            CarefulPublish(before, e.sample);
          }
        case RobotTick(nowS, present) => CarefulTick(before, nowS, present);
        case Arrive(_, _) => CarefulElse(before, last);
        case RobotLink(_, _) => CarefulElse(before, last);
      }
    }
  }

  lemma BothGrow(steps: seq<int>, owed: seq<int>, base: seq<int>, pressed: seq<int>, more: seq<int>)
    requires steps + owed == base + pressed
    ensures steps + (owed + more) == base + (pressed + more)
  {
    assert steps + (owed + more) == (steps + owed) + more;
    assert base + (pressed + more) == (base + pressed) + more;
  }

  lemma OutstandingDefined(s: System)
    requires Attentive(s)
    ensures s.emitted != [] && (!Settled(s) ==> s.presses != [])
  {
  }

  lemma CarefulHostOnly(s: System, e: HostEvent)
    requires Careful(s, Host(e))
    ensures e.KeyEvent? || e.PublishEvent?
  {
  }

  /** At every tick the goal has a step's room on both sides. */
  predicate Roomy(s: System, es: seq<Event>) {
    es == [] ||
    (var before, last := Run(s, es[..|es| - 1]), es[|es| - 1];
     && Roomy(s, es[..|es| - 1])
     && (last.RobotTick? ==> HasRoom(before.robot, before.robot.Base(last.present))))
  }

  /** With room, every step taken moves the goal. */
  lemma {:induction false} StepsMoveGoal(s: System, es: seq<Event>)
    requires JawSound(s.robot) && Roomy(s, es)
    ensures var r := Run(s, es);
            && JawSound(r.robot) && s.steps <= r.steps && s.moves <= r.moves
            && r.steps[|s.steps|..] == r.moves[|s.moves|..]
  {
    if es != [] {
      hide HostStep, GripperValue.Tick, KeyMove, StepTaken, JawSound, HasRoom, One;
      var before, last := Run(s, es[..|es| - 1]), es[|es| - 1];
      StepsMoveGoal(s, es[..|es| - 1]);
      RobotStaysSound(before, last);
      if last.RobotTick? {
        GoalMovesAsPressed(before.robot, last.nowS, last.present);
        TakenIs(before.robot, last.nowS);
        var more := One(StepTaken(before.robot, last.nowS));
        assert more == One(KeyMove(before.robot, last.nowS, last.present)) by { SameOne(before.robot, last.nowS, last.present); }
        assert (before.steps + more)[|s.steps|..] == before.steps[|s.steps|..] + more;
        assert (before.moves + more)[|s.moves|..] == before.moves[|s.moves|..] + more;
      }
    }
  }

  lemma SameOne(v: GripperValue, nowS: real, present: int)
    requires JawSound(v) && HasRoom(v, v.Base(present))
    ensures StepTaken(v, nowS) == KeyMove(v, nowS, present)
  {
    hide GripperValue.Tick, KeyMove, HasRoom;
    GoalMovesAsPressed(v, nowS, present);
    TakenIs(v, nowS);
  }

  /**
    From any reachable state in which the robot is live on the last sent float: if every emitted
    float is sampled, each press is emitted before the next and the robot stays live, the robot
    takes exactly the pressed steps, in order; and if at every tick its goal has a step's room on
    both sides, the goal's moves are exactly the presses, in order.
   */
  lemma {:induction false} ExactlyOneStepPerPress(start: System, earlier: seq<Event>, es: seq<Event>)
    requires Initial(start)
    requires var s := Run(start, earlier); Caught(s) && Settled(s) && !s.op.leader && CarefulRun(s, es)
    requires Caught(Run(Run(start, earlier), es)) && Settled(Run(Run(start, earlier), es))
    ensures var s := Run(start, earlier);
            var r := Run(s, es);
            && |r.presses| >= |s.presses| && r.steps == s.steps + r.presses[|s.presses|..]
            && (Roomy(s, es) ==> r.moves == s.moves + r.presses[|s.presses|..])
  {
    var s := Run(start, earlier);
    NothingMoved(start);
    MovesAreSteps(start, earlier);
    if Roomy(s, es) {
      StepsMoveGoal(s, es);
    }
    hide JawSound, Roomy, Subsequence;
    RunExplains(start, earlier);
    CaughtIsAttentive(s);
    CarefulKeeps(s, es);
    assert Outstanding(Run(s, es)) == [];
  }
}
