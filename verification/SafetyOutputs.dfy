/**
  What the safety gateway puts out after any run, field by field and from the events alone: each
  axis of the twist, the jaw, the frame, the answer to each command and the transitions reported.
 */
module SafetyOutputs {
  import opened Wrappers
  import opened Motion
  import opened Safety

  // ---------- The twist, axis by axis ----------

  /** The value in [low, high] that is nearest to the one asked for. */
  predicate Nearest(sent: real, asked: real, low: real, high: real) {
    && low <= sent <= high
    && (low <= asked <= high ==> sent == asked) && (asked > high ==> sent == high) && (asked < low ==> sent == low)
  }

  predicate AxisLimited(sent: Float, asked: Float, limit: real) {
    sent.Finite? && asked.Finite? && Nearest(sent.r, asked.r, -limit, limit)
  }

  /** Each axis of what is sent is the same axis of what was asked, or the nearer bound of its own limit. */
  predicate AxesLimited(sent: Twist, asked: Twist, linear: real, angular: real) {
    && AxisLimited(sent.x, asked.x, linear) && AxisLimited(sent.y, asked.y, linear) && AxisLimited(sent.z, asked.z, linear)
    && AxisLimited(sent.roll, asked.roll, angular) && AxisLimited(sent.pitch, asked.pitch, angular)
    && AxisLimited(sent.yaw, asked.yaw, angular)
  }

  predicate Within(asked: Float, limit: real) {
    asked.Finite? && -limit <= asked.r <= limit
  }

  predicate AllWithin(asked: Twist, linear: real, angular: real) {
    && Within(asked.x, linear) && Within(asked.y, linear) && Within(asked.z, linear)
    && Within(asked.roll, angular) && Within(asked.pitch, angular) && Within(asked.yaw, angular)
  }

  predicate Still(t: Twist) {
    && t.x == t.y == t.z == Finite(0.0) && t.roll == t.pitch == t.yaw == Finite(0.0)
  }

  lemma LimitIsByAxis(asked: Twist, linear: real, angular: real)
    requires asked.IsFinite() && linear >= 0.0 && angular >= 0.0
    ensures AxesLimited(asked.Limit(linear, angular), asked, linear, angular)
    ensures asked.Limit(linear, angular) == asked <==> AllWithin(asked, linear, angular)
  {
  }

  /** The last command obeyed since the last trip, if it and a keep-alive are recent. */
  function Current(config: Config, es: seq<Event>, nowS: real): (k: Option<nat>)
    ensures k.Some? ==> k.value < |es| && IsFiniteCommand(es[k.value])
  {
    var heard, obeyed := KeptAlive(config, es), Obeyed(config, es);
    if heard.Some? && nowS - es[heard.value].nowS <= config.watchdogTimeoutS
       && obeyed.Some? && nowS - es[obeyed.value].nowS <= config.commandTimeoutS then obeyed else None
  }

  /**
    After every run a tick publishes, axis by axis, the current command within that axis's limit:
    the same rate when it is within, the nearer bound otherwise; and stands still without one.
   */
  lemma PublishesByAxis(config: Config, frame: string, es: seq<Event>, nowS: real)
    requires config.maxLinear >= 0.0 && config.maxAngular >= 0.0
    ensures var twist, k := Run(Start(config, frame), es).TickOutput(nowS).twist, Current(config, es, nowS);
            if k.Some? then AxesLimited(twist, es[k.value].twist, config.maxLinear, config.maxAngular) else Still(twist)
  {
    hide Run, KeptAlive, Obeyed, AxesLimited, Twist.Limit;
    TickPublishes(config, frame, es, nowS);
    var k := Current(config, es, nowS);
    if k.Some? {
      LimitIsByAxis(es[k.value].twist, config.maxLinear, config.maxAngular);
    }
  }

  // ---------- The answer to a command ----------

  /** What a command is answered, after these events. */
  function Answer(config: Config, es: seq<Event>, e: Event): Disposition
    requires e.Command?
  {
    if !IsFiniteCommand(e) then Rejected
    else if config.heartbeatOnly && KeptAlive(config, es) == None then Held
    else if AllWithin(e.twist, config.maxLinear, config.maxAngular) then Accepted
    else Clamped
  }

  lemma CommandAnswers(config: Config, frame: string, es: seq<Event>, e: Event)
    requires e.Command? && config.maxLinear >= 0.0 && config.maxAngular >= 0.0
    ensures Run(Start(config, frame), es).CommandDisposition(e.twist, e.value, e.frame, e.nowS) == Answer(config, es, e)
    ensures Answer(config, es, e) in {Accepted, Clamped} <==> IsAccepted(config, es, e)
  {
    hide Run, KeptAlive, Obeyed, EverTripped, Twist.Limit, AllWithin;
    RunTracks(config, frame, es);
    if IsFiniteCommand(e) {
      LimitIsByAxis(e.twist, config.maxLinear, config.maxAngular);
    }
  }

  // ---------- Jaw, frame and disposition ----------

  /** The last command accepted in the whole run: a trip does not take the jaw back. */
  function LastJaw(config: Config, es: seq<Event>): (k: Option<nat>)
    ensures k.Some? ==> k.value < |es| && IsFiniteCommand(es[k.value])
  {
    if es == [] then None
    else if IsAccepted(config, es[..|es| - 1], es[|es| - 1]) then Some(|es| - 1)
    else LastJaw(config, es[..|es| - 1])
  }

  /** The last frame named by a command of numbers, obeyed or not. */
  function LastFrame(frame: string, es: seq<Event>): string {
    if es == [] then frame
    else if IsFiniteCommand(es[|es| - 1]) && es[|es| - 1].frame != "" then es[|es| - 1].frame
    else LastFrame(frame, es[..|es| - 1])
  }

  /** What the last command was answered, unless a trip came after it. */
  function LastDisposition(config: Config, es: seq<Event>): Disposition {
    if es == [] then Zeroed
    else
      var init, e := es[..|es| - 1], es[|es| - 1];
      if e.Command? then Answer(config, init, e)
      else if IsTrip(config, init, e) then Zeroed
      else LastDisposition(config, init)
  }

  predicate JawIs(config: Config, es: seq<Event>, jaw: real) {
    var k := LastJaw(config, es);
    if k == None then jaw == config.minGripper else Nearest(jaw, es[k.value].value.r, config.minGripper, config.maxGripper)
  }

  predicate Carries(v: SafetyValue, config: Config, frame: string, es: seq<Event>) {
    && v.config == config && JawIs(config, es, v.gripper) && v.frame == LastFrame(frame, es)
    && v.lastDisposition == LastDisposition(config, es)
  }

  lemma CommandCarries(config: Config, frame: string, es: seq<Event>, e: Event)
    requires e.Command? && config.minGripper <= config.maxGripper && config.maxLinear >= 0.0 && config.maxAngular >= 0.0
    requires Carries(Run(Start(config, frame), es), config, frame, es)
    ensures Carries(Apply(Run(Start(config, frame), es), e), config, frame, es + [e])
  {
    hide Run, KeptAlive, Twist.Limit, AllWithin, SafetyValue.CommandDisposition, Twist.IsFinite, IsAccepted, Apply;
    assert (es + [e])[..|es|] == es;
    CommandAnswers(config, frame, es, e);
    AnswerIs(Run(Start(config, frame), es), e);
  }

  /** What a command does to the three fields, by its answer. */
  lemma AnswerIs(v: SafetyValue, e: Event)
    requires e.Command?
    ensures var d, t := v.CommandDisposition(e.twist, e.value, e.frame, e.nowS), Apply(v, e);
            && t.lastDisposition == d && t.config == v.config && (d == Rejected <==> !IsFiniteCommand(e))
            && t.frame == (if d != Rejected && e.frame != "" then e.frame else v.frame)
            && t.gripper == if d == Rejected || d == Held then v.gripper else ClampReal(e.value.r, v.config.minGripper, v.config.maxGripper)
  {
    hide Twist.Limit, Twist.IsFinite, ClampReal, SafetyValue.KeepAlive, SafetyValue.Obey;
    if IsFiniteCommand(e) {
      KeepAliveKeeps(v.Framed(e.frame), e.nowS, true);
      var heard, jaw := v.Heard(e.frame, e.nowS), ClampReal(e.value.r, v.config.minGripper, v.config.maxGripper);
      ObeyIs(heard, e.twist.Limit(v.config.maxLinear, v.config.maxAngular), jaw, e.nowS,
             v.CommandDisposition(e.twist, e.value, e.frame, e.nowS));
    }
  }

  lemma KeepAliveKeeps(v: SafetyValue, nowS: real, fromCommand: bool)
    ensures var t := v.KeepAlive(nowS, fromCommand);
            t.config == v.config && t.frame == v.frame && t.gripper == v.gripper && t.lastDisposition == v.lastDisposition
  {
  }

  lemma ObeyIs(v: SafetyValue, working: Twist, jaw: real, nowS: real, d: Disposition)
    ensures var t := v.Obey(working, jaw, nowS, d); t.config == v.config && t.frame == v.frame && t.gripper == jaw && t.lastDisposition == d
  {
  }

  lemma TickCarries(config: Config, frame: string, es: seq<Event>, e: Event)
    requires e.TickAt? && Carries(Run(Start(config, frame), es), config, frame, es)
    ensures Carries(Apply(Run(Start(config, frame), es), e), config, frame, es + [e])
  {
    hide Run, KeptAlive, Answer;
    assert (es + [e])[..|es|] == es;
    RunTracks(config, frame, es);
  }

  lemma {:induction false} RunCarries(config: Config, frame: string, es: seq<Event>)
    requires config.minGripper <= config.maxGripper && config.maxLinear >= 0.0 && config.maxAngular >= 0.0
    ensures Carries(Run(Start(config, frame), es), config, frame, es)
  {
    if es != [] {
      hide Carries, Apply;
      var init, last := es[..|es| - 1], es[|es| - 1];
      RunCarries(config, frame, init);
      assert init + [last] == es;
      match last
      case Heartbeat(_) => HeartbeatCarries(config, frame, init, last);
      case Command(_, _, _, _) => CommandCarries(config, frame, init, last);
      case TickAt(_) => TickCarries(config, frame, init, last);
    }
  }

  lemma HeartbeatCarries(config: Config, frame: string, es: seq<Event>, e: Event)
    requires e.Heartbeat? && Carries(Run(Start(config, frame), es), config, frame, es)
    ensures Carries(Apply(Run(Start(config, frame), es), e), config, frame, es + [e])
  {
    hide Run, KeptAlive, Answer, SafetyValue.KeepAlive;
    KeepAliveKeeps(Run(Start(config, frame), es), e.nowS, false);
    assert (es + [e])[..|es|] == es;
  }

  /**
    After every run a tick puts out the jaw of the last accepted command within its range, the last
    frame named, and what the last command was answered unless the watchdog tripped since.
   */
  lemma OutputCarries(config: Config, frame: string, es: seq<Event>, nowS: real)
    requires config.minGripper <= config.maxGripper && config.maxLinear >= 0.0 && config.maxAngular >= 0.0
    ensures var out := Run(Start(config, frame), es).TickOutput(nowS);
            && JawIs(config, es, out.gripper) && out.frame == LastFrame(frame, es)
            && out.lastDisposition == if IsTrip(config, es, Event.TickAt(nowS)) then Zeroed else LastDisposition(config, es)
  {
    RunCarries(config, frame, es);
    TickCarries(config, frame, es, Event.TickAt(nowS));
    hide Run;
    assert (es + [Event.TickAt(nowS)])[..|es|] == es;
  }

  // ---------- Transitions ----------

  /** The link state after these transitions; each must be a change. */
  function Replayed(state: LinkState, ts: seq<Transition>): LinkState {
    if ts == [] then state
    else
      var before := Replayed(state, ts[..|ts| - 1]);
      match ts[|ts| - 1]
      case ToLink(next) => next
      case ToSafeStop => before
  }

  predicate EachChanges(state: LinkState, ts: seq<Transition>) {
    ts == [] || (EachChanges(state, ts[..|ts| - 1]) && ts[|ts| - 1] != ToLink(Replayed(state, ts[..|ts| - 1])))
  }

  /** Reported transitions are the changes of the link state, all of them and in order. */
  predicate Reports(before: LinkState, ts: seq<Transition>, after: LinkState) {
    EachChanges(before, ts) && Replayed(before, ts) == after
  }

  lemma NoneReported(state: LinkState)
    ensures Reports(state, [], state)
  {
  }

  lemma OneReported(before: LinkState, after: LinkState)
    requires before != after
    ensures Reports(before, [ToLink(after)], after)
  {
    assert [ToLink(after)][..0] == [] && EachChanges(before, []) && Replayed(before, []) == before;
  }

  lemma KeepAliveReports(v: SafetyValue, nowS: real, fromCommand: bool)
    ensures Reports(v.connectionState, v.KeepAliveTransitions(), v.KeepAlive(nowS, fromCommand).connectionState)
  {
    if v.connectionState == TimedOut {
      OneReported(TimedOut, v.KeepAlive(nowS, fromCommand).connectionState);
    }
  }

  lemma {:induction false} ReportsAppend(a: LinkState, ts: seq<Transition>, b: LinkState, more: seq<Transition>, c: LinkState)
    requires Reports(a, ts, b) && Reports(b, more, c)
    ensures Reports(a, ts + more, c)
    decreases |more|
  {
    if more == [] {
      assert ts + more == ts;
    } else {
      ReportsAppend(a, ts, b, more[..|more| - 1], Replayed(b, more[..|more| - 1]));
      assert (ts + more)[..|ts + more| - 1] == ts + more[..|more| - 1];
    }
  }

  /** What a command and a tick report, for any state of the gateway. */
  lemma CommandReports(v: SafetyValue, twist: Twist, value: Float, frame: string, nowS: real)
    ensures Reports(v.connectionState, v.CommandTransitions(twist, value, frame, nowS),
                    v.OnCommand(twist, value, frame, nowS).connectionState)
    ensures ToSafeStop !in v.CommandTransitions(twist, value, frame, nowS)
  {
    hide Reports, Twist.Limit, Twist.IsFinite, ClampReal;
    NoneReported(v.connectionState);
    if twist.IsFinite() && value.Finite? {
      var heard := v.Heard(frame, nowS);
      var first := if v.config.heartbeatOnly then [] else v.KeepAliveTransitions();
      KeepAliveReports(v.Framed(frame), nowS, true);
      var more: seq<Transition> := if heard.awaitingFreshCommand && heard.connectionState == Restored then [ToLink(Connected)] else [];
      OneReported(Restored, Connected);
      NoneReported(heard.connectionState);
      ReportsAppend(v.connectionState, first, heard.connectionState, more, v.OnCommand(twist, value, frame, nowS).connectionState);
    }
  }

  lemma TickReports(v: SafetyValue, nowS: real)
    ensures Reports(v.connectionState, v.TickOutput(nowS).transitions, v.TickOutput(nowS).connectionState)
    ensures ToSafeStop in v.TickOutput(nowS).transitions <==> v.pendingStartupStop || v.Trips(nowS)
    ensures v.Trips(nowS) ==> v.TickOutput(nowS).watchdogState == SafeStop
  {
    hide Reports;
    var startup: seq<Transition> := if v.pendingStartupStop then [ToSafeStop] else [];
    SafeStopReported(v.connectionState);
    NoneReported(v.connectionState);
    if v.Trips(nowS) {
      TripReported(v.connectionState);
      ReportsAppend(v.connectionState, startup, v.connectionState, [ToLink(TimedOut), ToSafeStop], TimedOut);
    } else {
      ReportsAppend(v.connectionState, startup, v.connectionState, [], v.connectionState);
    }
  }

  lemma SafeStopReported(state: LinkState)
    ensures Reports(state, [ToSafeStop], state)
  {
    assert [ToSafeStop][..0] == [];
  }

  lemma TripReported(state: LinkState)
    requires state != TimedOut
    ensures Reports(state, [ToLink(TimedOut), ToSafeStop], TimedOut)
  {
    OneReported(state, TimedOut);
    SafeStopReported(TimedOut);
    ReportsAppend(state, [ToLink(TimedOut)], TimedOut, [ToSafeStop], TimedOut);
    assert [ToLink(TimedOut)] + [ToSafeStop] == [ToLink(TimedOut), ToSafeStop];
  }

  lemma StartupGoes(v: SafetyValue, e: Event)
    ensures Apply(v, e).pendingStartupStop == (v.pendingStartupStop && !e.TickAt?)
  {
    hide Twist.Limit, Twist.IsFinite, ClampReal, SafetyValue.CommandDisposition;
  }

  lemma {:induction false} OnlyFirstTickIsStartup(config: Config, frame: string, es: seq<Event>)
    ensures Run(Start(config, frame), es).pendingStartupStop <==> forall k :: 0 <= k < |es| ==> !es[k].TickAt?
  {
    if es != [] {
      hide Apply;
      var init := es[..|es| - 1];
      OnlyFirstTickIsStartup(config, frame, init);
      StartupGoes(Run(Start(config, frame), init), es[|es| - 1]);
      if forall k :: 0 <= k < |init| ==> !init[k].TickAt? {
        assert forall k :: 0 <= k < |es| - 1 ==> es[k] == init[k];
      } else {
        var k :| 0 <= k < |init| && init[k].TickAt?;
        assert es[k].TickAt?;
      }
    }
  }

  /** After every run, the tick's transitions are the link's changes; it reports a safe stop at the first tick and at a trip. */
  lemma TicksReport(config: Config, frame: string, es: seq<Event>, nowS: real)
    ensures var v := Run(Start(config, frame), es);
            var out := v.TickOutput(nowS);
            && Reports(v.connectionState, out.transitions, out.connectionState)
            && (ToSafeStop in out.transitions <==>
                  (forall k :: 0 <= k < |es| ==> !es[k].TickAt?) || IsTrip(config, es, Event.TickAt(nowS)))
  {
    hide Run, Reports, KeptAlive, Obeyed, EverTripped;
    TickReports(Run(Start(config, frame), es), nowS);
    OnlyFirstTickIsStartup(config, frame, es);
    RunTracks(config, frame, es);
    TickTracks(Run(Start(config, frame), es), config, HeardAt(config, es), ObeyedAt(config, es), EverTripped(config, es), nowS);
  }

  /** The link after every run: down before any keep-alive or since a trip, restored until a command is obeyed, connected otherwise. */
  lemma LinkFollowsEvents(config: Config, frame: string, es: seq<Event>)
    ensures var v := Run(Start(config, frame), es);
            && (v.connectionState == TimedOut <==> KeptAlive(config, es) == None)
            && (v.connectionState == Restored <==> KeptAlive(config, es).Some? && EverTripped(config, es) && Obeyed(config, es) == None)
            && (v.watchdogState == WatchdogState.Ok <==> v.connectionState == Connected)
  {
    hide Run, KeptAlive, Obeyed, EverTripped;
    RunTracks(config, frame, es);
  }
}
