/**
  The safety gateway: validate and clamp commands, trip on silence, and never replay what came
  before a trip. `SafetyValue` gives the steps of the state machine; the class is the controller.
 */
module Safety {
  import opened Wrappers
  import opened Motion
  import opened Gripper

  const RESTORED := "RESTORED"

  datatype LinkState = Connected | TimedOut | Restored

  datatype WatchdogState = Ok | SafeStop

  datatype Transition = ToLink(state: LinkState) | ToSafeStop

  /** The texts the state message carries. */
  function LinkText(state: LinkState): string {
    match state
    case Connected => CONNECTED
    case TimedOut => TIMEOUT
    case Restored => RESTORED
  }

  function WatchdogText(state: WatchdogState): string {
    match state
    case Ok => WATCHDOG_OK
    case SafeStop => SAFE_STOP
  }

  datatype Disposition = Accepted | Clamped | Rejected | Held | Zeroed

  /** Tool rates: three linear, three angular. */
  datatype Twist = Twist(x: Float, y: Float, z: Float, roll: Float, pitch: Float, yaw: Float) {
    predicate IsFinite() {
      x.Finite? && y.Finite? && z.Finite? && roll.Finite? && pitch.Finite? && yaw.Finite?
    }

    function Limit(linear: real, angular: real): Twist {
      Twist(LimitFloat(x, linear), LimitFloat(y, linear), LimitFloat(z, linear),
            LimitFloat(roll, angular), LimitFloat(pitch, angular), LimitFloat(yaw, angular))
    }
  }

  function LimitFloat(value: Float, limit: real): Float {
    if value.Finite? then Finite(ClampReal(value.r, -limit, limit)) else value
  }

  const ZERO_TWIST := Twist(Finite(0.0), Finite(0.0), Finite(0.0), Finite(0.0), Finite(0.0), Finite(0.0))

  datatype Config = Config(
    watchdogTimeoutS: real, commandTimeoutS: real, maxLinear: real, maxAngular: real,
    minGripper: real, maxGripper: real, heartbeatOnly: bool)

  datatype SafetyOutput = SafetyOutput(
    twist: Twist, gripper: real, frame: string, connectionState: LinkState, watchdogState: WatchdogState,
    lastDisposition: Disposition, transitions: seq<Transition>)

  datatype SafetyValue = SafetyValue(
    config: Config, connectionState: LinkState, watchdogState: WatchdogState, lastDisposition: Disposition, frame: string,
    everConnected: bool, awaitingFreshCommand: bool, lastKeepAliveS: Option<real>, lastCommandS: Option<real>,
    activeTwist: Twist, outputTwist: Twist, gripper: real, pendingStartupStop: bool)
  {
    function KeepAlive(nowS: real, fromCommand: bool): SafetyValue {
      var heard := this.(lastKeepAliveS := Some(nowS));
      if connectionState != TimedOut then heard
      else if !everConnected then
        heard.(connectionState := Connected, watchdogState := WatchdogState.Ok, everConnected := true,
               awaitingFreshCommand := !fromCommand)
      else heard.(connectionState := Restored, awaitingFreshCommand := true)
    }

    function KeepAliveTransitions(): seq<Transition> {
      if connectionState != TimedOut then [] else if !everConnected then [ToLink(Connected)] else [ToLink(Restored)]
    }

    function Framed(newFrame: string): SafetyValue {
      if newFrame != "" then this.(frame := newFrame) else this
    }

    /** Before a finite command is held or accepted. */
    function Heard(newFrame: string, nowS: real): SafetyValue {
      if config.heartbeatOnly then Framed(newFrame) else Framed(newFrame).KeepAlive(nowS, true)
    }

    function CommandDisposition(twist: Twist, value: Float, newFrame: string, nowS: real): Disposition {
      if !twist.IsFinite() || !value.Finite? then Rejected
      else if Heard(newFrame, nowS).connectionState == TimedOut then Held
      else if twist.Limit(config.maxLinear, config.maxAngular) != twist then Clamped
      else Accepted
    }

    function OnCommand(twist: Twist, value: Float, newFrame: string, nowS: real): SafetyValue {
      if !twist.IsFinite() || !value.Finite? then this.(lastDisposition := Rejected)
      else
        var heard := Heard(newFrame, nowS);
        if heard.connectionState == TimedOut then heard.(lastDisposition := Held)
        else
          heard.Obey(twist.Limit(config.maxLinear, config.maxAngular),
                     ClampReal(value.r, config.minGripper, config.maxGripper), nowS,
                     CommandDisposition(twist, value, newFrame, nowS))
    }

    function Obey(working: Twist, jaw: real, nowS: real, disposition: Disposition): SafetyValue {
      var fed := if !awaitingFreshCommand then this
                 else this.(connectionState := if connectionState == Restored then Connected else connectionState,
                            awaitingFreshCommand := false, watchdogState := WatchdogState.Ok);
      fed.(activeTwist := working, outputTwist := working, gripper := jaw, lastCommandS := Some(nowS),
           lastDisposition := disposition)
    }

    function CommandTransitions(twist: Twist, value: Float, newFrame: string, nowS: real): seq<Transition> {
      if !twist.IsFinite() || !value.Finite? then []
      else
        var heard := Heard(newFrame, nowS);
        (if config.heartbeatOnly then [] else KeepAliveTransitions())
        + if heard.awaitingFreshCommand && heard.connectionState == Restored then [ToLink(Connected)] else []
    }

    predicate Trips(nowS: real) {
      lastKeepAliveS.Some? && nowS - lastKeepAliveS.value > config.watchdogTimeoutS && connectionState != TimedOut
    }

    function Trip(nowS: real): SafetyValue {
      if !Trips(nowS) then this
      else this.(connectionState := TimedOut, watchdogState := SafeStop, awaitingFreshCommand := true,
                 activeTwist := ZERO_TWIST, outputTwist := ZERO_TWIST, lastDisposition := Zeroed)
    }

    function SafeTwist(nowS: real): Twist {
      if connectionState == Connected && !awaitingFreshCommand
         && lastCommandS.Some? && nowS - lastCommandS.value <= config.commandTimeoutS then activeTwist
      else ZERO_TWIST
    }

    function Tick(nowS: real): SafetyValue {
      var tripped := this.(pendingStartupStop := false).Trip(nowS);
      tripped.(outputTwist := tripped.SafeTwist(nowS))
    }

    function TickOutput(nowS: real): SafetyOutput {
      var t := Tick(nowS);
      SafetyOutput(t.outputTwist, t.gripper, t.frame, t.connectionState, t.watchdogState, t.lastDisposition,
                   (if pendingStartupStop then [ToSafeStop] else []) + if Trips(nowS) then [ToLink(TimedOut), ToSafeStop] else [])
    }
  }

  function Start(config: Config, frame: string): SafetyValue {
    SafetyValue(config, TimedOut, SafeStop, Zeroed, frame, false, true, None, None, ZERO_TWIST, ZERO_TWIST,
                config.minGripper, true)
  }

  class SafetyController {
    const config: Config
    var connectionState: LinkState
    var watchdogState: WatchdogState
    var lastDisposition: Disposition
    var frame: string
    var everConnected: bool
    var awaitingFreshCommand: bool
    var lastKeepAliveS: Option<real>
    var lastCommandS: Option<real>
    var activeTwist: Twist
    var outputTwist: Twist
    var gripper: real
    var pendingStartupStop: bool

    function Value(): SafetyValue
      reads this
    {
      SafetyValue(config, connectionState, watchdogState, lastDisposition, frame, everConnected, awaitingFreshCommand,
                  lastKeepAliveS, lastCommandS, activeTwist, outputTwist, gripper, pendingStartupStop)
    }

    constructor (config: Config, defaultFrame: string)
      ensures Value() == Start(config, defaultFrame)
    {
      this.config := config;
      connectionState, watchdogState, lastDisposition, frame := TimedOut, SafeStop, Zeroed, defaultFrame;
      everConnected, awaitingFreshCommand := false, true;
      lastKeepAliveS, lastCommandS := None, None;
      activeTwist, outputTwist, gripper, pendingStartupStop := ZERO_TWIST, ZERO_TWIST, config.minGripper, true;
    }

    method OnHeartbeat(nowS: real) returns (transitions: seq<Transition>)
      modifies this
      ensures Value() == old(Value()).KeepAlive(nowS, false)
      ensures transitions == old(Value()).KeepAliveTransitions()
    {
      transitions := RegisterKeepAlive(nowS, false);
    }

    method RegisterKeepAlive(nowS: real, fromCommand: bool) returns (transitions: seq<Transition>)
      modifies this
      ensures Value() == old(Value()).KeepAlive(nowS, fromCommand)
      ensures transitions == old(Value()).KeepAliveTransitions()
    {
      transitions := [];
      lastKeepAliveS := Some(nowS);
      if connectionState == TimedOut {
        if !everConnected {
          connectionState := Connected;
          watchdogState := WatchdogState.Ok;
          everConnected := true;
          awaitingFreshCommand := !fromCommand;
          transitions := [ToLink(Connected)];
        } else {
          connectionState := Restored;
          awaitingFreshCommand := true;
          transitions := [ToLink(Restored)];
        }
      }
    }

    method OnCommand(twist: Twist, value: Float, newFrame: string, nowS: real)
      returns (disposition: Disposition, transitions: seq<Transition>)
      modifies this
      ensures Value() == old(Value()).OnCommand(twist, value, newFrame, nowS)
      ensures disposition == old(Value()).CommandDisposition(twist, value, newFrame, nowS)
      ensures transitions == old(Value()).CommandTransitions(twist, value, newFrame, nowS)
    {
      hide Twist.Limit, ClampReal, SafetyValue.KeepAlive, SafetyValue.Obey, Twist.IsFinite;
      if !twist.IsFinite() || !value.Finite? {
        lastDisposition := Rejected;
        return Rejected, [];
      }
      var working := twist.Limit(config.maxLinear, config.maxAngular);
      var jaw := ClampReal(value.r, config.minGripper, config.maxGripper);
      if newFrame != "" {
        frame := newFrame;
      }
      transitions := [];
      if !config.heartbeatOnly {
        transitions := RegisterKeepAlive(nowS, true);
      }
      if connectionState == TimedOut {
        lastDisposition := Held;
        return Held, transitions;
      }
      disposition := if working != twist then Clamped else Accepted;
      var more := Obey(working, jaw, nowS, disposition);
      transitions := transitions + more;
    }

    method Obey(working: Twist, jaw: real, nowS: real, disposition: Disposition) returns (transitions: seq<Transition>)
      modifies this
      ensures Value() == old(Value()).Obey(working, jaw, nowS, disposition)
      ensures transitions == if old(awaitingFreshCommand && connectionState == Restored) then [ToLink(Connected)] else []
    {
      transitions := [];
      if awaitingFreshCommand {
        if connectionState == Restored {
          connectionState := Connected;
          transitions := [ToLink(Connected)];
        }
        awaitingFreshCommand := false;
        watchdogState := WatchdogState.Ok;
      }
      activeTwist := working;
      outputTwist := working;
      gripper := jaw;
      lastCommandS := Some(nowS);
      lastDisposition := disposition;
    }

    method TripIfSilent(nowS: real) returns (transitions: seq<Transition>)
      modifies this
      ensures Value() == old(Value()).Trip(nowS)
      ensures transitions == if old(Value()).Trips(nowS) then [ToLink(TimedOut), ToSafeStop] else []
    {
      transitions := [];
      if lastKeepAliveS.Some? {
        var elapsed := nowS - lastKeepAliveS.value;
        if elapsed > config.watchdogTimeoutS && connectionState != TimedOut {
          connectionState := TimedOut;
          watchdogState := SafeStop;
          awaitingFreshCommand := true;
          activeTwist := ZERO_TWIST;
          outputTwist := ZERO_TWIST;
          lastDisposition := Zeroed;
          transitions := [ToLink(TimedOut), ToSafeStop];
        }
      }
    }

    method Tick(nowS: real) returns (out: SafetyOutput)
      modifies this
      ensures Value() == old(Value()).Tick(nowS)
      ensures out == old(Value()).TickOutput(nowS)
    {
      var transitions: seq<Transition> := [];
      if pendingStartupStop {
        transitions := [ToSafeStop];
        pendingStartupStop := false;
      }
      var more := TripIfSilent(nowS);
      transitions := transitions + more;
      if connectionState == Connected && !awaitingFreshCommand {
        if lastCommandS == None || nowS - lastCommandS.value > config.commandTimeoutS {
          outputTwist := ZERO_TWIST;
        } else {
          outputTwist := activeTwist;
        }
      } else {
        outputTwist := ZERO_TWIST;
      }
      out := SafetyOutput(outputTwist, gripper, frame, connectionState, watchdogState, lastDisposition, transitions);
    }
  }

  // ---------- Runs ----------

  datatype Event =
    | Heartbeat(nowS: real)
    | Command(twist: Twist, value: Float, frame: string, nowS: real)
    | TickAt(nowS: real)

  function Apply(v: SafetyValue, e: Event): SafetyValue {
    match e
    case Heartbeat(nowS) => v.KeepAlive(nowS, false)
    case Command(twist, value, frame, nowS) => v.OnCommand(twist, value, frame, nowS)
    case TickAt(nowS) => v.Tick(nowS)
  }

  function Run(v: SafetyValue, es: seq<Event>): SafetyValue {
    if es == [] then v else Apply(Run(v, es[..|es| - 1]), es[|es| - 1])
  }

  // ---------- What happened, from the events alone ----------

  predicate IsFiniteCommand(e: Event) {
    e.Command? && e.twist.IsFinite() && e.value.Finite?
  }

  predicate IsKeepAlive(config: Config, e: Event) {
    e.Heartbeat? || (IsFiniteCommand(e) && !config.heartbeatOnly)
  }

  /** The last keep-alive, if any came since the last trip. A tick trips on a silent keep-alive. */
  function KeptAlive(config: Config, es: seq<Event>): (k: Option<nat>)
    ensures k.Some? ==> k.value < |es| && IsKeepAlive(config, es[k.value])
    decreases |es|, 0
  {
    if es == [] then None
    else if IsKeepAlive(config, es[|es| - 1]) then Some(|es| - 1)
    else if IsTrip(config, es[..|es| - 1], es[|es| - 1]) then None
    else KeptAlive(config, es[..|es| - 1])
  }

  predicate IsTrip(config: Config, earlier: seq<Event>, e: Event)
    decreases |earlier|, 1
  {
    && e.TickAt?
    && var k := KeptAlive(config, earlier); k.Some? && e.nowS - earlier[k.value].nowS > config.watchdogTimeoutS
  }

  /** A finite command counts if it is, or follows, a keep-alive since the last trip. */
  predicate IsAccepted(config: Config, earlier: seq<Event>, e: Event) {
    IsFiniteCommand(e) && (!config.heartbeatOnly || KeptAlive(config, earlier).Some?)
  }

  /** The last accepted command, if any came since the last trip. */
  function Obeyed(config: Config, es: seq<Event>): (k: Option<nat>)
    ensures k.Some? ==> k.value < |es| && IsFiniteCommand(es[k.value])
  {
    if es == [] then None
    else if IsAccepted(config, es[..|es| - 1], es[|es| - 1]) then Some(|es| - 1)
    else if IsTrip(config, es[..|es| - 1], es[|es| - 1]) then None
    else Obeyed(config, es[..|es| - 1])
  }

  predicate EverTripped(config: Config, es: seq<Event>) {
    es != [] && (IsTrip(config, es[..|es| - 1], es[|es| - 1]) || EverTripped(config, es[..|es| - 1]))
  }

  /** No trip at or after k: what `Some(k)` above means. */
  predicate NoTripFrom(config: Config, es: seq<Event>, k: nat) {
    |es| <= k || (!IsTrip(config, es[..|es| - 1], es[|es| - 1]) && NoTripFrom(config, es[..|es| - 1], k))
  }

  // ---------- The controller follows what happened ----------

  /** The state, from when it was kept alive, what it obeyed and whether it ever tripped. */
  predicate Tracks(v: SafetyValue, config: Config, heard: Option<real>, obeyed: Option<(Twist, real)>, tripped: bool) {
    && v.config == config
    && v.connectionState == (if heard == None then TimedOut else if obeyed.Some? || !tripped then Connected else Restored)
    && v.watchdogState == (if v.connectionState == Connected then WatchdogState.Ok else SafeStop)
    && v.awaitingFreshCommand == (obeyed == None)
    && (obeyed.Some? ==> heard.Some? && v.lastCommandS == Some(obeyed.value.1) && v.activeTwist == obeyed.value.0)
    && (heard.Some? ==> v.lastKeepAliveS == heard)
    && v.everConnected == (heard.Some? || tripped)
  }

  function HeardAt(config: Config, es: seq<Event>): Option<real> {
    var k := KeptAlive(config, es);
    if k == None then None else Some(es[k.value].nowS)
  }

  function ObeyedAt(config: Config, es: seq<Event>): Option<(Twist, real)> {
    var k := Obeyed(config, es);
    if k == None then None else Some((es[k.value].twist.Limit(config.maxLinear, config.maxAngular), es[k.value].nowS))
  }

  lemma CommandTracks(v: SafetyValue, config: Config, heard: Option<real>, obeyed: Option<(Twist, real)>, tripped: bool, e: Event)
    requires Tracks(v, config, heard, obeyed, tripped) && e.Command?
    ensures var next, keeps := v.OnCommand(e.twist, e.value, e.frame, e.nowS), IsKeepAlive(config, e);
            Tracks(next, config, if keeps then Some(e.nowS) else heard,
                   if IsFiniteCommand(e) && (keeps || heard.Some?)
                   then Some((e.twist.Limit(config.maxLinear, config.maxAngular), e.nowS)) else obeyed, tripped)
  {
    hide Twist.Limit, ClampReal, Twist.IsFinite;
  }

  lemma TickTracks(v: SafetyValue, config: Config, heard: Option<real>, obeyed: Option<(Twist, real)>, tripped: bool, nowS: real)
    requires Tracks(v, config, heard, obeyed, tripped)
    ensures var trips := heard.Some? && nowS - heard.value > config.watchdogTimeoutS;
            && v.Trips(nowS) == trips
            && Tracks(v.Tick(nowS), config, if trips then None else heard, if trips then None else obeyed, trips || tripped)
            && v.Tick(nowS).outputTwist ==
                 if !trips && obeyed.Some? && nowS - obeyed.value.1 <= config.commandTimeoutS then obeyed.value.0 else ZERO_TWIST
  {
  }

  lemma PastTurn(config: Config, es: seq<Event>)
    requires es != []
    ensures var init, e := es[..|es| - 1], es[|es| - 1];
            && HeardAt(config, es) == (if IsKeepAlive(config, e) then Some(e.nowS)
                                       else if IsTrip(config, init, e) then None else HeardAt(config, init))
            && ObeyedAt(config, es) == (if IsAccepted(config, init, e)
                                        then Some((e.twist.Limit(config.maxLinear, config.maxAngular), e.nowS))
                                        else if IsTrip(config, init, e) then None else ObeyedAt(config, init))
            && EverTripped(config, es) == (IsTrip(config, init, e) || EverTripped(config, init))
            && IsTrip(config, init, e) == (e.TickAt? && HeardAt(config, init).Some?
                                           && e.nowS - HeardAt(config, init).value > config.watchdogTimeoutS)
            && IsAccepted(config, init, e) == (IsFiniteCommand(e) && (!config.heartbeatOnly || HeardAt(config, init).Some?))
  {
    hide Twist.Limit, IsFiniteCommand;
  }

  lemma {:induction false} RunTracks(config: Config, frame: string, es: seq<Event>)
    ensures Tracks(Run(Start(config, frame), es), config, HeardAt(config, es), ObeyedAt(config, es), EverTripped(config, es))
  {
    if es != [] {
      hide HeardAt, ObeyedAt, EverTripped, IsTrip, IsAccepted, Twist.Limit, SafetyValue.OnCommand, SafetyValue.Tick;
      hide IsFiniteCommand;
      var init, last := es[..|es| - 1], es[|es| - 1];
      RunTracks(config, frame, init);
      PastTurn(config, es);
      var before := Run(Start(config, frame), init);
      match last
      case Heartbeat(_) =>
      case Command(_, _, _, _) =>
        CommandTracks(before, config, HeardAt(config, init), ObeyedAt(config, init), EverTripped(config, init), last);
      case TickAt(nowS) =>
        TickTracks(before, config, HeardAt(config, init), ObeyedAt(config, init), EverTripped(config, init), nowS);
    }
  }

  /** What a tick publishes, by the events alone: the obeyed command, limited, while both are recent. */
  function Published(config: Config, es: seq<Event>, nowS: real): Twist {
    var heard, obeyed := KeptAlive(config, es), Obeyed(config, es);
    if heard.Some? && nowS - es[heard.value].nowS <= config.watchdogTimeoutS
       && obeyed.Some? && nowS - es[obeyed.value].nowS <= config.commandTimeoutS
    then es[obeyed.value].twist.Limit(config.maxLinear, config.maxAngular)
    else ZERO_TWIST
  }

  /** After every run each tick publishes exactly that, and the watchdog is OK exactly when connected. */
  lemma TickPublishes(config: Config, frame: string, es: seq<Event>, nowS: real)
    ensures var out := Run(Start(config, frame), es).TickOutput(nowS);
            && out.twist == Published(config, es, nowS)
            && (out.watchdogState == WatchdogState.Ok <==> out.connectionState == Connected)
  {
    hide Twist.Limit, Run, EverTripped, KeptAlive, Obeyed;
    RunTracks(config, frame, es);
    TickTracks(Run(Start(config, frame), es), config, HeardAt(config, es), ObeyedAt(config, es), EverTripped(config, es), nowS);
  }

  lemma {:induction false} ObeyedSinceTrip(config: Config, es: seq<Event>)
    requires Obeyed(config, es).Some?
    ensures var k := Obeyed(config, es).value;
            && NoTripFrom(config, es, k + 1) && IsAccepted(config, es[..k], es[k])
            && forall j :: k < j < |es| ==> !IsAccepted(config, es[..j], es[j])
  {
    if !IsAccepted(config, es[..|es| - 1], es[|es| - 1]) {
      hide IsAccepted, IsTrip;
      var init := es[..|es| - 1];
      ObeyedSinceTrip(config, init);
      forall j | Obeyed(config, es).value < j < |es| ensures !IsAccepted(config, es[..j], es[j]) {
        if j < |es| - 1 {
          assert init[..j] == es[..j];
        }
      }
      assert init[..Obeyed(config, es).value] == es[..Obeyed(config, es).value];
    } else {
      assert NoTripFrom(config, es, |es|);
    }
  }

  lemma {:induction false} KeptAliveSinceTrip(config: Config, es: seq<Event>)
    requires KeptAlive(config, es).Some?
    ensures var k := KeptAlive(config, es).value;
            NoTripFrom(config, es, k + 1) && forall j :: k < j < |es| ==> !IsKeepAlive(config, es[j])
  {
    if !IsKeepAlive(config, es[|es| - 1]) {
      KeptAliveSinceTrip(config, es[..|es| - 1]);
    } else {
      assert NoTripFrom(config, es, |es|);
    }
  }

  /**
    No replay after a trip. A tick that publishes anything but zero is CONNECTED, has a keep-alive
    within the watchdog timeout, and publishes the last accepted command, limited: accepted within
    the command timeout, and with no trip since.
   */
  lemma NoReplayAfterTrip(config: Config, frame: string, es: seq<Event>, nowS: real)
    requires Run(Start(config, frame), es).TickOutput(nowS).twist != ZERO_TWIST
    ensures var out := Run(Start(config, frame), es).TickOutput(nowS);
            var heard, obeyed := KeptAlive(config, es), Obeyed(config, es);
            && out.connectionState == Connected && heard.Some? && obeyed.Some?
            && var h, k := heard.value, obeyed.value;
               && IsKeepAlive(config, es[h]) && nowS - es[h].nowS <= config.watchdogTimeoutS
               && IsAccepted(config, es[..k], es[k]) && nowS - es[k].nowS <= config.commandTimeoutS
               && NoTripFrom(config, es, k + 1) && !IsTrip(config, es, Event.TickAt(nowS))
               && out.twist == es[k].twist.Limit(config.maxLinear, config.maxAngular)
  {
    hide Twist.Limit, Run, EverTripped, NoTripFrom, IsAccepted, IsKeepAlive;
    RunTracks(config, frame, es);
    TickPublishes(config, frame, es, nowS);
    ObeyedSinceTrip(config, es);
  }

  /** A limited rate is within the limit, and unchanged exactly when it already was. */
  lemma LimitedIsWithin(value: Float, limit: real)
    requires value.Finite? && limit >= 0.0
    ensures LimitFloat(value, limit).Finite? && -limit <= LimitFloat(value, limit).r <= limit
    ensures LimitFloat(value, limit) == value <==> -limit <= value.r <= limit
  {
  }

  /** The jaw controller, told this output's states, is live only when the gateway is connected. */
  lemma JawNeedsConnection(config: Config, frame: string, es: seq<Event>, nowS: real, jaw: GripperValue, thenS: real)
    ensures var out := Run(Start(config, frame), es).TickOutput(nowS);
            jaw.OnTeleopState(LinkText(out.connectionState), WatchdogText(out.watchdogState)).DeadmanReason(thenS) == None
            ==> out.connectionState == Connected
  {
    hide Run;
  }
}
