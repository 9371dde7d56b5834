/**
  The registry's own stop, once it is due, waits for the record's lock. A presence that comes in
  that wait does not cancel it: here is why, and a run from the loaded database in which it happens.
 */
module RegistryLateStop {
  import opened Wrappers
  import opened RegistryRecord
  import opened RegistrySteps
  import opened RegistryInvariant
  import opened RegistrySafety
  import opened RegistryRuns

  /** The stop is due for this robot and this holder, and both are still the record's. */
  predicate StillDue(h: Hub, rec: RecId, robot: Socket, operator: Socket) {
    && h.maintain == StopWait(rec, robot, operator)
    && rec < |h.records| && h.records[rec].robot == Some(robot) && h.records[rec].operator == Some(operator)
  }

  /**
    A presence from the robot while the stop waits, whoever holds the lock: the record is fresh
    again, and the stop is as due as before.
   */
  lemma LatePresenceDoesNotCancel(w: World, rec: RecId, robot: Socket, operator: Socket, phase: Phase)
    requires StillDue(w.hub, rec, robot, operator) && w.hub.At(robot, RobotIdle(Some(rec))) && Still(w.hub, robot, rec)
    ensures var t := Step(w, PresenceFrame(robot, phase));
            && !t.hub.records[rec].IsStale(t.utc) && t.hub.records[rec].staleDeadline == None
            && t.trace == w.trace + [Seen(rec, phase, w.utc.Floor as real)]
            && StillDue(t.hub, rec, robot, operator) && t.hub.locks == w.hub.locks
  {
    PresenceIsFresh(w.hub.records[rec], phase, w.utc);
  }

  // ---------- A run ----------

  /** One approved robot in the database, and nobody connected. */
  function LoadedWorld(): World {
    World(Hub(map["A" := 0], [Record("A", 7, true, Idle, None, None, None, None, false, None, None)],
              map[], map[], map[], map[], map[], Asleep, {"A"}),
          0.0, 0.0, [])
  }

  /** The robot is connected on socket 1, and this is its record. */
  predicate Scene(w: World, r: Record, nowS: real) {
    && w.hub.robots == map["A" := 0] && w.hub.records == [r] && w.hub.locks == map[] && "A" in w.hub.db
    && w.hub.maintain == Asleep && w.mono == w.utc == nowS && w.hub.At(1, RobotIdle(Some(0)))
  }

  function Found(): Record {
    Record("A", 7, true, Idle, Some(0.0), Some(1), None, None, false, None, None)
  }

  function Held(): Record {
    Found().(operator := Some(2), operatorName := Some("op"))
  }

  function Noticed(): Record {
    Held().(sweepMark := Some(StaleMark), staleDeadline := Some(60.0))
  }

  predicate NoOperator(h: Hub) {
    2 !in h.sides && h.operatorWs == map[] && h.wsUser == map[]
  }

  lemma RobotAsks()
    ensures Initial(LoadedWorld())
    ensures var t := Step(Step(LoadedWorld(), Connect(1, RobotSide)), RegisterFrame(1, "A"));
            t.hub.At(1, Matching("A", 7, None)) && NoOperator(t.hub) && t == LoadedWorld().To(t.hub) && SameRegister(t.hub)
  {
  }

  predicate SameRegister(h: Hub) {
    h.robots == map["A" := 0] && h.records == LoadedWorld().hub.records && h.locks == map[] && "A" in h.db && h.maintain == Asleep
  }

  lemma RobotMatches(w: World)
    requires w.hub.At(1, Matching("A", 7, None)) && SameRegister(w.hub) && w.utc == w.mono == 0.0 && NoOperator(w.hub)
    ensures var t := Step(w, Matched(1, true));
            && t.hub.At(1, TakeWait(0, None, 0.0)) && SameRegister(t.hub) && t.utc == t.mono == 0.0 && NoOperator(t.hub)
  {
  }

  lemma RobotTakes(w: World)
    requires w.hub.At(1, TakeWait(0, None, 0.0)) && SameRegister(w.hub) && w.utc == w.mono == 0.0 && NoOperator(w.hub)
    ensures var t := Step(Step(w, Take(1)), TakeAgain(1)); Scene(t, Found(), 0.0) && NoOperator(t.hub)
  {
  }

  lemma RobotArrives() returns (es: seq<Event>)
    ensures Initial(LoadedWorld())
    ensures Scene(Run(LoadedWorld(), es), Found(), 0.0) && NoOperator(Run(LoadedWorld(), es).hub)
  {
    var w := LoadedWorld();
    es := [];
    assert Run(w, es) == w;
    assert w.utc == w.mono == 0.0;
    RobotAsks();
    hide Run, Step, SameRegister, NoOperator, Scene, Initial, LoadedWorld;
    es := Then(w, es, Connect(1, RobotSide));
    es := Then(w, es, RegisterFrame(1, "A"));
    RobotMatches(Run(w, es));
    es := Then(w, es, Matched(1, true));
    RobotTakes(Run(w, es));
    es := Then(w, es, Take(1));
    es := Then(w, es, TakeAgain(1));
  }

  predicate LoggedIn(w: World) {
    w.hub.At(2, OperatorIdle) && 2 in w.hub.wsUser && w.hub.wsUser[2] == "op"
  }

  lemma OperatorAsks(w: World)
    requires Scene(w, Found(), 0.0) && NoOperator(w.hub)
    ensures var t := Step(Step(w, Connect(2, OperatorSide)), LoginFrame(2, "op"));
            Scene(t, Found(), 0.0) && t.hub.At(2, LoginWait("op"))
  {
  }

  lemma OperatorLogsIn(w: World)
    requires Scene(w, Found(), 0.0) && w.hub.At(2, LoginWait("op"))
    ensures var t := Step(Step(w, LoginMatched(2, true)), LoginCommit(2)); Scene(t, Found(), 0.0) && LoggedIn(t)
  {
  }

  lemma OperatorArrives(w: World, start: seq<Event>) returns (es: seq<Event>)
    requires Scene(Run(w, start), Found(), 0.0) && NoOperator(Run(w, start).hub)
    ensures Scene(Run(w, es), Found(), 0.0) && LoggedIn(Run(w, es))
  {
    hide Run, Step, Scene, NoOperator, LoggedIn;
    OperatorAsks(Run(w, start));
    es := Then(w, start, Connect(2, OperatorSide));
    es := Then(w, es, LoginFrame(2, "op"));
    OperatorLogsIn(Run(w, es));
    es := Then(w, es, LoginMatched(2, true));
    es := Then(w, es, LoginCommit(2));
  }

  lemma AttachAsked(w: World)
    requires Scene(w, Found(), 0.0) && LoggedIn(w)
    ensures var t := OnAttach(w, 2, "A", None);
            Scene(t, Found(), 0.0) && t.hub.At(2, AttachWait(0, "op")) && t.hub.wsUser == w.hub.wsUser
  {
    assert w.hub.HeldChoice(2, None);
  }

  lemma AttachGranted(w: World)
    requires Scene(w, Found(), 0.0) && w.hub.At(2, AttachWait(0, "op")) && 2 in w.hub.wsUser && w.hub.wsUser[2] == "op"
    ensures Scene(OnAttachLocked(w, 2, None), Held(), 0.0) && LoggedIn(OnAttachLocked(w, 2, None))
  {
    assert w.hub.HeldChoice(2, None);
  }

  lemma OperatorAttaches(w: World, start: seq<Event>) returns (es: seq<Event>)
    requires Scene(Run(w, start), Found(), 0.0) && LoggedIn(Run(w, start))
    ensures Scene(Run(w, es), Held(), 0.0) && LoggedIn(Run(w, es))
  {
    hide Run, OnAttach, OnAttachLocked, Scene;
    AttachAsked(Run(w, start));
    es := Then(w, start, AttachFrame(2, "A", None));
    AttachGranted(Run(w, es));
    es := Then(w, es, AttachLocked(2, None));
  }

  lemma GoesStale(w: World, start: seq<Event>) returns (es: seq<Event>)
    requires Scene(Run(w, start), Held(), 0.0) && LoggedIn(Run(w, start))
    ensures Scene(Run(w, es), Noticed(), 60.0) && LoggedIn(Run(w, es))
  {
    hide Run;
    es := Then(w, start, Clock(30.0, 30.0));
    es := Then(w, es, SweepRobot("A"));
    es := Then(w, es, Clock(60.0, 60.0));
  }

  /** The operator's frame is being relayed, so the record is locked, and the stop is due. */
  predicate DueUnderRelay(w: World) {
    && StillDue(w.hub, 0, 1, 2) && w.hub.records == [Noticed()] && w.hub.locks == map[0 := 2]
    && w.hub.robots == map["A" := 0] && w.utc == 60.0
    && w.hub.At(1, RobotIdle(Some(0))) && w.hub.At(2, Relaying(0, OperatorSide, 1, Config))
  }

  lemma RelayBegins(w: World)
    requires Scene(w, Noticed(), 60.0) && LoggedIn(w)
    ensures var t := Step(Step(w, RelayFrame(2, Config, Some("A"))), Forward(2));
            && t.hub.robots == map["A" := 0] && t.hub.records == [Noticed()] && t.hub.locks == map[0 := 2] && "A" in t.hub.db
            && t.hub.maintain == Asleep && t.utc == t.mono == 60.0
            && t.hub.At(1, RobotIdle(Some(0))) && t.hub.At(2, Relaying(0, OperatorSide, 1, Config))
  {
    assert w.hub.HeldChoice(2, Some("A"));
  }

  lemma SweepFindsDue(w: World)
    requires w.hub.robots == map["A" := 0] && w.hub.records == [Noticed()] && w.hub.locks == map[0 := 2] && "A" in w.hub.db
    requires w.hub.maintain == Asleep && w.utc == w.mono == 60.0
    requires w.hub.At(1, RobotIdle(Some(0))) && w.hub.At(2, Relaying(0, OperatorSide, 1, Config))
    ensures var t := OnSweep(w, "A"); DueUnderRelay(t) && t.trace == w.trace + [StopDue(0, 1, 2, 60.0)]
  {
    assert Noticed().SweepResult(60.0, 60.0) == Due && Noticed().Swept(60.0, 60.0) == Noticed();
    hide Record.SweepResult, Record.Swept;
  }

  lemma FallsDue(w: World, start: seq<Event>) returns (es: seq<Event>)
    requires Scene(Run(w, start), Noticed(), 60.0) && LoggedIn(Run(w, start))
    ensures DueUnderRelay(Run(w, es))
    ensures |Run(w, es).trace| > 0 && Run(w, es).trace[|Run(w, es).trace| - 1] == StopDue(0, 1, 2, 60.0)
  {
    hide Run, OnSweep, OnRelayFrame, OnForward, Scene, LoggedIn, DueUnderRelay;
    RelayBegins(Run(w, start));
    es := Then(w, start, RelayFrame(2, Config, Some("A")));
    es := Then(w, es, Forward(2));
    SweepFindsDue(Run(w, es));
    es := Then(w, es, SweepRobot("A"));
  }

  lemma RelayThenStop(w: World)
    requires StillDue(w.hub, 0, 1, 2) && w.hub.locks == map[0 := 2] && w.hub.At(2, Relaying(0, OperatorSide, 1, Config))
    ensures Step(w, StaleStop) == w
    ensures Step(Step(w, RelayEnds(2, true)), StaleStop).trace == w.trace + [OwnStop(0, 1, 2), Entry.Detach(0)]
  {
  }

  /**
    A run from the loaded database. While the operator's frame is relayed the sweep finds the stop
    due; the robot's presence makes its record fresh; the relay ends and the stop is still sent.
   */
  lemma LatePresenceRun() returns (es: seq<Event>, due: nat)
    ensures Initial(LoadedWorld())
    ensures var trace := Run(LoadedWorld(), es).trace;
            && |trace| == due + 4
            && trace[due..] == [StopDue(0, 1, 2, 60.0), Seen(0, Ready, 60.0), OwnStop(0, 1, 2), Entry.Detach(0)]
  {
    var w := LoadedWorld();
    es := RobotArrives();
    hide Run, Initial, LoadedWorld, Scene, Step;
    es := OperatorArrives(w, es);
    es := OperatorAttaches(w, es);
    es := GoesStale(w, es);
    es := FallsDue(w, es);
    var trace := Run(w, es).trace;
    due := |trace| - 1;
    LatePresenceDoesNotCancel(Run(w, es), 0, 1, 2, Ready);
    StillRelaying(Run(w, es));
    es := Then(w, es, PresenceFrame(1, Ready));
    RelayThenStop(Run(w, es));
    es := Then(w, es, RelayEnds(2, true));
    es := Then(w, es, StaleStop);
    assert Run(w, es).trace == trace + [Seen(0, Ready, 60.0)] + [OwnStop(0, 1, 2), Entry.Detach(0)];
  }

  lemma StillRelaying(w: World)
    requires DueUnderRelay(w)
    ensures Still(w.hub, 1, 0)
    ensures Step(w, PresenceFrame(1, Ready)).hub.At(2, Relaying(0, OperatorSide, 1, Config))
  {
    hide Record.Presence;
  }
}
