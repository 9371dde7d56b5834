/** The cap on robots waiting for approval holds over every run, whatever registers at the same time. */
module RegistryPending {
  import opened Wrappers
  import opened RegistryRecord
  import opened RegistrySteps
  import opened RegistryInvariant
  import opened RegistrySafety
  import opened RegistryFrames
  import opened RegistryRuns

  function PendingIds(h: Hub): set<string> {
    set id | id in h.robots && h.robots[id] < |h.records| && !h.records[h.robots[id]].approved
  }

  lemma Fewer(a: set<string>, b: set<string>)
    requires a <= b
    ensures |a| <= |b|
  {
    if a != {} {
      var x :| x in a;
      Fewer(a - {x}, b - {x});
    }
  }

  lemma CountIsIds(h: Hub)
    ensures h.PendingCount() == |PendingIds(h)|
  {
  }

  lemma NoNewPending(h: Hub, t: Hub)
    requires NoNewRobots(h, t)
    ensures t.PendingCount() <= h.PendingCount()
  {
    hide Hub.PendingCount;
    CountIsIds(h);
    CountIsIds(t);
    Fewer(PendingIds(t), PendingIds(h));
  }

  lemma TakePending(w: World, ws: Socket)
    ensures OnTake(w, ws).hub.PendingCount() <= w.hub.PendingCount()
  {
    hide Hub.PendingCount;
    CountIsIds(w.hub);
    CountIsIds(OnTake(w, ws).hub);
    assert PendingIds(OnTake(w, ws).hub) == PendingIds(w.hub);
  }

  /** A new robot is only let in below the cap, read again after its token is hashed. */
  lemma HashedPending(w: World, ws: Socket, digest: int)
    requires RobotsOk(w.hub)
    ensures OnHashed(w, ws, digest).hub.PendingCount() <= w.hub.PendingCount() || OnHashed(w, ws, digest).hub.PendingCount() <= PENDING_CAP
  {
    hide Hub.PendingCount;
    var t := OnHashed(w, ws, digest).hub;
    CountIsIds(w.hub);
    CountIsIds(t);
    if |t.records| == |w.hub.records| {
      assert PendingIds(t) == PendingIds(w.hub);
    } else {
      var id := w.hub.pcs[ws].robotId;
      assert w.hub.PendingCount() < PENDING_CAP;
      assert PendingIds(t) <= PendingIds(w.hub) + {id};
      Fewer(PendingIds(t), PendingIds(w.hub) + {id});
    }
  }

  lemma StepPending(w: World, e: Event)
    requires RobotsOk(w.hub)
    ensures Step(w, e).hub.PendingCount() <= w.hub.PendingCount() || Step(w, e).hub.PendingCount() <= PENDING_CAP
  {
    hide Hub.PendingCount, SameLogins, SameDone, NoNewRobots;
    if e.Take? {
      TakePending(w, e.ws);
    } else if e.Hashed? {
      HashedPending(w, e.ws, e.digest);
    } else {
      OthersPending(w, e);
    }
  }

  lemma OthersPending(w: World, e: Event)
    requires !e.Take? && !e.Hashed?
    ensures Step(w, e).hub.PendingCount() <= w.hub.PendingCount()
  {
    hide Hub.PendingCount, SameLogins, SameDone, NoNewRobots, Step;
    if ByRest(e) {
      OthersFramed(w, e);
    } else if ByRobot(e) {
      RobotsFramed(w, e);
    } else if ByOperator(e) {
      OperatorsFramed(w, e);
    } else {
      EndsFramed(w, e);
    }
    NoNewPending(w.hub, Step(w, e).hub);
  }

  lemma EndsFramed(w: World, e: Event)
    requires e.BeginDrop? || e.DropLocked? || e.Disconnect?
    ensures NoNewRobots(w.hub, Step(w, e).hub)
  {
    hide OnDropLocked, OnBeginDrop, OnDisconnect, NoNewRobots;
    match e
    case DropLocked(s) => DropLockedFramed(w, s);
    case BeginDrop(s, choice) => BeginDropFramed(w, s, choice);
    case Disconnect(username, choice) => var s := DisconnectFramed(w, username, choice);
  }

  /** Never more robots wait for approval than the cap, or than were loaded waiting. */
  lemma {:induction false} PendingIsCapped(w: World, es: seq<Event>)
    requires Initial(w)
    ensures Run(w, es).hub.PendingCount() <= PENDING_CAP || Run(w, es).hub.PendingCount() <= w.hub.PendingCount()
  {
    if es != [] {
      hide Step, Hub.PendingCount, Initial;
      PendingIsCapped(w, es[..|es| - 1]);
      RunInv(w, es[..|es| - 1]);
      StepPending(Run(w, es[..|es| - 1]), es[|es| - 1]);
    }
  }
}
