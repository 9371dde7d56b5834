/**
  That things happen: what an uninterrupted exchange with the registry brings about, from the frame
  to the end of its last stretch, and what a release, a sign-out or a closed connection gives back.
 */
module RegistryEffects {
  import opened Wrappers
  import opened RegistryRecord
  import opened RegistrySteps

  // ---------- Where an exchange starts ----------

  /** An operator's handler is idle, and logged in under this name. */
  predicate Signed(h: Hub, ws: Socket, user: string) {
    h.At(ws, OperatorIdle) && ws in h.wsUser && h.wsUser[ws] == user
  }

  /** The ID leads to this record, and nobody has its lock. */
  predicate Free(h: Hub, id: string, rec: RecId) {
    id in h.robots && h.robots[id] == rec && rec < |h.records| && rec !in h.locks
  }

  /** A robot's handler is idle in the session of this registered record, and still its socket. */
  predicate Serves(h: Hub, ws: Socket, rec: RecId) {
    && h.At(ws, RobotIdle(Some(rec))) && rec < |h.records| && h.records[rec].robot == Some(ws)
    && h.records[rec].id in h.robots && h.robots[h.records[rec].id] == rec
  }

  /** Only this record changed, and it has lost its hold and nothing else that matters to others. */
  predicate GivenBack(w: World, t: World, rec: RecId) {
    && rec < |w.hub.records| == |t.hub.records|
    && (forall k :: 0 <= k < |w.hub.records| && k != rec ==> t.hub.records[k] == w.hub.records[k])
    && t.hub.records[rec].operator == None && t.hub.records[rec].operatorName == None && !t.hub.records[rec].startInProgress
    && t.hub.records[rec].staleDeadline == None && t.hub.records[rec].approved == w.hub.records[rec].approved
    && t.hub.records[rec].phase == w.hub.records[rec].phase && t.hub.records[rec].lastSeen == w.hub.records[rec].lastSeen
  }

  // ---------- Operators ----------

  /** A login, from the frame to the dictionary; a wrong password leads back to where it started. */
  lemma LoginLogsIn(w: World, ws: Socket, user: string)
    requires w.hub.At(ws, OperatorIdle) && ws !in w.hub.wsUser
    ensures user in w.hub.operatorWs ==> OnLogin(w, ws, user) == w
    ensures user !in w.hub.operatorWs ==>
              var asked := OnLogin(w, ws, user);
              && OnLoginMatched(asked, ws, false) == w.To(w.hub.SetPc(ws, LoginWait(user)).SetPc(ws, OperatorIdle))
              && var t := OnLoginCommit(OnLoginMatched(asked, ws, true), ws);
                 Signed(t.hub, ws, user) && t.hub.operatorWs == w.hub.operatorWs[user := ws] && t.hub.records == w.hub.records
  {
  }

  lemma ApproveApproves(w: World, ws: Socket, user: string, id: string, rec: RecId)
    requires Signed(w.hub, ws, user) && Free(w.hub, id, rec)
    ensures var t := OnApprove(w, ws, id);
            && |t.hub.records| == |w.hub.records| && t.hub.records[rec] == w.hub.records[rec].(approved := true)
            && t.trace == w.trace + [Entry.Approve(rec)]
  {
  }

  lemma OnlyOperatorsApprove(w: World, ws: Socket, id: string)
    requires ws !in w.hub.wsUser
    ensures OnApprove(w, ws, id) == w
  {
  }

  /** An attach that may have the robot has it when its two stretches are over, under the operator's name. */
  lemma AttachTakesHold(w: World, ws: Socket, user: string, id: string, rec: RecId)
    requires Signed(w.hub, ws, user) && Free(w.hub, id, rec) && w.hub.HeldChoice(ws, None)
    requires w.hub.records[rec].approved && w.hub.records[rec].robot.Some? && w.hub.records[rec].operator == None
    requires !w.hub.records[rec].IsStale(w.utc)
    ensures var asked := OnAttach(w, ws, id, None);
            var t := OnAttachLocked(asked, ws, None);
            && asked.hub == w.hub.SetPc(ws, AttachWait(rec, user)) && t.hub.At(ws, OperatorIdle)
            && |t.hub.records| == |w.hub.records|
            && t.hub.records[rec] == w.hub.records[rec].(operator := Some(ws), operatorName := Some(user))
            && t.trace == w.trace + [Entry.Attach(rec, ws, user)]
  {
    hide Record.IsStale;
    var asked := OnAttach(w, ws, id, None);
    assert asked.hub == w.hub.SetPc(ws, AttachWait(rec, user));
    assert asked.hub.HeldChoice(ws, None);
  }

  /** A release, in its two stretches, ends the hold. */
  lemma ReleaseGivesBack(w: World, ws: Socket, user: string, id: string, rec: RecId)
    requires Signed(w.hub, ws, user) && Free(w.hub, id, rec) && w.hub.records[rec].operator == Some(ws)
    ensures var t := OnReleaseLocked(OnRelease(w, ws, Some(id)), ws);
            && GivenBack(w, t, rec) && t.hub.records[rec].robot == w.hub.records[rec].robot
            && t.hub.At(ws, OperatorIdle) && t.trace == w.trace + [Entry.Detach(rec)]
  {
    hide Record.IsStale;
    assert OnRelease(w, ws, Some(id)).hub == w.hub.SetPc(ws, ReleaseWait(rec, BackToIdle));
  }

  /** A sign-out ends the hold, then the login. */
  lemma SignOutGivesBack(w: World, ws: Socket, user: string, id: string, rec: RecId)
    requires Signed(w.hub, ws, user) && Free(w.hub, id, rec) && w.hub.records[rec].operator == Some(ws)
    ensures var released := OnReleaseLocked(OnSignOut(w, ws, Some(id)), ws);
            var t := OnSignOutEnds(released, ws);
            && GivenBack(w, t, rec) && t.hub.records[rec].robot == w.hub.records[rec].robot
            && t.hub.At(ws, OperatorIdle) && ws !in t.hub.wsUser && t.trace == w.trace + [Entry.Detach(rec)]
            && (user in w.hub.operatorWs && w.hub.operatorWs[user] == ws ==> user !in t.hub.operatorWs)
  {
    hide Record.IsStale;
    assert OnSignOut(w, ws, Some(id)).hub == w.hub.SetPc(ws, ReleaseWait(rec, ToSignOut(Some(user))));
    SignOutReleases(OnSignOut(w, ws, Some(id)), ws, rec, user);
  }

  lemma SignOutReleases(w: World, ws: Socket, rec: RecId, user: string)
    requires w.hub.At(ws, ReleaseWait(rec, ToSignOut(Some(user)))) && w.hub.Lockable(rec) && w.hub.records[rec].operator == Some(ws)
    ensures var t := OnReleaseLocked(w, ws);
            && t.hub == w.hub.SetRecord(rec, w.hub.records[rec].Released(w.utc)).SetPc(ws, SignOutReply(Some(user)))
            && t.trace == w.trace + [Entry.Detach(rec)]
  {
  }

  /** A sign-out without a hold only ends the login. */
  lemma SignOutWithoutHold(w: World, ws: Socket, user: string)
    requires Signed(w.hub, ws, user) && w.hub.HeldChoice(ws, None)
    ensures var t := OnSignOutEnds(OnSignOut(w, ws, None), ws);
            t.hub.records == w.hub.records && t.trace == w.trace && t.hub.At(ws, OperatorIdle) && ws !in t.hub.wsUser
  {
  }

  /** The connection of a logged-in holder closes: the login is gone at once, the hold when its stretch is over. */
  lemma ClosingGivesBack(w: World, ws: Socket, user: string, id: string, rec: RecId)
    requires Signed(w.hub, ws, user) && Free(w.hub, id, rec) && w.hub.records[rec].operator == Some(ws)
    ensures var dropping := OnBeginDrop(OnLeave(w, ws), ws, Some(id));
            var t := OnReleaseLocked(dropping, ws);
            && ws !in dropping.hub.wsUser && dropping.hub.At(ws, ReleaseWait(rec, ToDone))
            && GivenBack(w, t, rec) && t.hub.records[rec].robot == w.hub.records[rec].robot && t.hub.At(ws, Done)
            && t.trace == w.trace + [Entry.Detach(rec)]
  {
    hide Record.IsStale;
    var left := OnLeave(w, ws);
    assert left.hub == w.hub.SetPc(ws, Closing);
    LogoutIs(left.hub, ws);
    var out := left.hub.Logout(ws);
    assert out.HeldChoice(ws, Some(id));
    assert OnBeginDrop(left, ws, Some(id)).hub == out.SetPc(ws, ReleaseWait(rec, ToDone));
  }

  lemma LogoutIs(h: Hub, ws: Socket)
    requires ws in h.wsUser
    ensures var t := h.Logout(ws); t == h.(wsUser := h.wsUser - {ws}, operatorWs := t.operatorWs)
  {
  }

  // ---------- Robots ----------

  /** A new ID is registered, pending, with this socket, below the cap. */
  lemma RegisterAddsRobot(w: World, ws: Socket, id: string, digest: int)
    requires w.hub.At(ws, RobotIdle(None)) && id !in w.hub.robots && w.hub.PendingCount() < 500
    ensures OnRegister(w, ws, id).hub == w.hub.SetPc(ws, Hashing(id, None))
    ensures var t, rec := OnHashed(OnRegister(w, ws, id), ws, digest), |w.hub.records|;
            && |t.hub.records| == rec + 1 && t.hub.robots == w.hub.robots[id := rec] && t.hub.At(ws, RobotIdle(Some(rec)))
            && t.hub.records[rec].id == id && t.hub.records[rec].secret == digest && !t.hub.records[rec].approved
            && t.hub.records[rec].robot == Some(ws) && t.hub.records[rec].operator == None
  {
    hide Hub.PendingCount;
    assert OnRegister(w, ws, id).hub.PendingCount() == w.hub.PendingCount() by { SamePending(w.hub, OnRegister(w, ws, id).hub); }
  }

  lemma SamePending(h: Hub, t: Hub)
    requires t.robots == h.robots && t.records == h.records
    ensures t.PendingCount() == h.PendingCount()
  {
  }

  /** At the cap a new ID is turned away, before its token is hashed and again after. */
  lemma FullTurnsAway(w: World, ws: Socket, id: string, digest: int, session: Option<RecId>)
    requires id !in w.hub.robots && w.hub.PendingCount() >= 500
    ensures w.hub.At(ws, RobotIdle(None)) ==> OnRegister(w, ws, id) == w
    ensures w.hub.At(ws, Hashing(id, session)) ==> OnHashed(w, ws, digest) == w.To(w.hub.SetPc(ws, RobotIdle(session)))
  {
    hide Hub.PendingCount;
  }

  /** A known robot that shows its token takes its record over, and is its session. */
  lemma TokenTakesRecord(w: World, ws: Socket, id: string, rec: RecId)
    requires w.hub.At(ws, RobotIdle(None)) && Free(w.hub, id, rec)
    ensures var asked := OnRegister(w, ws, id);
            var t := OnTakeAgain(OnTake(OnMatched(asked, ws, true), ws), ws);
            && asked.hub == w.hub.SetPc(ws, Matching(id, w.hub.records[rec].secret, None))
            && OnMatched(asked, ws, false) == w.To(asked.hub.SetPc(ws, RobotIdle(None)))
            && |t.hub.records| == |w.hub.records| && t.hub.records[rec].robot == Some(ws)
            && t.hub.records[rec].operator == w.hub.records[rec].operator && t.hub.At(ws, RobotIdle(Some(rec)))
            && t.trace == w.trace + [TookSocket(rec, ws, w.utc.Floor as real), Cancel(rec, NewSocket)]
  {
    hide Hub.PendingCount;
    var asked := OnRegister(w, ws, id);
    assert asked.hub == w.hub.SetPc(ws, Matching(id, w.hub.records[rec].secret, None));
    var matched := OnMatched(asked, ws, true);
    assert matched.hub.At(ws, TakeWait(rec, None, w.utc.Floor as real)) && matched.hub.records == w.hub.records
        && matched.hub.locks == w.hub.locks;
    TakeTakes(matched, ws, rec, w.utc.Floor as real);
  }

  lemma TakeTakes(w: World, ws: Socket, rec: RecId, stamp: real)
    requires w.hub.At(ws, TakeWait(rec, None, stamp)) && w.hub.Lockable(rec)
    ensures var t := OnTakeAgain(OnTake(w, ws), ws);
            && |t.hub.records| == |w.hub.records| && t.hub.records[rec].robot == Some(ws)
            && t.hub.records[rec].operator == w.hub.records[rec].operator && t.hub.At(ws, RobotIdle(Some(rec)))
            && t.trace == w.trace + [TookSocket(rec, ws, stamp), Cancel(rec, NewSocket)]
  {
  }

  lemma PresenceCounts(w: World, ws: Socket, rec: RecId, phase: Phase)
    requires Serves(w.hub, ws, rec)
    ensures var t := OnPresence(w, ws, phase);
            && |t.hub.records| == |w.hub.records| && t.hub.records[rec].phase == phase && !t.hub.records[rec].IsStale(t.utc)
            && t.trace == w.trace + [Seen(rec, phase, w.utc.Floor as real)]
  {
    PresenceIsFresh(w.hub.records[rec], phase, w.utc);
    assert Still(w.hub, ws, rec);
  }

  /** The robot's connection closes: its record loses both sockets when the drop's stretch is over. */
  lemma RobotClosing(w: World, ws: Socket, rec: RecId)
    requires Serves(w.hub, ws, rec) && rec !in w.hub.locks && ws !in w.hub.wsUser
    ensures var dropping := OnBeginDrop(OnLeave(w, ws), ws, Some(w.hub.records[rec].id));
            var t := OnDropLocked(dropping, ws);
            && dropping.hub.At(ws, DropWait(rec)) && GivenBack(w, t, rec) && t.hub.records[rec].robot == None && t.hub.At(ws, Done)
            && t.trace == w.trace + [Entry.Detach(rec), SocketGone(rec)]
  {
    hide Record.IsStale;
    var left := OnLeave(w, ws);
    assert left.hub == w.hub.SetPc(ws, Closing);
    assert left.hub.NamedChoice(ws, Some(w.hub.records[rec].id));
    assert OnBeginDrop(left, ws, Some(w.hub.records[rec].id)).hub == left.hub.SetPc(ws, DropWait(rec));
  }

  // ---------- Relays ----------

  /** A holder's frame goes to the robot under the lock, which is free again afterwards; a start is pending from then on. */
  lemma HolderReachesRobot(w: World, ws: Socket, user: string, id: string, rec: RecId, kind: Kind)
    requires Signed(w.hub, ws, user) && Free(w.hub, id, rec) && kind.AllowedFrom(OperatorSide)
    requires w.hub.records[rec].operator == Some(ws) && w.hub.records[rec].robot.Some?
    ensures var sent := OnForward(OnRelayFrame(w, ws, kind, Some(id)), ws);
            var t := OnRelayEnds(sent, ws, true);
            && sent.trace == w.trace + [Relay(rec, ws, w.hub.records[rec].robot.value, kind)]
            && rec in sent.hub.locks && sent.hub.locks[rec] == ws
            && |t.hub.records| == |w.hub.records| && t.trace == sent.trace && rec !in t.hub.locks && t.hub.At(ws, OperatorIdle)
            && t.hub.records[rec] == w.hub.records[rec].(startInProgress := w.hub.records[rec].startInProgress || kind.StartFrame?)
  {
    assert w.hub.HeldChoice(ws, Some(id));
    assert OnRelayFrame(w, ws, kind, Some(id)).hub == w.hub.SetPc(ws, ForwardWait(rec, OperatorSide, kind));
    ForwardRelays(OnRelayFrame(w, ws, kind, Some(id)), ws, rec, OperatorSide, kind, w.hub.records[rec].robot.value);
  }

  lemma ForwardRelays(w: World, ws: Socket, rec: RecId, side: Side, kind: Kind, peer: Socket)
    requires w.hub.At(ws, ForwardWait(rec, side, kind)) && w.hub.Lockable(rec)
    requires w.hub.records[rec].operator == Some(if side == OperatorSide then ws else peer)
    requires w.hub.records[rec].robot == Some(if side == OperatorSide then peer else ws)
    ensures var t, r := OnForward(w, ws), w.hub.records[rec];
            && t.trace == w.trace + [Relay(rec, ws, peer, kind)]
            && t.hub == w.hub.SetRecord(rec, if side == OperatorSide && kind.StartFrame? then r.(startInProgress := true) else r)
                             .(locks := w.hub.locks[rec := ws]).SetPc(ws, Relaying(rec, side, peer, kind))
  {
  }

  /** A robot's frame goes to the holder, and a status it carries is the record's phase afterwards. */
  lemma RobotReachesHolder(w: World, ws: Socket, rec: RecId, kind: Kind)
    requires Serves(w.hub, ws, rec) && rec !in w.hub.locks && kind.AllowedFrom(RobotSide) && w.hub.records[rec].operator.Some?
    ensures var sent := OnForward(OnRelayFrame(w, ws, kind, None), ws);
            var t := OnRelayEnds(sent, ws, true);
            && sent.trace == w.trace + [Relay(rec, ws, w.hub.records[rec].operator.value, kind)]
            && |t.hub.records| == |w.hub.records| && rec !in t.hub.locks && t.hub.At(ws, RobotIdle(Some(rec)))
            && (kind.Status? && kind.phase.Some? ==>
                  t.hub.records[rec].phase == kind.phase.value && t.trace == sent.trace + [Reported(rec, kind.phase.value)])
            && (!(kind.Status? && kind.phase.Some?) ==> t.hub.records[rec] == w.hub.records[rec] && t.trace == sent.trace)
  {
    assert Still(w.hub, ws, rec);
    assert OnRelayFrame(w, ws, kind, None).hub == w.hub.SetPc(ws, ForwardWait(rec, RobotSide, kind));
    ForwardRelays(OnRelayFrame(w, ws, kind, None), ws, rec, RobotSide, kind, w.hub.records[rec].operator.value);
  }

  /** A relay whose send fails frees the lock and closes the sender. */
  lemma FailedRelayCloses(w: World, ws: Socket, rec: RecId, side: Side, peer: Socket, kind: Kind)
    requires w.hub.At(ws, Relaying(rec, side, peer, kind)) && rec < |w.hub.records|
    ensures OnRelayEnds(w, ws, false) == w.To(w.hub.(locks := w.hub.locks - {rec}).SetPc(ws, Closing))
  {
  }

  // ---------- The maintenance task ----------

  /** What a sweep logs and whether a stop is now waiting, by what it decides of the record. */
  lemma SweepActs(w: World, id: string, rec: RecId)
    requires id in w.hub.robots && w.hub.robots[id] == rec && rec < |w.hub.records| && id in w.hub.db && w.hub.maintain == Asleep
    requires w.hub.records[rec].Paired()
    ensures var r, t := w.hub.records[rec], OnSweep(w, id);
            var result := r.SweepResult(w.utc, w.mono);
            && (result == Notice ==>
                  r.operator.Some? && t.trace == w.trace + [StaleNotice(rec, r.operator.value, w.mono)] && t.hub.maintain == Asleep)
            && (result == Due ==>
                  && r.robot.Some? && r.operator.Some? && t.trace == w.trace + [StopDue(rec, r.robot.value, r.operator.value, w.mono)]
                  && t.hub.maintain == StopWait(rec, r.robot.value, r.operator.value))
            && (result == Sweep.Quiet ==>
                  && t.hub.maintain == Asleep
                  && t.trace == if r.robot.Some? && !r.IsStale(w.utc) then w.trace + [Cancel(rec, FreshSweep)] else w.trace)
  {
    hide Record.Swept, Record.IsStale;
  }

  /** Once its row is gone a record is forgotten with its sockets and its hold. */
  lemma ForgetForgets(w: World, id: string, rec: RecId)
    requires id in w.hub.robots && w.hub.robots[id] == rec && rec < |w.hub.records| && id !in w.hub.db && w.hub.maintain == Asleep
    ensures var t := OnForget(w, id);
            && GivenBack(w, t, rec) && t.hub.records[rec].robot == None && t.hub.robots == w.hub.robots - {id}
            && t.trace == w.trace + [Entry.Detach(rec), SocketGone(rec)]
  {
  }

  /** What a detach and a sweep leave as the mark of a robot that nobody holds. */
  lemma UnheldMarks(r: Record, utc: real, mono: real)
    ensures r.Released(utc).sweepMark == if r.IsStale(utc) then Some(OfflineMark) else None
    ensures r.operator == None && r.robot.Some? ==>
              r.Swept(utc, mono).sweepMark
              == if !r.IsStale(utc) then None else if r.approved then Some(OfflineMark) else r.sweepMark
    ensures r.StaleStopped().sweepMark == Some(OfflineMark)
  {
  }
}
