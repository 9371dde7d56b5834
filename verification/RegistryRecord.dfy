/**
  One robot record of the fleet registry: the live sockets, the start flag and the stale sweep's
  marks. Each function is what one uninterrupted stretch of the server does to the record.
 */
module RegistryRecord {
  import opened Wrappers

  const STALE_AFTER_S := 30.0
  const STALE_STOP_WAIT_S := 30.0

  type Socket = nat

  datatype Phase = Idle | Starting | Ready | Stopped | Error

  datatype Mark = StaleMark | OfflineMark

  datatype AttachCode = Attached | Pending | Offline | Busy | AlreadyAttached

  datatype Sweep = Quiet | Notice | Due

  /** Socket fields are None where the server has None. `lastSeen` is None where it cannot be parsed. */
  datatype Record = Record(
    id: string, secret: int, approved: bool, phase: Phase, lastSeen: Option<real>,
    robot: Option<Socket>, operator: Option<Socket>, operatorName: Option<string>,
    startInProgress: bool, sweepMark: Option<Mark>, staleDeadline: Option<real>)
  {
    /** An open socket and an old stamp. */
    predicate IsStale(utc: real) {
      robot.Some? && lastSeen.Some? && utc - lastSeen.value >= STALE_AFTER_S
    }

    predicate OnlineForAttach(utc: real) {
      robot.Some? && (operator.Some? || !IsStale(utc))
    }

    function AttachCode(ws: Socket, held: bool, utc: real): AttachCode {
      if !approved then Pending
      else if !OnlineForAttach(utc) then Offline
      else if operator.Some? && operator != Some(ws) then Busy
      else if held then AlreadyAttached
      else Attached
    }

    function Hold(ws: Socket, name: Option<string>): Record {
      this.(operator := Some(ws), operatorName := name)
    }

    function Unheld(): Record {
      this.(operator := None, operatorName := None, startInProgress := false, staleDeadline := None)
    }

    function MarkAfterDetach(utc: real): Record {
      this.(staleDeadline := None, sweepMark := if IsStale(utc) then Some(OfflineMark) else None)
    }

    function Released(utc: real): Record {
      Unheld().MarkAfterDetach(utc)
    }

    /** What a closed socket does to the record that names it. */
    function Dropped(ws: Socket, utc: real): Record {
      if robot == Some(ws) then Unheld().(robot := None, sweepMark := None)
      else if operator == Some(ws) then Released(utc)
      else this
    }

    function Taken(ws: Socket, stamp: real): Record {
      this.(robot := Some(ws), lastSeen := Some(stamp), sweepMark := None, staleDeadline := None)
    }

    function Forgotten(): Record {
      Unheld().(robot := None, sweepMark := None)
    }

    function ClearSweepIfFresh(utc: real): Record {
      if IsStale(utc) then this else this.(sweepMark := None, staleDeadline := None)
    }

    function Presence(newPhase: Phase, utc: real): Record {
      this.(phase := newPhase, lastSeen := Some(utc.Floor as real)).ClearSweepIfFresh(utc)
    }

    function ApplyStatus(newPhase: Phase): Record {
      var cleared := if newPhase == Stopped then this.(staleDeadline := None) else this;
      cleared.(phase := newPhase,
               startInProgress := startInProgress && newPhase != Ready && newPhase != Stopped && newPhase != Error)
    }

    function SweepResult(utc: real, mono: real): Sweep {
      if robot == None || !IsStale(utc) || operator == None then Quiet
      else if sweepMark != Some(StaleMark) then Notice
      else if staleDeadline == None || mono < staleDeadline.value then Quiet
      else Due
    }

    function Swept(utc: real, mono: real): Record {
      if robot == None then this.(staleDeadline := None)
      else if !IsStale(utc) then this.(sweepMark := None, staleDeadline := None)
      else if operator == None then
        this.(staleDeadline := None, sweepMark := if approved then Some(OfflineMark) else sweepMark)
      else if sweepMark != Some(StaleMark) then
        this.(sweepMark := Some(StaleMark), staleDeadline := Some(mono + STALE_STOP_WAIT_S))
      else this
    }

    function StaleStopped(): Record {
      Unheld().(sweepMark := Some(OfflineMark))
    }

    /** A held robot has a robot socket and is approved; a start needs a hold; a deadline needs the stale mark, and that a hold. */
    predicate Paired() {
      && (operator.Some? ==> robot.Some? && approved)
      && (startInProgress ==> operator.Some?)
      && (staleDeadline.Some? ==> operator.Some? && sweepMark == Some(StaleMark))
      && (sweepMark == Some(StaleMark) ==> operator.Some?)
    }
  }

  /** A presence is always fresh: its own stamp is less than a second old. */
  lemma PresenceIsFresh(r: Record, phase: Phase, utc: real)
    ensures r.Presence(phase, utc).staleDeadline == None && r.Presence(phase, utc).sweepMark == None
    ensures !r.Presence(phase, utc).IsStale(utc)
  {
  }

  /** Every stretch that ends or keeps a hold keeps the record paired. */
  lemma StretchesKeepPaired(r: Record, ws: Socket, utc: real, mono: real, phase: Phase)
    requires r.Paired()
    ensures r.Released(utc).Paired() && r.Dropped(ws, utc).Paired() && r.Taken(ws, utc).Paired() && r.Forgotten().Paired()
    ensures r.Presence(phase, utc).Paired() && r.ApplyStatus(phase).Paired()
    ensures r.Swept(utc, mono).Paired() && r.StaleStopped().Paired()
    ensures r.AttachCode(ws, false, utc) == Attached ==> r.Hold(ws, None).Paired()
    ensures r.operator.Some? ==> r.(startInProgress := true).Paired()
  {
    PresenceIsFresh(r, phase, utc);
  }

  // ---------- The dashboard ----------

  datatype Class = InPending | IsOffline | InTeleop | Autonomous | NeedsManual

  datatype Label = LabelPending | LabelOffline | LabelStale | LabelOnline | LabelError | LabelRunning | LabelStarting | LabelAttached

  predicate Old(r: Record, utc: real) {
    r.lastSeen.Some? && utc - r.lastSeen.value >= STALE_AFTER_S
  }

  /** As the fleet message reads a record. */
  predicate ShownHeld(r: Record) {
    r.operator.Some? || r.startInProgress
  }

  function Classify(r: Record, autonomous: bool, utc: real): Class {
    if !r.approved then InPending
    else if r.robot == None then IsOffline
    else if ShownHeld(r) then InTeleop
    else if Old(r, utc) then IsOffline
    else if autonomous then Autonomous
    else NeedsManual
  }

  function StatusLabel(r: Record, utc: real): Label {
    if !r.approved then LabelPending
    else if r.robot == None || (!ShownHeld(r) && Old(r, utc)) then LabelOffline
    else if ShownHeld(r) && Old(r, utc) then LabelStale
    else if !ShownHeld(r) then LabelOnline
    else if r.phase == Error then LabelError
    else if r.phase == Ready then LabelRunning
    else if r.startInProgress || r.phase == Starting then LabelStarting
    else LabelAttached
  }

  /** Counts and labels agree, and an operator sees "offline" exactly for what cannot be attached to. */
  lemma LabelsAgree(r: Record, autonomous: bool, utc: real, ws: Socket)
    requires r.Paired()
    ensures var shown, counted := StatusLabel(r, utc), Classify(r, autonomous, utc);
            && (shown == LabelOffline <==> counted == IsOffline) && (shown == LabelOnline <==> counted in {Autonomous, NeedsManual})
            && (shown in {LabelStale, LabelError, LabelRunning, LabelStarting, LabelAttached} <==> counted == InTeleop)
            && (r.approved ==> (shown == LabelOffline <==> r.AttachCode(ws, false, utc) == Offline))
            && (shown == LabelOnline ==> r.AttachCode(ws, false, utc) == Attached)
  {
  }

  /** What each label an operator sees says of the robot. */
  lemma LabelMeans(r: Record, utc: real)
    ensures var shown, held, old_ := StatusLabel(r, utc), ShownHeld(r), Old(r, utc);
            && (shown == LabelPending <==> !r.approved)
            && (shown == LabelOffline <==> r.approved && (r.robot == None || (!held && old_)))
            && (shown == LabelStale <==> r.approved && r.robot.Some? && held && old_)
            && (shown == LabelOnline <==> r.approved && r.robot.Some? && !held && !old_)
            && (shown == LabelError <==> r.approved && r.robot.Some? && held && !old_ && r.phase == Error)
            && (shown == LabelRunning <==> r.approved && r.robot.Some? && held && !old_ && r.phase == Ready)
            && (shown == LabelStarting <==> r.approved && r.robot.Some? && held && !old_ && r.phase !in {Error, Ready}
                                            && (r.startInProgress || r.phase == Starting))
            && (shown == LabelAttached <==> r.approved && r.robot.Some? && held && !old_ && r.phase in {Idle, Stopped} && !r.startInProgress)
  {
  }
}
