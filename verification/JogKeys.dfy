/**
  From the operator's keys to the joints' directions: over every run of keys, emits and sessions,
  the joint floats name exactly the jog of the key that is held, and the robot reads them so.
 */
module JogKeys {
  import opened Wrappers
  import opened Motion
  import opened Gripper
  import opened Leader
  import opened Joint
  import opened OperatorKeys
  import opened GripperPresses

  // ---------- Sessions and held keys, from the events alone ----------

  predicate InSession(es: seq<HostEvent>) {
    es != [] && (es[|es| - 1].AttachEvent? || (!es[|es| - 1].DetachEvent? && InSession(es[..|es| - 1])))
  }

  /** The session is driven by a leader arm, not by keys. */
  predicate ByLeader(es: seq<HostEvent>) {
    if es == [] then false
    else
      match es[|es| - 1]
      case AttachEvent(asLeader, _) => asLeader
      case DetachEvent(_) => ByLeader(es[..|es| - 1]) && !InSession(es[..|es| - 1])
      case DisableEvent => false
      case _ => ByLeader(es[..|es| - 1])
  }

  function JogOf(key: char): Option<(nat, int)> {
    match Binding(key)
    case Some(Jog(index, sign)) => Some((index, sign))
    case _ => None
  }

  /** The jog key that went down last and has not come up since; a stop, or the start or end of a session, lets go. */
  function HeldKey(es: seq<HostEvent>): Option<char> {
    if es == [] then None
    else
      var init, e := es[..|es| - 1], es[|es| - 1];
      match e
      case KeyEvent(key, down) =>
        if !InSession(init) || ByLeader(init) then HeldKey(init)
        else if Binding(key) == Some(Stop) && down then None
        else if JogOf(key) == None then HeldKey(init)
        else if down then Some(key)
        else if HeldKey(init) == Some(key) then None
        else HeldKey(init)
      case AttachEvent(_, _) => None
      case DetachEvent(_) => if InSession(init) then None else HeldKey(init)
      case DisableEvent => None
      case _ => HeldKey(init)
  }

  function HostRun(o: OperatorValue, es: seq<HostEvent>): OperatorValue {
    if es == [] then o else HostStep(HostRun(o, es[..|es| - 1]), es[|es| - 1])
  }

  const NEW_HOST := OperatorValue(false, false, false, GRIPPER_HOLD, None, false, false, None, AllHold(), None)

  /** Five floats: the held key's jog for its joint, and holds. */
  predicate Shows(joints: seq<real>, held: Option<char>) {
    && |joints| == ARM_COUNT
    && forall i :: 0 <= i < ARM_COUNT ==>
         JointMotion(Finite(joints[i]))
         == Some(if held.Some? && JogOf(held.value).Some? && JogOf(held.value).value.0 == i then JogOf(held.value).value.1 else 0)
  }

  predicate Tracks(o: OperatorValue, es: seq<HostEvent>) {
    && o.connected == InSession(es) && o.leader == ByLeader(es) && o.jointKey == HeldKey(es)
    && o.joints == JogFloats(HeldKey(es))
  }

  /** The floats the key machine keeps for a held key. */
  function JogFloats(held: Option<char>): seq<real> {
    if held == None || JogOf(held.value) == None || JogOf(held.value).value.0 >= 5 then AllHold()
    else AllHold()[JogOf(held.value).value.0 := if JogOf(held.value).value.1 > 0 then JOG_POSITIVE else JOG_NEGATIVE]
  }

  lemma FloatsShow(held: Option<char>)
    requires held.Some? ==> JogOf(held.value).Some? && JogOf(held.value).value.0 < 5 && JogOf(held.value).value.1 in {1, -1}
    ensures Shows(JogFloats(held), held)
  {
    assert JointMotion(Finite(JOG_POSITIVE)) == Some(1) && JointMotion(Finite(JOG_NEGATIVE)) == Some(-1);
    assert JointMotion(Finite(JOINT_HOLD)) == Some(0);
    hide JointMotion, JogOf;
    var joints := JogFloats(held);
    forall i | 0 <= i < ARM_COUNT
      ensures JointMotion(Finite(joints[i]))
           == Some(if held.Some? && JogOf(held.value).value.0 == i then JogOf(held.value).value.1 else 0)
    {
      assert AllHold()[i] == JOINT_HOLD;
    }
  }

  /** Each jog key is for one of the five joints, one way. */
  lemma JogKeysAreForJoints(key: char)
    ensures JogOf(key).Some? ==> JogOf(key).value.0 < 5 && JogOf(key).value.1 in {1, -1}
  {
  }

  lemma {:induction false} HeldIsJog(es: seq<HostEvent>)
    ensures HeldKey(es).Some? ==> JogOf(HeldKey(es).value).Some?
  {
    if es != [] {
      hide JogOf;
      HeldIsJog(es[..|es| - 1]);
    }
  }

  lemma KeyTracks(o: OperatorValue, es: seq<HostEvent>, e: HostEvent)
    requires Tracks(o, es) && e.KeyEvent?
    ensures Tracks(HostStep(o, e), es + [e])
  {
    hide OperatorValue.GripperKey;
    GripperKeyKeeps(o, e.key, e.down, Binding(e.key) == Some(Open));
    assert (es + [e])[..|es|] == es;
    HeldIsJog(es);
  }

  lemma GripperKeyKeeps(o: OperatorValue, key: char, down: bool, open: bool)
    ensures var t := o.GripperKey(key, down, open);
            t.connected == o.connected && t.leader == o.leader && t.jointKey == o.jointKey && t.joints == o.joints
  {
    hide GripperStepValue;
  }

  lemma OtherTracks(o: OperatorValue, es: seq<HostEvent>, e: HostEvent)
    requires Tracks(o, es) && !e.KeyEvent?
    ensures Tracks(HostStep(o, e), es + [e])
  {
    hide EncodeGripperFraction, EncodeJointFraction, JogOf, OperatorValue.EmittedGripper;
    assert (es + [e])[..|es|] == es;
  }

  lemma {:induction false} RunTracks(es: seq<HostEvent>)
    ensures Tracks(HostRun(NEW_HOST, es), es)
  {
    if es != [] {
      hide Tracks, HostStep;
      var init, last := es[..|es| - 1], es[|es| - 1];
      RunTracks(init);
      assert init + [last] == es;
      if last.KeyEvent? {
        KeyTracks(HostRun(NEW_HOST, init), init, last);
      } else {
        OtherTracks(HostRun(NEW_HOST, init), init, last);
      }
    }
  }

  /**
    Over every run of a new host, in a session driven by keys an emit carries for each joint what
    the robot reads as a step in the held key's direction if that key is for this joint, and as a
    hold otherwise; the last packet of a session holds every joint.
   */
  lemma EmitsShowHeldKey(es: seq<HostEvent>, sample: Sample)
    requires InSession(es) && !ByLeader(es)
    ensures Shows(HostRun(NEW_HOST, es).EmittedJoints(sample, false), HeldKey(es))
    ensures Shows(HostRun(NEW_HOST, es).EmittedJoints(sample, true), None)
  {
    hide HostRun;
    RunTracks(es);
    HeldIsJog(es);
    if HeldKey(es).Some? {
      JogKeysAreForJoints(HeldKey(es).value);
    }
    FloatsShow(HeldKey(es));
    FloatsShow(None);
  }

  /** In a leader's session an emit carries, joint by joint, a fraction near the reading, or a hold without a good one. */
  lemma EmitsShowLeader(es: seq<HostEvent>, sample: Sample, i: nat)
    requires InSession(es) && ByLeader(es) && i < ARM_COUNT
    ensures var joints := HostRun(NEW_HOST, es).EmittedJoints(sample, false);
            && |joints| == ARM_COUNT
            && if i < |sample.joints| && sample.joints[i].Some? && sample.joints[i].value.Finite?
               then JointMotion(Finite(joints[i])) == None && InFractionRange(Finite(joints[i]))
                    && AbsReal(joints[i] - ClampReal(sample.joints[i].value.r, 0.0, 1.0)) <= 0.0021
               else JointMotion(Finite(joints[i])) == Some(0)
  {
    hide HostRun;
    RunTracks(es);
  }

  /** The table of jog keys: two keys each way for the pan, one each way for the others. */
  lemma KeyTable()
    ensures JogOf('a') == JogOf('j') == Some((0, 1)) && JogOf('d') == JogOf('l') == Some((0, -1))
    ensures JogOf('w') == Some((1, 1)) && JogOf('s') == Some((1, -1)) && JogOf('r') == Some((2, 1)) && JogOf('f') == Some((2, -1))
  {
  }

  lemma MoreKeys()
    ensures JogOf('i') == Some((3, 1)) && JogOf('k') == Some((3, -1)) && JogOf('u') == Some((4, 1)) && JogOf('o') == Some((4, -1))
    ensures Binding('g') == Some(Open) && Binding('h') == Some(Close) && Binding(' ') == Some(Stop)
  {
  }

  // ---------- The jaw key ----------

  /** The last press of the session: whether there was one, which way, whether it was sent, and whether its key came up. */
  datatype Press = Press(any: bool, open: bool, sent: bool, up: bool, key: Option<char>)

  predicate LinkIsUp(es: seq<HostEvent>) {
    es != [] && (es[|es| - 1].EnableEvent? || (!es[|es| - 1].DisableEvent? && LinkIsUp(es[..|es| - 1])))
  }

  /** A jaw key goes down, which is a press unless it was down already, or comes up. */
  function JawKey(was: Press, key: char, down: bool): Press {
    if down then (if was.key == Some(key) then was else Press(true, Binding(key) == Some(Open), false, false, Some(key)))
    else if was.key == Some(key) then was.(up := true, key := None)
    else was
  }

  /** Read from the events alone. A stop lets go of the key without a release; a session starts without a press. */
  function LastPress(es: seq<HostEvent>): Press {
    if es == [] then Press(false, false, false, false, None)
    else
      var init, e := es[..|es| - 1], es[|es| - 1];
      var was := LastPress(init);
      match e
      case KeyEvent(key, down) =>
        if !InSession(init) || ByLeader(init) then was
        else if Binding(key) == Some(Stop) then (if down then was.(key := None) else was)
        else if Binding(key) != Some(Open) && Binding(key) != Some(Close) then was
        else JawKey(was, key, down)
      case PublishEvent(_) => if InSession(init) && LinkIsUp(init) then was.(sent := true) else was
      case AttachEvent(_, _) => Press(false, false, false, false, None)
      case DetachEvent(_) => if InSession(init) then was.(any := false, key := None) else was
      case DisableEvent => was.(any := false)
      case EnableEvent => was
  }

  /** What the jaw float is in a session driven by keys. */
  predicate JawFloatIs(o: OperatorValue, p: Press) {
    if !p.any || (p.sent && p.up) then o.gripper == GRIPPER_HOLD
    else
      && IsToken(o.gripper) && GripperMotion(o.gripper) == (if p.open then 1 else -1)
      && o.gripperUnsent == !p.sent && o.gripperRelease == (p.up && !p.sent)
  }

  predicate JawTracks(o: OperatorValue, es: seq<HostEvent>) {
    && o.connected == InSession(es) && o.leader == ByLeader(es) && o.socketOpen == LinkIsUp(es)
    && (InSession(es) ==> o.gripperKey == LastPress(es).key)
    && (InSession(es) && !ByLeader(es) ==> JawFloatIs(o, LastPress(es)))
  }

  lemma JawKeyMoves(o: OperatorValue, p: Press, key: char, down: bool)
    requires o.gripperKey == p.key && JawFloatIs(o, p) && Binding(key) in {Some(Open), Some(Close)}
    ensures var t := o.GripperKey(key, down, Binding(key) == Some(Open));
            && t.gripperKey == JawKey(p, key, down).key && JawFloatIs(t, JawKey(p, key, down))
            && t.connected == o.connected && t.leader == o.leader && t.socketOpen == o.socketOpen
  {
    hide GripperStepValue, GripperMotion, IsToken, Binding;
    StepValueIsNew(o.StepBase(), Binding(key) == Some(Open));
  }

  lemma OtherKeyKeepsJaw(o: OperatorValue, key: char, down: bool)
    requires Binding(key) !in {Some(Open), Some(Close)}
    ensures var t := o.ApplyKey(key, down);
            && t.gripper == o.gripper && t.gripperUnsent == o.gripperUnsent && t.gripperRelease == o.gripperRelease
            && t.connected == o.connected && t.leader == o.leader && t.socketOpen == o.socketOpen
            && t.gripperKey == if Binding(key) == Some(Stop) && down && o.connected && !o.leader then None else o.gripperKey
  {
    hide OperatorValue.GripperKey, Binding;
  }

  lemma JawKeyTracks(o: OperatorValue, es: seq<HostEvent>, e: HostEvent)
    requires JawTracks(o, es) && e.KeyEvent?
    ensures JawTracks(HostStep(o, e), es + [e])
  {
    hide OperatorValue.GripperKey, GripperMotion, IsToken, Binding, JawKey, OperatorValue.ApplyKey;
    assert (es + [e])[..|es|] == es;
    var in_ := InSession(es) && !ByLeader(es);
    if Binding(e.key) !in {Some(Open), Some(Close)} {
      OtherKeyKeepsJaw(o, e.key, e.down);
    } else if in_ {
      JawKeyMoves(o, LastPress(es), e.key, e.down);
      assert o.ApplyKey(e.key, e.down) == o.GripperKey(e.key, e.down, Binding(e.key) == Some(Open)) by { IsGripperKey(o, e.key, e.down); }
    } else {
      assert o.ApplyKey(e.key, e.down) == o by { IgnoresKey(o, e.key, e.down); }
    }
  }

  lemma IsGripperKey(o: OperatorValue, key: char, down: bool)
    requires o.connected && !o.leader && Binding(key) in {Some(Open), Some(Close)}
    ensures o.ApplyKey(key, down) == o.GripperKey(key, down, Binding(key) == Some(Open))
  {
    hide OperatorValue.GripperKey, Binding;
  }

  lemma IgnoresKey(o: OperatorValue, key: char, down: bool)
    requires !o.connected || o.leader
    ensures o.ApplyKey(key, down) == o
  {
    hide OperatorValue.GripperKey, Binding;
  }

  lemma JawOtherTracks(o: OperatorValue, es: seq<HostEvent>, e: HostEvent)
    requires JawTracks(o, es) && !e.KeyEvent?
    ensures JawTracks(HostStep(o, e), es + [e])
  {
    hide GripperMotion, IsToken, EncodeGripperFraction, EncodeJointFraction;
    assert (es + [e])[..|es|] == es;
  }

  lemma {:induction false} JawRunTracks(es: seq<HostEvent>)
    ensures JawTracks(HostRun(NEW_HOST, es), es)
  {
    if es != [] {
      hide JawTracks, HostStep;
      var init, last := es[..|es| - 1], es[|es| - 1];
      JawRunTracks(init);
      assert init + [last] == es;
      if last.KeyEvent? {
        JawKeyTracks(HostRun(NEW_HOST, init), init, last);
      } else {
        JawOtherTracks(HostRun(NEW_HOST, init), init, last);
      }
    }
  }

  /**
    Over every run, in a session driven by keys an emit carries a step token for the last press,
    its way, until that press has been sent and its key has come up; before any press and from then
    on it carries hold.
   */
  lemma EmitsShowLastPress(es: seq<HostEvent>, sample: Sample)
    requires InSession(es) && !ByLeader(es)
    ensures var x, p := HostRun(NEW_HOST, es).EmittedGripper(sample), LastPress(es);
            if !p.any || (p.sent && p.up) then x == GRIPPER_HOLD else IsToken(x) && GripperMotion(x) == if p.open then 1 else -1
  {
    hide HostRun;
    JawRunTracks(es);
  }
}
