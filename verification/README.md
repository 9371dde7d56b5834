# Teleoperation stack: models and proofs

A Dafny 4.11 model of the parts of the teleoperation repository where state, timing and interleaving
matter, with proofs over whole runs. `dafny verify dfyconfig.toml` checks everything. Nothing was executed.

The objects that the repository updates in place are classes here. The session, its paths and window, the
controllers, the actuators, the gateway, the operator host and the WebSocket ends have methods proved equal to a step
function on the object's value, and the theorems are about those step functions, over any run. The two servers are
tied more loosely: the registry's methods are proved to change a record as the functions of `RegistryRecord` say, and
the events of its step machine apply those same functions; the ICE hub's methods state the rooms they leave, and the
events of its step machine say the same of the rooms as values. Code that only computes is functions and lemmas.

- **mlink** (`MlinkHeader`, `MlinkDedupe`, `MlinkPath`, `MlinkSteps`, `MlinkSession`): the wire header, the
  dedupe window, a path's health, and a session's send, enqueue, flush, tick and poll. `MlinkNetwork` puts two
  sessions on a network that drops, duplicates, delays and reorders but does not forge; `MlinkSafety`,
  `MlinkDelivery`, `MlinkCleanPath`, `MlinkTiming`, `MlinkLoss` and `MlinkQueues` prove what holds over every run.
  `MlinkReads` and `MlinkFirstCopy` say what one call sends, learns and delivers, from the frames alone.
- **Motion** (`Motion`, `Gripper`, `Leader`, `OperatorKeys`, `JogKeys`, `Joint`, `JointRuns`, `JointLimits`, `ServoBus`,
  `Robot`, `Safety`, `SafetyOutputs`, `GripperPresses`): the operator's key machine, the safety gateway, the jaw and arm
  controllers, their actuators and the servo bus. `GripperPresses` runs the host, the wire and the jaw controller
  together; `Robot` runs both controllers, both actuators and the bus together, beside a bus on which everything is
  written every tick.
- **Registry** (`RegistryRecord`, `RegistryServer`, `RegistrySteps`, `RegistryInvariant`, `RegistrySafety`,
  `RegistryTrace`, `RegistryFacts`, `RegistryLateStop`, `RegistryLogins`, `RegistryAuth`, `RegistryPending`,
  `RegistryFrames`, `RegistryRuns`, `RegistryReturns`, `RegistryEffects`): the asyncio server as a step machine, one
  event for each stretch of code between two awaits, with a lock per robot record and a position for every connection's
  handler. `RegistryEffects` says what uninterrupted exchanges bring about.
- **Codecs and streams** (`Bytes`, `Utf8`, `Payload`, `PayloadWire`, `WebSocket`, `WebSocketEnds`, `IceRooms`): the nine
  control messages, WebSocket frames between the two hand-written ends, and the ICE room server as a second step machine.

Floats are reals plus a NaN and an infinite case; ticks are integers; a double in a datagram is its 64-bit pattern.
Clocks, random masks, password matching and the order in which the server walks a dictionary are parameters.

## What the proofs found

Each comes with an input or a run that shows it, and with the exact condition.

- **A due stop is no longer cancelled by presence.** `_stale_stop` waits for the record's lock and then compares
  only the two sockets. While a frame is relayed under that lock, the sweep can find the stop due and a presence can
  make the record fresh; the stop is still sent (`RegistryLateStop.LatePresenceRun`). It goes ahead exactly when both
  sockets are unchanged (`RegistryTrace.DueStopGoesAhead`).
- **One username, two sockets.** The holder check is not repeated after the password is hashed
  (`RegistryLogins.TwoSocketsOneUsername`). A username stays on one socket exactly when every login finds it free at
  the moment the login is entered (`RegistryLogins.UsernamesStayUnique`). Holds are unique per socket always.
- **One connection, two robots.** `_drop` stops at the first record, so a connection that registered two IDs leaves
  a record naming its closed socket (`RegistryReturns.TwoRobotsOneConnection`). After a handler returns no record
  names its socket, then or later, exactly when only the record it was about to drop did
  (`RegistryReturns.GoneExactlyWhen`).
- **`send` can return another datagram's number.** It flushes both queues and returns the last number given out, so a
  control datagram sent while media waits is answered with the media's number (`MlinkQueues.SendCanReturnAnother`). It is
  the datagram's own number exactly when that is media or no media was waiting (`MlinkQueues.SendReturnsLastNumber`).
- **A positive jog can lower a goal.** It starts from the present position (`JointLimits.JogCanGoBack`); it keeps or
  raises the goal exactly when one clamped step from there reaches it (`JointRuns.JogGoesForward`).
- **New limits can strand a goal.** `set_limits` with a new valid range keeps an old goal outside it, and the
  controller goes on putting it out (`JointLimits.MovedLimitsStrandAGoal`). Every goal stays inside its limits through
  a run exactly when each change of limits leaves no goal outside (`JointLimits.GoalsStayInside`).
- **The jaw clamps its present position.** From a position outside its range the first goal can be further than a step
  away (`Gripper.JawStepsIntoRange`): exactly when clamping that position moves it further than a step
  (`Gripper.FirstGoalsAreClose`).
- **A reply's success byte is a flag.** Any byte above 1 is read as true and written back as 1, the one way in which a
  decoded control message does not encode to its own fields (`Payload.EncodeDecode`).

## Model

| member | source | states |
|---|---|---|
| MlinkHeader.DecodeEncode | mlink-transport/proto/header.py:82-146 | every packet the encoder accepts is read back, cut to its field widths, whatever bytes trail the datagram |
| MlinkHeader.DecodeAccepts | mlink-transport/proto/header.py:110-146 | exactly which byte strings decode: magic, version, length field at most 1440 and enough bytes |
| MlinkHeader.EncodeDecode | mlink-transport/proto/header.py:82-146 | a decoded packet of a known class encodes to the datagram it came from, padding zeroed |
| MlinkDedupe.DedupeWindow.Observe | mlink-transport/proto/dedupe.py:25-36 | one observation of the object: its verdict and its new window |
| MlinkDedupe.SameVerdicts | mlink-transport/proto/dedupe.py:18-36 | after any calls, the pruned window gives the verdict that a history forgetting nothing would give |
| MlinkDedupe.VerdictByDelivered | mlink-transport/proto/dedupe.py:18-36 | after any calls a number is late exactly when some delivered number is a window or more ahead, a duplicate exactly when it is not late and was delivered, and delivered otherwise |
| MlinkDedupe.DeliveredOnce | mlink-transport/proto/dedupe.py:25-36 | a number delivered once is never delivered again |
| MlinkDedupe.BoundedMemory | mlink-transport/proto/dedupe.py:25-36 | for non-negative numbers the set never exceeds twice the window less one |
| MlinkPath.Path.ObserveHeartbeat | mlink-transport/proto/path.py:65-81 | the bounded deque's loop equals the step on the path's value |
| MlinkPath.OutcomesAreTruth | mlink-transport/proto/path.py:65-81 | the deque is the last `loss_window` entries of the true received or missed vector over heartbeats 1 to n |
| MlinkPath.LossIsExact | mlink-transport/proto/path.py:47-57 | loss is zero until the window fills and then exactly the missed share of the last window |
| MlinkPath.OutcomesAreRecorded | mlink-transport/proto/path.py:65-81 | the same for any numbers off the wire, zero included: a first heartbeat that carries zero has an entry of its own |
| MlinkLoss.LossIsOfBeatsRead | mlink-transport/proto/session.py:133-171 | over every run of calls, a path's deque is the last `loss_window` entries recorded from this session's heartbeats and probes waiting on it at each poll, and from nothing else; its loss is the missed share of those and it is eligible exactly when it is up and that share is within the threshold |
| MlinkLoss.CopiesFollowLoss | mlink-transport/proto/session.py:196-211 | over every run, an event adds to the data copies sent on a path exactly the numbers it gives out, once each and in order, when the path is up and the loss of the heartbeats read on it is within the threshold; otherwise none |
| MlinkPath.RecoversAfterOneWindow | mlink-transport/proto/path.py:47-98 | `loss_window` consecutive heartbeats bring any history back to zero loss and eligibility |
| MlinkSession.Session.Emit | mlink-transport/proto/session.py:196-211 | one number per datagram and one copy on each eligible path, or a raise at the first encode |
| MlinkSession.Session.Flush | mlink-transport/proto/session.py:94-102 | the two queues are drained control first, in order, each datagram stamped with its own reading of the clock |
| MlinkSession.Session.Send | mlink-transport/proto/session.py:72-92 | refusals, the media drop and the returned number, for every queue state |
| MlinkSession.Session.Enqueue | mlink-transport/proto/session.py:104-115 | the queue it grows, the media it drops, and a raise exactly for a payload over the size |
| MlinkSession.Session.Tick | mlink-transport/proto/session.py:117-131 | every path's timeout, heartbeat and probe in one pass, each heartbeat stamped with its own reading of the clock |
| MlinkSession.Session.Poll | mlink-transport/proto/session.py:133-194 | sockets drained, frames accounted, copies grouped by number, first good copies delivered with their winners and classes |
| MlinkReads.PollAnswers | mlink-transport/proto/session.py:133-171 | path by path and from the inbox: emptied; up and heard now if a frame of the session was there; every heartbeat and probe answered in order by an echo of its number and stamp, nothing else sent; the round-trip time learned from the echoes in order |
| MlinkFirstCopy.PollTellsPaths | mlink-transport/proto/session.py:158-194 | each up path learns, for each number seen in the poll and in order, whether it brought a copy |
| MlinkFirstCopy.PollDeliversFirst | mlink-transport/proto/session.py:158-194 | what is delivered under a number is its first copy on the first path, in configuration order, on which one waits, credited to that path |
| MlinkFirstCopy.SeenInOrder | mlink-transport/proto/session.py:158-194 | the numbers of a poll are taken in the order in which they first come |
| MlinkReads.LearnedBetween | mlink-transport/proto/path.py:86-94 | the smoothed round-trip time stays between the bounds of its start and its samples, and is there once a sample was |
| MlinkReads.TickSendsBeats | mlink-transport/proto/session.py:117-131 | a tick sends on each path at most one frame, heartbeat or probe by whether the path is up and what is due, under the next number, and changes nothing else but whether the path is up |
| MlinkReads.EmitSendsCopies | mlink-transport/proto/session.py:196-211 | an emit sends the same payload, class, number and stamp once on each path that is up with its loss within the threshold, and leaves the others |
| MlinkQueues.DrainsControlFirst | mlink-transport/proto/session.py:94-102 | a drain takes all waiting control before any media, each queue in its order, under consecutive numbers; only an unencodable datagram stops it, and what was behind it still waits |
| MlinkQueues.SendReturnsLastNumber | mlink-transport/proto/session.py:72-92 | `send` returns the drain's last number, its own datagram's exactly when that is media or no media was waiting |
| MlinkQueues.SendCanReturnAnother | mlink-transport/proto/session.py:72-102 | a run of two calls in which it returns the number of the media that was waiting |
| MlinkQueues.QueuesConserve | mlink-transport/proto/session.py:72-115 | over every run and for each class, what a side's calls took in is what has got a number followed by what waits, in order; media never waits beyond its limit |
| MlinkDelivery.NeverTwiceNeverForged | mlink-transport/proto/session.py:133-211 | over every run of two sessions and the network: no number delivered twice, every delivery is what the peer emitted under that number, `delivered_by_path` sums to the deliveries |
| MlinkCleanPath.OneCleanPathSuffices | mlink-transport/proto/session.py:133-211 | if one path is eligible at every emit and its copies are polled before the sender is a window ahead, every emitted datagram is delivered exactly once, whatever the other paths do |
| MlinkCleanPath.DeliveredByThatPoll | mlink-transport/proto/session.py:133-194 | and it is delivered no later than the poll that reads that copy |
| MlinkTiming.UpWhileHeard | mlink-transport/proto/session.py:117-131 | after every tick a path is up exactly when it was heard less than the down timeout ago |
| MlinkReads.UpWhileFramesCome | mlink-transport/proto/session.py:117-159 | the same with the moment defined from the inboxes: the last poll that found a frame of the session waiting on the path |
| MlinkTiming.NoDataWhileDown | mlink-transport/proto/session.py:196-211 | from a down state no data copy leaves until a frame of the session is heard, over any calls |
| MlinkTiming.BeatsAreNumbered | mlink-transport/proto/session.py:213-227 | a path's heartbeats and probes carry 1, 2, 3, ... and `hb_seq` counts them |
| MlinkTiming.HeartbeatRate | mlink-transport/proto/session.py:117-131 | heartbeats within a span T number at most 1 + T / interval, probes likewise |
| MlinkTiming.TimesAreFrames | mlink-transport/proto/session.py:117-131 | over any run those times number exactly the heartbeat and probe frames sent on the path, which `hb_seq` counts |
| Gripper.GripperController.Tick | teleoperation-prototype/ros2_ws/src/teleop_demo/teleop_demo/gripper_control.py:126-160 | the controller's new state and output in every branch of a tick |
| Gripper.GripperController.TrackPosition | teleoperation-prototype/ros2_ws/src/teleop_demo/teleop_demo/gripper_control.py:162-173 | one bounded, clamped step towards a jaw fraction |
| Gripper.TokenMovesGoal | teleoperation-prototype/ros2_ws/src/teleop_demo/teleop_demo/gripper_control.py:80-160 | a new token moves the goal exactly one step: up at 0.75 and above, down at 0.25 and below, from the last goal or the present position, stopping at the end of the range; between them no goal is set or moved |
| Gripper.OldTokenMovesNothing | teleoperation-prototype/ros2_ws/src/teleop_demo/teleop_demo/gripper_control.py:135-160 | a token seen before, or the first after a deadman, moves no goal |
| Gripper.OutputIsGoal | teleoperation-prototype/ros2_ws/src/teleop_demo/teleop_demo/gripper_control.py:126-191 | over every run what a live tick puts out is the goal, and without one something all the same |
| Gripper.JawLiveExactly | teleoperation-prototype/ros2_ws/src/teleop_demo/teleop_demo/gripper_control.py:193-209 | after every run, from the events alone: a tick is live, with torque, exactly when the last float came within the timeout and is a number and the last state told was OK and CONNECTED; otherwise no goal is asked for or kept |
| Gripper.LeaderArrives | teleoperation-prototype/ros2_ws/src/teleop_demo/teleop_demo/gripper_control.py:162-173 | for a constant fraction on a live link the goal reaches the mapped opening in ceil(distance / max_delta) ticks, without overshoot, and stays; the distance is from the goal, or from the present position at the first tick when there is none |
| Gripper.JawTickIsSound | teleoperation-prototype/ros2_ws/src/teleop_demo/teleop_demo/gripper_control.py:126-191 | goal and output stay in range and a goal there was moves at most one step |
| Gripper.FirstGoalsAreClose | teleoperation-prototype/ros2_ws/src/teleop_demo/teleop_demo/gripper_control.py:143-173 | in every run, a first goal is within one step of the present position exactly when clamping that position moves it at most one step |
| Gripper.JawStepsIntoRange | teleoperation-prototype/ros2_ws/src/teleop_demo/teleop_demo/gripper_control.py:162-173 | a run from the constructor whose first goal is more than one step from the present position |
| Leader.GripperEncodingIsFraction | packaging/operator_app/leader.py:79-97 | every finite jaw encoding is read as a fraction, lies in [0, 1] and is within 0.0021 of what was asked |
| Leader.GripperHoldsOnlyOnBadReading | packaging/operator_app/leader.py:79-97 | a keyboard token is sent exactly for a reading that is not a number |
| OperatorKeys.OperatorHost.ApplyKey | packaging/operator_app/host.py:242-310 | the jaw and joint fields after any key, down or up |
| OperatorKeys.OperatorHost.ReleaseGripperKey | packaging/operator_app/host.py:318-326 | a keyup holds now, or after the next send if a press waits |
| OperatorKeys.OperatorHost.NoteGripperSent | packaging/operator_app/host.py:328-339 | what a send settles, and the hold it may queue |
| OperatorKeys.OperatorHost.EmitCommand | packaging/operator_app/host.py:443-480 | the jaw float and five joint floats sent, in both input modes |
| OperatorKeys.OperatorHost.JointCommand | packaging/operator_app/host.py:482-501 | the five joint floats: keys, encoded leader fractions, or holds |
| OperatorKeys.OperatorHost.End | packaging/operator_app/host.py:520-541 | a session's last packet holds the joints and keeps the jaw float |
| OperatorKeys.OperatorHost.Begin | packaging/operator_app/host.py:503-518 | a new session starts from holds |
| JogKeys.EmitsShowHeldKey | packaging/operator_app/host.py:242-310 | over every run, in a keyboard session the five joint floats sent read at the robot as the jog of the key that went down last and is still held, for its joint and its way, and as holds otherwise |
| JogKeys.EmitsShowLeader | packaging/operator_app/host.py:482-501 | in a leader's session each joint float sent is a fraction near the reading, or a hold without a good one |
| JogKeys.EmitsShowLastPress | packaging/operator_app/host.py:256-339 | over every run, the jaw float sent is a token of the last press, its way, until that press has been sent and its key has come up, and hold before any press and from then on |
| JogKeys.KeyTable | packaging/operator_app/keys.py:38-77 | which key jogs the pan, the lift and the elbow, and which way |
| JogKeys.MoreKeys | packaging/operator_app/keys.py:38-77 | and the wrist's two joints, and which keys open, close and stop |
| GripperPresses.AtMostOneStepPerPress | packaging/operator_app/host.py:256-339 | over any keys, emits, sessions and any lossy, repeating, in-order delivery, the robot's steps with their directions are a subsequence of the presses, and so are the directions in which its goal itself moves at ticks that read a keyboard float |
| GripperPresses.ExactlyOneStepPerPress | teleoperation-prototype/ros2_ws/src/teleop_demo/teleop_demo/gripper_control.py:126-160 | when every emitted float is sampled, each press is emitted before the next and the robot stays live, the steps are exactly the presses, in order; and so are the goal's moves when it has a step's room on both sides |
| Joint.JointArmController.SetLimits | teleoperation-prototype/ros2_ws/src/teleop_demo/teleop_demo/joint_control.py:131-142 | refused outside the five joints; an unknown or empty range clears the joint, a new one keeps its goal |
| Joint.JointArmController.OnCommand | teleoperation-prototype/ros2_ws/src/teleop_demo/teleop_demo/joint_control.py:147-154 | a new generation, and hold for values that are missing |
| Joint.JointArmController.Tick | teleoperation-prototype/ros2_ws/src/teleop_demo/teleop_demo/joint_control.py:161-173 | all five joints stepped, or all released in deadman, and the goals put out |
| Joint.JointArmController.StepOne | teleoperation-prototype/ros2_ws/src/teleop_demo/teleop_demo/joint_control.py:175-210 | one joint's hold, jog or track, and no other joint touched |
| Joint.JointArmController.DeadmanReason | teleoperation-prototype/ros2_ws/src/teleop_demo/teleop_demo/joint_control.py:256-269 | the first reason in the source's order, with the loop over the five values |
| JointRuns.GoalsStaySafe | teleoperation-prototype/ros2_ws/src/teleop_demo/teleop_demo/joint_control.py:161-238 | over every run with fixed limits: output is goal, the goal is inside the limits and within one step of the goal before; a first goal is made only from a present position inside the limits, and is within one step of it |
| JointLimits.LimitsFollowCalls | teleoperation-prototype/ros2_ws/src/teleop_demo/teleop_demo/joint_control.py:131-142 | over every run each joint's limits are the last range set for it, none when that was unknown or empty, and nothing else changes them |
| JointLimits.GoalsStayInside | teleoperation-prototype/ros2_ws/src/teleop_demo/teleop_demo/joint_control.py:131-254 | over every run of a new controller, limits set at any time: every goal is always inside its limits and put out exactly when each change of limits leaves no goal outside |
| JointLimits.ArmLiveExactly | teleoperation-prototype/ros2_ws/src/teleop_demo/teleop_demo/joint_control.py:240-269 | after every run, limits set at any time, from the calls alone: a tick is live exactly when the last command came within the timeout and its five values are numbers and the last state told was OK and CONNECTED; otherwise every torque is off and every goal dropped |
| JointLimits.MovedLimitsStrandAGoal | teleoperation-prototype/ros2_ws/src/teleop_demo/teleop_demo/joint_control.py:131-142 | a run from the constructor after which a live tick puts out a goal outside the limits |
| JointRuns.JogConservation | teleoperation-prototype/ros2_ws/src/teleop_demo/teleop_demo/joint_control.py:193-210 | n commands of jogs and holds move a goal at most n steps, plus one if a command was still to be stepped for, however many ticks run |
| JointRuns.JogGoesForward | teleoperation-prototype/ros2_ws/src/teleop_demo/teleop_demo/joint_control.py:193-210 | for every present position, known or not: a live tick keeps the goal or moves it the jog's way exactly when there is nothing to step from, the command was stepped for already, or one clamped step from the present position reaches the goal |
| JointRuns.JogGoesNearest | teleoperation-prototype/ros2_ws/src/teleop_demo/teleop_demo/joint_control.py:193-210 | a jog aims one step its way from the present position, within the limits, and puts the goal as near to that as one step from the last goal allows; the command is then spent |
| JointRuns.OthersKeepGoal | teleoperation-prototype/ros2_ws/src/teleop_demo/teleop_demo/joint_control.py:175-222 | a jog stepped for already, a float that is neither token nor fraction and a hold leave the goal; a hold without one takes the present position; without limits there is none |
| JointRuns.DeadmanForgetsStep | teleoperation-prototype/ros2_ws/src/teleop_demo/teleop_demo/joint_control.py:161-173 | a deadman tick drops the goals and forgets which command was stepped for |
| JointLimits.JogCanGoBack | teleoperation-prototype/ros2_ws/src/teleop_demo/teleop_demo/joint_control.py:201-210 | a run from the constructor in which a positive jog lowers the goal by a whole step |
| JointRuns.JointEncodingIsFraction | packaging/operator_app/leader.py:69-76 | every finite joint encoding is read as a fraction, never a jog or a hold, and is close to what was asked |
| JointRuns.JointHoldsOnlyOnBadReading | packaging/operator_app/leader.py:69-76 | a token is sent exactly for a reading that is not a number |
| JointRuns.JointArrives | teleoperation-prototype/ros2_ws/src/teleop_demo/teleop_demo/joint_control.py:217-238 | a constant fraction brings a joint to its mapped target in ceil(distance / max_delta) live ticks without overshoot, and it stays; distance and ticks count from the goal, or from the first present position inside the limits when there is none |
| ServoBus.Bus.WriteTorqueEnable | teleoperation-prototype/ros2_ws/src/teleop_demo/teleop_demo/feetech_bus.py:345-351 | one torque register, or refused for an id outside 1 to 6 |
| ServoBus.Bus.WriteGoalPosition | teleoperation-prototype/ros2_ws/src/teleop_demo/teleop_demo/feetech_bus.py:286-293 | the goal register clamped to 0..4095, the servo at its goal when torque is on, and the write logged |
| ServoBus.GripperActuator.Apply | teleoperation-prototype/ros2_ws/src/teleop_demo/teleop_demo/gripper_control.py:220-234 | the shadow and the registers after any output |
| ServoBus.JointActuator.Apply | teleoperation-prototype/ros2_ws/src/teleop_demo/teleop_demo/joint_control.py:281-290 | deadman releases every servo written so far; live applies the joints in order |
| ServoBus.JointActuator.ApplyOne | teleoperation-prototype/ros2_ws/src/teleop_demo/teleop_demo/joint_control.py:292-311 | one joint's torque, guard and goal |
| Robot.ShadowsAreFaithful | teleoperation-prototype/ros2_ws/src/teleop_demo/teleop_demo/joint_control.py:281-311 | from a torque-off bus, over every run of both controllers, the guarded, write-skipping actuators leave the registers that writing every output in full each tick would leave |
| Robot.GuardNeverRejects | teleoperation-prototype/ros2_ws/src/teleop_demo/teleop_demo/joint_control.py:90-104 | in every reachable state the one-step guard accepts every goal of the next tick |
| Robot.RegistersHoldTheGoals | teleoperation-prototype/ros2_ws/src/teleop_demo/teleop_demo/joint_control.py:305-311 | a joint with a goal has torque on, and its goal register and its servo are at that goal when the limits are inside 0..4095 |
| Robot.GoalWritesAreSafe | teleoperation-prototype/ros2_ws/src/teleop_demo/teleop_demo/joint_control.py:281-311 | no goal is written on a deadman tick; every live write is the controller's goal inside its range, and for an arm servo within one step |
| Robot.DeadmanLetsGo | teleoperation-prototype/ros2_ws/src/teleop_demo/teleop_demo/joint_control.py:281-290 | after any deadman tick every arm servo's torque is off and its position registers are untouched |
| Robot.DeadmanLetsJawGo | teleoperation-prototype/ros2_ws/src/teleop_demo/teleop_demo/gripper_control.py:220-234 | the same for the jaw's servo |
| Robot.SilenceLetsGo | teleoperation-prototype/ros2_ws/src/teleop_demo/teleop_demo/joint_control.py:256-290 | over every run: when no arm command came within the timeout, the tick turns every arm torque off and moves no servo; likewise the jaw when no jaw float came in time |
| Robot.GuardStopsFarGoals | teleoperation-prototype/ros2_ws/src/teleop_demo/teleop_demo/joint_control.py:292-311 | asked for any goal by any caller, the actuator writes one only within a step of the present position given or of the goal it last accepted, and refuses any other without touching the bus |
| Safety.SafetyController.OnCommand | teleoperation-prototype/ros2_ws/src/teleop_demo/teleop_demo/safety.py:106-140 | state, disposition and transitions for every command, NaN and infinities included |
| Safety.SafetyController.Tick | teleoperation-prototype/ros2_ws/src/teleop_demo/teleop_demo/safety.py:142-178 | state, twist and transitions of every tick |
| Safety.SafetyController.RegisterKeepAlive | teleoperation-prototype/ros2_ws/src/teleop_demo/teleop_demo/safety.py:180-194 | the first connection and the restored one |
| Safety.TickPublishes | teleoperation-prototype/ros2_ws/src/teleop_demo/teleop_demo/safety.py:142-178 | the twist a tick publishes is a function of the event history alone: the last command obeyed since the last trip, limited, while it and the keep-alive are recent; watchdog OK exactly when connected |
| Safety.NoReplayAfterTrip | teleoperation-prototype/ros2_ws/src/teleop_demo/teleop_demo/safety.py:103-194 | a nonzero twist means CONNECTED, a recent keep-alive, and a recent command accepted with no trip since, of which it is the limited value |
| Safety.LimitedIsWithin | teleoperation-prototype/ros2_ws/src/teleop_demo/teleop_demo/commands.py:99-127 | one limited rate is within its limit and unchanged exactly when it already was |
| SafetyOutputs.PublishesByAxis | teleoperation-prototype/ros2_ws/src/teleop_demo/teleop_demo/commands.py:99-127 | after every run the published twist is, axis by axis, the current command's same axis when that is within its own limit and the nearer bound otherwise, linear and angular apart; without a current command it stands still |
| SafetyOutputs.CommandAnswers | teleoperation-prototype/ros2_ws/src/teleop_demo/teleop_demo/safety.py:106-140 | after every run: rejected for a value that is not a number, held without a keep-alive where only heartbeats count, accepted exactly when all six axes were within their limits, clamped otherwise |
| SafetyOutputs.OutputCarries | teleoperation-prototype/ros2_ws/src/teleop_demo/teleop_demo/safety.py:142-178 | after every run a tick puts out the jaw of the last accepted command within its range, the last frame named, and the last answer unless the watchdog tripped since |
| SafetyOutputs.TicksReport | teleoperation-prototype/ros2_ws/src/teleop_demo/teleop_demo/safety.py:142-178 | a tick's transitions are the link's changes, in order; a safe stop is reported at the first tick and at a trip and at no other |
| SafetyOutputs.CommandReports | teleoperation-prototype/ros2_ws/src/teleop_demo/teleop_demo/safety.py:106-140 | a command's transitions are the link's changes, in order, and never a safe stop |
| SafetyOutputs.LinkFollowsEvents | teleoperation-prototype/ros2_ws/src/teleop_demo/teleop_demo/safety.py:103-194 | the link after every run: timed out without a keep-alive since the last trip, restored after a trip until a command is obeyed, connected otherwise; the watchdog is OK exactly when connected |
| Safety.JawNeedsConnection | teleoperation-prototype/ros2_ws/src/teleop_demo/teleop_demo/gripper_control.py:196-209 | a jaw controller told the gateway's states is live only when the gateway is connected |
| RegistryRecord.LabelsAgree | packaging/registry/store.py:110-158 | a robot's class and its label agree, and it is shown offline exactly when an attach would be refused as offline |
| RegistryRecord.LabelMeans | packaging/registry/store.py:133-158 | the exact condition for each of the eight labels |
| RegistryRecord.PresenceIsFresh | packaging/registry/session.py:403-463 | a presence always clears the stale mark and the deadline |
| RegistryServer.Registry.HeldRecord | packaging/registry/session.py:767-771 | null exactly when no registered record names the socket, otherwise one that does |
| RegistryServer.Registry.PendingCount | packaging/registry/session.py:946-947 | the number of registered records not approved |
| RegistryServer.Registry.AttachLocked | packaging/registry/session.py:675-692 | the code an attach gets under the lock, and the hold it takes only then, under the name read before the wait |
| RegistryFacts.AttachExactly | packaging/registry/session.py:645-692 | the exact condition for an attach to succeed, to be pending, offline or busy |
| RegistryFacts.UnapprovedAttachDoesNothing | packaging/registry/session.py:655-677 | an attach to a record that is not approved is told pending and changes nothing, before the lock and under it |
| RegistryEffects.AttachTakesHold | packaging/registry/session.py:645-714 | an attach to an approved, free, fresh robot by a socket that holds none has it when its two stretches are over, under the login name |
| RegistryEffects.HolderReachesRobot | packaging/registry/session.py:521-550 | a holder's frame reaches the robot under the lock, which is free again afterwards, and a start is pending from then on |
| RegistryEffects.RobotReachesHolder | packaging/registry/session.py:521-550 | a robot's frame reaches the holder, and a status it carries is the record's phase afterwards |
| RegistryEffects.ReleaseGivesBack | packaging/registry/session.py:716-760 | a release ends the hold and its start and deadline, and nothing else of the record |
| RegistryEffects.SignOutGivesBack | packaging/registry/session.py:722-760 | a sign-out ends the hold and then the login |
| RegistryEffects.ClosingGivesBack | packaging/registry/session.py:560-571 | a logged-in holder's closed connection ends the login at once and the hold when its stretch is over |
| RegistryEffects.RobotClosing | packaging/registry/session.py:572-604 | a robot's closed connection takes both sockets off its record |
| RegistryEffects.TokenTakesRecord | packaging/registry/session.py:276-401 | a known robot that shows its token takes its record over and is its session |
| RegistryServer.Registry.ForwardLocked | packaging/registry/session.py:521-547 | the peer a frame goes to, only for the robot's own socket or the holder, and the start flag |
| RegistryServer.Registry.DropLocked | packaging/registry/session.py:577-604 | what a closed socket clears, and whom to tell |
| RegistryServer.Registry.ReleaseLocked | packaging/registry/session.py:734-760 | a hold ends only for its own socket |
| RegistryServer.Registry.SweepRobot | packaging/registry/session.py:889-924 | the sweep's new marks, and whether a notice or a due stop follows |
| RegistryServer.Registry.StaleStopLocked | packaging/registry/session.py:926-944 | the stop is sent exactly when both sockets are the ones seen |
| RegistryServer.Registry.ForgetRobot | packaging/registry/session.py:866-887 | a record whose row is gone leaves the dictionary with its sockets and hold cleared |
| RegistryServer.Registry.Logout | packaging/registry/session.py:560-571 | the login dictionaries without the socket, and without its password hash when nobody is logged in under the name |
| RegistrySafety.RunInv | packaging/registry/session.py:189-944 | the whole invariant, kept by every stretch of every handler and of the maintenance task, in every interleaving |
| RegistrySafety.AlwaysPaired | packaging/registry/session.py:521-604 | a held robot has a robot socket and is approved; `start_in_progress` implies held; a stale deadline implies held and the stale mark |
| RegistrySafety.HoldsAtMostOne | packaging/registry/session.py:645-714 | an operator socket holds at most one registered robot |
| RegistrySafety.RelayedPairIsPinned | packaging/registry/session.py:521-550 | while a frame is being relayed its sender and receiver are the record's pair, unless the record was forgotten |
| RegistrySafety.NothingHeldAfterReturn | packaging/registry/session.py:560-604 | when an operator's handler has returned no registered record names its socket |
| RegistryTrace.RunTrace | packaging/registry/session.py:189-944 | every record's sockets and deadline are what the trace of attaches, detaches, notices and cancels says |
| RegistryFacts.RunFacts | packaging/registry/session.py:189-944 | over every run each record is approved, held by name, in a phase, stamped, starting and noticed exactly as the trace says |
| RegistryFacts.UnapprovedIsFree | packaging/registry/session.py:630-677 | over every run a record is approved exactly when its row was or an operator approved it, and until then nobody holds it |
| RegistryFacts.AttachesAreApproved | packaging/registry/session.py:645-692 | every event of every run that logs an attach finds the record approved, and leaves it held by that socket under that name |
| RegistryFacts.StartIsPending | packaging/registry/session.py:521-550 | a start is pending exactly when one was relayed to the record's robot with no detach and no ready, stopped or error status since |
| RegistryFacts.SweepIsDecided | packaging/registry/session.py:889-924 | what a sweep decides follows from the trace: a notice for a stale holder not told yet, a due stop when the last notice stands and the wait has passed |
| RegistryTrace.CommandsOnlyFromHolder | packaging/registry/session.py:521-550 | every relayed config, start or stop goes to the record's robot from a socket that attached to it with no detach since |
| RegistryAuth.OnlyMatchedGetIn | packaging/registry/session.py:276-517 | over every run a logged-in socket and every record's holder matched a password on their connection, and a record's robot socket matched its token or registered it |
| RegistryPending.PendingIsCapped | packaging/registry/session.py:316-358 | over every run never more robots wait for approval than 500, or than were loaded waiting |
| RegistryFrames.OnlyGoneRowsAreForgotten | packaging/registry/session.py:855-887 | a robot leaves the register only when its row is gone |
| RegistryTrace.StopIsDueOnlyAfterNotice | packaging/registry/session.py:889-924 | a stop falls due only for a held record whose holder was sent `stale` at least the wait earlier, with no presence, stopped status, new socket, fresh sweep or detach since |
| RegistryTrace.OwnStopWasDue | packaging/registry/session.py:926-944 | every stop the registry sends was found due before, for the same robot socket and the same holder |
| RegistryTrace.DueStopGoesAhead | packaging/registry/session.py:929-933 | once due, it is sent exactly when both sockets are unchanged |
| RegistryLateStop.LatePresenceDoesNotCancel | packaging/registry/session.py:926-944 | a presence in the wait for the lock makes the record fresh and leaves the stop as due as before |
| RegistryLateStop.LatePresenceRun | packaging/registry/session.py:889-944 | a run from the loaded database: due while a relay holds the lock, then a presence, then the stop is sent |
| RegistryReturns.GoneExactlyWhen | packaging/registry/session.py:560-604 | over every run, from the step on which a handler returns no registered record ever names its socket, exactly when before that step only the record it was about to drop did |
| RegistryReturns.RobotGoneAfterReturn | packaging/registry/session.py:572-604 | so it is for every connection when each registers one ID |
| RegistryReturns.TwoRobotsOneConnection | packaging/registry/session.py:572-575 | a run in which a connection with two IDs leaves one behind |
| RegistryLogins.UsernamesStayUnique | packaging/registry/session.py:477-517 | over every run, each username is on at most one socket throughout exactly when every login finds its name free in the dictionary at the moment it is entered |
| RegistryLogins.TwoSocketsOneUsername | packaging/registry/session.py:477-517 | a run in which two sockets are logged in under one username |
| RegistryLogins.DictionaryAgrees | packaging/registry/session.py:560-571 | the socket the dictionary gives for a username is logged in under it |
| RegistryLogins.LoggedOutAtReturn | packaging/registry/session.py:560-571 | from the moment a handler drops its connection nobody is logged in on its socket |
| RegistryLogins.SigningOutLogsOut | packaging/registry/session.py:722-732 | a sign-out ends the socket's login and every way to it |
| RegistryLogins.DisablingLogsOut | packaging/registry/session.py:837-853 | a disabled account's login ends whether or not its socket holds a robot, and its hold is next to be released |
| RegistryLogins.SupersededOnlyCloses | packaging/registry/session.py:235-254 | the next frame of a connection whose record has another socket, or is gone, only closes it |
| RegistryLogins.MatchCountsForItsSecret | packaging/registry/session.py:276-314 | a matched token counts only while the record under the ID still has the secret it was checked against |
| RegistryLogins.SessionIsOwn | packaging/registry/session.py:360-401 | a socket becomes its record's session only if it is still the record's when the lock is taken again |
| WebSocket.ServerReadsClient | teleoperation-prototype/ros2_ws/src/teleop_demo/teleop_demo/wsproto.py:123-139 | the server reads a client's masked frame back, and leaves what follows, exactly when its payload is at most 65536 bytes |
| WebSocket.ClientReadsServer | teleoperation-prototype/scripts/console_ws.py:109-123 | the client reads a server's frame back, in all three length forms |
| WebSocket.ServerFrameBytes | teleoperation-prototype/ros2_ws/src/teleop_demo/teleop_demo/wsproto.py:101-112 | a server frame byte by byte: final bit with opcode, the shortest length form, most significant byte first, the payload as it is (section 5.2 of RFC 6455) |
| WebSocket.ClientFrameBytes | teleoperation-prototype/scripts/console_ws.py:83-94 | a client frame byte by byte: mask bit, length form, four mask bytes, each payload byte's bits combined with its mask byte's (section 5.3 of RFC 6455) |
| WebSocket.ServerAccepts | teleoperation-prototype/ros2_ws/src/teleop_demo/teleop_demo/wsproto.py:123-139 | what the server takes for a frame is final, masked and of at most 65536 bytes |
| WebSocketEnds.ServerReadsAll | teleoperation-prototype/ros2_ws/src/teleop_demo/teleop_demo/wsproto.py:114-139 | from any list of frames the server reads exactly those, in order |
| WebSocketEnds.ClientReadsAll | teleoperation-prototype/scripts/console_ws.py:96-123 | from any list of frames the client reads exactly those, in order |
| WebSocketEnds.ServerServesFrames | teleoperation-prototype/ros2_ws/src/teleop_demo/teleop_demo/wsproto.py:71-99 | over the client's bytes the server's message loop finds the first text object, answers the pings and the close before it, and stops where the frames say |
| WebSocketEnds.WsConnection.RecvExact | teleoperation-prototype/ros2_ws/src/teleop_demo/teleop_demo/wsproto.py:114-121 | exactly the next bytes, however the socket splits them |
| WebSocketEnds.WsConnection.ReadFrame | teleoperation-prototype/ros2_ws/src/teleop_demo/teleop_demo/wsproto.py:123-139 | the next frame of the byte stream, however it is split, or closed |
| WebSocketEnds.WsConnection.SendFrame | teleoperation-prototype/ros2_ws/src/teleop_demo/teleop_demo/wsproto.py:101-112 | the frame's bytes, refused on a closed connection but for a close |
| WebSocketEnds.WsConnection.ReadJson | teleoperation-prototype/ros2_ws/src/teleop_demo/teleop_demo/wsproto.py:71-99 | the next text object, the replies sent and the connection's end, as the stream determines them |
| WebSocketEnds.WsClient.Take | teleoperation-prototype/scripts/console_ws.py:96-107 | the next bytes of buffer and socket together, the rest kept |
| WebSocketEnds.WsClient.ReadFrame | teleoperation-prototype/scripts/console_ws.py:109-123 | the next frame of the byte stream, however it is split, or closed |
| WebSocketEnds.WsClient.SendFrame | teleoperation-prototype/scripts/console_ws.py:83-94 | the masked frame's bytes |
| Payload.EncodesInRange | teleoperation-prototype/ros2_ws/src/teleop_demo/teleop_demo/mlink_payload.py:195-298 | a message is encoded exactly when its fields are in range, and then in at most 1348 bytes, so the 1440 cap stops none |
| Payload.DecodeEncode | teleoperation-prototype/ros2_ws/src/teleop_demo/teleop_demo/mlink_payload.py:318-495 | all nine messages decode to what was encoded, whatever bytes follow |
| Payload.EncodeDecode | teleoperation-prototype/ros2_ws/src/teleop_demo/teleop_demo/mlink_payload.py:318-495 | whatever decodes is in range and of the datagram's type, and encodes to the datagram's body, up to what follows its last field, exactly when it is not a reply with a success byte above 1, which comes back as 1 |
| Payload.DecodeNeeds | teleoperation-prototype/ros2_ws/src/teleop_demo/teleop_demo/mlink_payload.py:318-349 | what decodes has version 1, a known type, and its announced body present and within the 1440 cap |
| PayloadWire.WireBytes | teleoperation-prototype/ros2_ws/src/teleop_demo/teleop_demo/mlink_payload.py:195-298 | the bytes of each of the nine messages: version, type, body length, then every field little endian in its place and each string behind its length |
| PayloadWire.CommandOffsets | teleoperation-prototype/ros2_ws/src/teleop_demo/teleop_demo/mlink_payload.py:195-210 | the offset of each field of a command frame |
| Payload.NestsInMlink | mlink-transport/proto/header.py:82-146 | a control message nests in an mlink frame and comes back out of it |
| Payload.EncodeCommand | teleoperation-prototype/ros2_ws/src/teleop_demo/teleop_demo/mlink_payload.py:195-210 | the growing body gives the frame, or a raise, that the field list gives |
| Payload.EncodeState | teleoperation-prototype/ros2_ws/src/teleop_demo/teleop_demo/mlink_payload.py:234-247 | the same for fixed fields, five strings and the twist |
| Utf8.DecodeEncode | teleoperation-prototype/ros2_ws/src/teleop_demo/teleop_demo/mlink_payload.py:358-378 | strict UTF-8 decodes what it encodes |
| Utf8.EncodeDecode | teleoperation-prototype/ros2_ws/src/teleop_demo/teleop_demo/mlink_payload.py:366-378 | and only that: each decodable byte string is the encoding of its text |
| Utf8.ScalarBytes | teleoperation-prototype/ros2_ws/src/teleop_demo/teleop_demo/mlink_payload.py:358-378 | the four forms: which code points take how many bytes and how those spell the number (section 3 of RFC 3629) |
| IceRooms.Hub.Join | turn/signalling/server.py:179-199 | who is refused and why, and the room a socket joins |
| IceRooms.Hub.Leave | turn/signalling/server.py:201-206 | a member leaves, and an empty room with it |
| IceRooms.JoinsExactly | turn/signalling/server.py:179-199 | in every interleaving: exactly which joins are refused, and what the others change |
| IceRooms.LeavesItsRoom | turn/signalling/server.py:201-206 | over every run a member that leaves is in no room, and its room is unregistered exactly when that empties it |
| IceRooms.CandidatesAreKept | turn/signalling/server.py:112-177 | good candidates become the member's latest and go to the other member if there is one; bad ones change nothing |
| IceRooms.RegisteredRooms | turn/signalling/server.py:179-206 | every registered room has one or two members with different roles, in every interleaving |
| IceRooms.InOneRoom | turn/signalling/server.py:135-206 | each socket is in at most one room |
| IceRooms.LatestCandidatesSent | turn/signalling/server.py:135-169 | whenever no join is being answered, the last candidates each member was sent are its current peer's latest |

## Left out

- MlinkDelivery.NeverTwiceNeverForged: assumes fewer than 2^32 datagrams per session object and one session object per side, because the number is masked on the wire and a restarted sender looks late.
- Sockets, serial ports, termios, SO_BINDTODEVICE, aioice, TURN, HTTP, Qt, ROS nodes, subprocesses and sqlite calls. The in-memory network's loss functions are an adversary that may drop, repeat or delay any frame.
- A session's later readings of the clock within one call are arbitrary: a run's waits do not bound them. A path's socket is its inbox and its list of sent frames.
- Floating-point rounding: token bands, fractions, loss and round-trip smoothing are computed over the reals.
- The operator host's motion label, stamps, sequence numbers, threads and locks: each locked section is one step. The Cartesian twist it sends is always zero for the keys modelled.
- The leader reader and its serial bus, and the reading of a jaw fraction from leader positions.
- Bus errors: a servo that does not answer raises in the source and ends the tick. The packet encoding below the registers is not modelled.
- The registry's password hashing and lockout counters: whether a password matches is a parameter. Hostname, location, mode and the database columns that mirror them, and the fleet snapshots.
- Registry frames are recorded when they are decided; a later send of the same stretch is not a separate step. Lock waiters are served in any order.
- An error while a registry handler is already dropping its socket is not modelled.
- JSON text, and in the ICE server the values inside a candidate.
- WebSocket handshakes, and frames of 2^64 bytes or more.
- console.py, window.py, the duplicate copies of the payload and WebSocket modules in the operator app, the kinematics, configuration and YAML parsing, NAT classification, delivery counters and the link gate: easy members, or driven by a user interface.
