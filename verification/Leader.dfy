/** What the operator sends for a leader arm: fractions that can never be taken for a key. */
module Leader {
  import opened Motion
  import opened Gripper

  const TOKEN_NUDGE := 0.002
  const JOINT_HOLD := 0.5

  /** A jaw fraction moved just off any of the five keyboard floats. Non-finite holds. */
  function EncodeGripperFraction(fraction: Float): real {
    if !fraction.Finite? then 0.5
    else
      var value := ClampReal(fraction.r, 0.0, 1.0);
      if Near(value, 0.0) then TOKEN_NUDGE
      else if Near(value, 0.25) then 0.25 + TOKEN_NUDGE
      else if Near(value, 0.5) then 0.5 - TOKEN_NUDGE
      else if Near(value, 0.75) then 0.75 - TOKEN_NUDGE
      else if Near(value, 1.0) then 1.0 - TOKEN_NUDGE
      else value
  }

  function EncodeJointFraction(fraction: Float): real {
    if !fraction.Finite? then JOINT_HOLD
    else
      var value := ClampReal(fraction.r, 0.0, 1.0);
      if Near(value, JOINT_HOLD) then JOINT_HOLD - TOKEN_NUDGE else value
  }

  /** Read as a fraction by the robot, and within 0.0021 of the fraction asked for. */
  lemma GripperEncodingIsFraction(fraction: Float)
    requires fraction.Finite?
    ensures var sent := EncodeGripperFraction(fraction);
            && !IsKeyboardGripper(sent) && 0.0 <= sent <= 1.0
            && AbsReal(sent - ClampReal(fraction.r, 0.0, 1.0)) <= 0.0021
  {
  }

  /** Only a reading that is not a number is sent as a hold. */
  lemma GripperHoldsOnlyOnBadReading(fraction: Float)
    ensures IsKeyboardGripper(EncodeGripperFraction(fraction)) <==> !fraction.Finite?
  {
    if fraction.Finite? {
      GripperEncodingIsFraction(fraction);
    }
  }
}
