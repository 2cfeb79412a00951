/** The three-band baseline controller of fuzzy.py, used for comparison
    with the fuzzy controller: the angle is a step function of
    `right - left`. */
module Baseline {
  import opened Membership
  import Steering

  /** The baseline steering angle for the two side readings. */
  function SimpleControl(left: real, right: real): (angle: int)
    ensures angle in {-20, -10, 0, 10, 20}
  {
    var diff := right - left;
    if Abs(diff) < 2.0 then 0
    else if diff > 0.0 then
      (if diff > 17.0 then 20 else 10)
    else
      (if diff < -17.0 then -20 else -10)
  }

  /** Each band of `|right - left|` gives one magnitude, and the sign of the
      angle is that of `right - left`: the car turns toward the farther side. */
  lemma SimpleControlBands(left: real, right: real)
    ensures SimpleControl(left, right) == 0 <==> Abs(right - left) < 2.0
    ensures 2.0 <= Abs(right - left) <= 17.0 ==>
      SimpleControl(left, right) == (if right > left then 10 else -10)
    ensures Abs(right - left) > 17.0 ==>
      SimpleControl(left, right) == (if right > left then 20 else -20)
    ensures SimpleControl(left, right) > 0 ==> left < right
    ensures SimpleControl(left, right) < 0 ==> right < left
  {
  }

  /** Swapping the two side readings negates the baseline angle. */
  lemma SimpleControlAntisymmetric(left: real, right: real)
    ensures SimpleControl(right, left) == -SimpleControl(left, right)
  {
  }

  /** Whenever the baseline controller turns, the fuzzy controller turns the
      same way, whatever the distance ahead. */
  lemma BaselineAgreesWithFuzzy(front: real, left: real, right: real)
    ensures SimpleControl(left, right) > 0 ==> Steering.FuzzySteering(front, left, right) > 0.0
    ensures SimpleControl(left, right) < 0 ==> Steering.FuzzySteering(front, left, right) < 0.0
  {
    SimpleControlBands(left, right);
    Steering.SteeringSign(front, left, right);
  }
}
