/** The fuzzy steering pipeline of fuzzy.py: fuzzify the front distance and
    the difference `left - right`, fire the nine rules, defuzzify.
    A positive angle turns right, a negative one turns left. */
module Steering {
  import opened Membership
  import opened Rules
  import opened Defuzzifier

  /** The nine rules fired for one sensor reading; every strength is a
      degree in [0, 1]. */
  function FiredRules(front: real, left: real, right: real): (rs: seq<Rule>)
    ensures |rs| == 9
    ensures forall i :: 0 <= i < |rs| ==> 0.0 <= rs[i].strength <= 1.0
    ensures NonNegative(rs)
  {
    var diff := left - right;
    ComputeRuleStrengths(FrontNear(front), FrontMiddle(front), FrontFar(front),
                         DiffSmall(diff), DiffMiddle(diff), DiffLarge(diff))
  }

  /** The steering angle chosen by the fuzzy controller. Some rule always
      fires, so the angle is a true weighted average of the consequents and
      never leaves their range, [-30, 30]. */
  function FuzzySteering(front: real, left: real, right: real): (angle: real)
    ensures -30.0 <= angle <= 30.0
  {
    var rs := FiredRules(front, left, right);
    AlwaysFires(front, left, right);
    DefuzzifyWithin(rs, -30.0, 30.0);
    Defuzzify(rs)
  }

  /** Both sums of a nine-rule list, written out term by term. */
  lemma NineRuleSums(rs: seq<Rule>)
    requires |rs| == 9
    ensures TotalWeight(rs) == rs[0].strength + rs[1].strength + rs[2].strength
      + rs[3].strength + rs[4].strength + rs[5].strength
      + rs[6].strength + rs[7].strength + rs[8].strength
    ensures WeightedSum(rs) == rs[0].strength * rs[0].angle + rs[1].strength * rs[1].angle
      + rs[2].strength * rs[2].angle + rs[3].strength * rs[3].angle
      + rs[4].strength * rs[4].angle + rs[5].strength * rs[5].angle
      + rs[6].strength * rs[6].angle + rs[7].strength * rs[7].angle
      + rs[8].strength * rs[8].angle
  {
    assert rs[0..] == rs;
    assert rs[9..] == [];
    UnfoldSums(rs, 0);
    UnfoldSums(rs, 1);
    UnfoldSums(rs, 2);
    UnfoldSums(rs, 3);
    UnfoldSums(rs, 4);
    UnfoldSums(rs, 5);
    UnfoldSums(rs, 6);
    UnfoldSums(rs, 7);
    UnfoldSums(rs, 8);
  }

  lemma UnfoldSums(rs: seq<Rule>, k: int)
    requires 0 <= k < |rs|
    ensures TotalWeight(rs[k..]) == rs[k].strength + TotalWeight(rs[k + 1..])
    ensures WeightedSum(rs[k..]) == rs[k].strength * rs[k].angle + WeightedSum(rs[k + 1..])
  {
    assert rs[k..][1..] == rs[k + 1..];
  }

  /** The two sums of the nine rules, in terms of the six degrees. */
  lemma RuleSums(near: real, middle: real, far: real, small: real, centre: real, large: real)
    ensures var rs := ComputeRuleStrengths(near, middle, far, small, centre, large);
      TotalWeight(rs) == Min(near, small) + Min(near, centre) + Min(near, large)
        + Min(middle, small) + Min(middle, centre) + Min(middle, large)
        + Min(far, small) + Min(far, centre) + Min(far, large)
      && WeightedSum(rs) == 30.0 * (Min(near, small) - Min(near, large))
        + 20.0 * (Min(middle, small) - Min(middle, large))
        + 15.0 * (Min(far, small) - Min(far, large))
  {
    NineRuleSums(ComputeRuleStrengths(near, middle, far, small, centre, large));
  }

  /** For every reading some rule fires with positive strength, so the total
      weight is positive and the zero-weight fallback of the defuzzifier is
      never taken on this path. */
  lemma AlwaysFires(front: real, left: real, right: real)
    ensures TotalWeight(FiredRules(front, left, right)) > 0.0
  {
    var rs := FiredRules(front, left, right);
    var diff := left - right;
    FrontPartition(front);
    var f := if FrontNear(front) > 0.0 then 0 else if FrontMiddle(front) > 0.0 then 1 else 2;
    var d := if diff < 0.0 then 0 else if diff == 0.0 then 1 else 2;
    assert rs[3 * f + d].strength > 0.0;
    TotalWeightAtLeast(rs, 3 * f + d);
  }

  /** Exchanging the small and large degrees exchanges the rules of each
      front term pairwise: the total weight stays and the weighted sum is
      negated. */
  lemma RulesMirror(near: real, middle: real, far: real, small: real, centre: real, large: real)
    ensures var rs := ComputeRuleStrengths(near, middle, far, small, centre, large);
      var ms := ComputeRuleStrengths(near, middle, far, large, centre, small);
      TotalWeight(ms) == TotalWeight(rs) && WeightedSum(ms) == -WeightedSum(rs)
  {
    RuleSums(near, middle, far, small, centre, large);
    RuleSums(near, middle, far, large, centre, small);
  }

  /** With the front degrees a partition of unity, small positive and large
      zero, the weighted sum is positive: only right turns and straight
      rules fire, and at least one right turn does. */
  lemma RulesTurnRight(near: real, middle: real, far: real, small: real, centre: real, large: real)
    requires 0.0 <= near && 0.0 <= middle && 0.0 <= far && near + middle + far == 1.0
    requires small > 0.0 && large == 0.0
    ensures WeightedSum(ComputeRuleStrengths(near, middle, far, small, centre, large)) > 0.0
  {
    RuleSums(near, middle, far, small, centre, large);
    assert Min(near, small) > 0.0 || Min(middle, small) > 0.0 || Min(far, small) > 0.0;
  }

  /** With small and large both zero, only the straight-ahead rules fire. */
  lemma RulesStraight(near: real, middle: real, far: real, small: real, centre: real, large: real)
    requires 0.0 <= near && 0.0 <= middle && 0.0 <= far
    requires small == 0.0 && large == 0.0
    ensures WeightedSum(ComputeRuleStrengths(near, middle, far, small, centre, large)) == 0.0
  {
    RuleSums(near, middle, far, small, centre, large);
  }

  lemma NegateQuotient(w: real, t: real)
    requires t != 0.0
    ensures (-w) / t == -(w / t)
  {
  }

  lemma PositiveQuotient(w: real, t: real)
    requires w > 0.0 && t > 0.0
    ensures w / t > 0.0
  {
  }

  /** Swapping the two side readings mirrors the steering angle. */
  lemma SteeringMirror(front: real, left: real, right: real)
    ensures FuzzySteering(front, right, left) == -FuzzySteering(front, left, right)
  {
    var diff := left - right;
    var near, middle, far := FrontNear(front), FrontMiddle(front), FrontFar(front);
    var small, centre, large := DiffSmall(diff), DiffMiddle(diff), DiffLarge(diff);
    DiffMirror(diff);
    assert right - left == -diff;
    assert FiredRules(front, right, left) == ComputeRuleStrengths(near, middle, far, large, centre, small);
    RulesMirror(near, middle, far, small, centre, large);
    AlwaysFires(front, left, right);
    NegateQuotient(WeightedSum(FiredRules(front, left, right)), TotalWeight(FiredRules(front, left, right)));
  }

  /** The car steers right exactly when the right side is farther, straight
      ahead exactly when both sides are equal, and left exactly when the left
      side is farther. */
  lemma SteeringSign(front: real, left: real, right: real)
    ensures FuzzySteering(front, left, right) > 0.0 <==> left < right
    ensures FuzzySteering(front, left, right) == 0.0 <==> left == right
    ensures FuzzySteering(front, left, right) < 0.0 <==> left > right
  {
    if left < right {
      SteeringTurnsRight(front, left, right);
    } else if left == right {
      var near, middle, far := FrontNear(front), FrontMiddle(front), FrontFar(front);
      RulesStraight(near, middle, far, DiffSmall(0.0), DiffMiddle(0.0), DiffLarge(0.0));
    } else {
      SteeringTurnsRight(front, right, left);
      SteeringMirror(front, right, left);
    }
  }

  /** A closer left side makes the car turn right. */
  lemma SteeringTurnsRight(front: real, left: real, right: real)
    requires left < right
    ensures FuzzySteering(front, left, right) > 0.0
  {
    var diff := left - right;
    var near, middle, far := FrontNear(front), FrontMiddle(front), FrontFar(front);
    FrontPartition(front);
    RulesTurnRight(near, middle, far, DiffSmall(diff), DiffMiddle(diff), DiffLarge(diff));
    AlwaysFires(front, left, right);
    PositiveQuotient(WeightedSum(FiredRules(front, left, right)), TotalWeight(FiredRules(front, left, right)));
  }

  /** With the front clear (distance 3 is near) and equal sides, the car
      goes straight. */
  lemma ExampleStraight()
    ensures FuzzySteering(3.0, 10.0, 10.0) == 0.0
  {
    SteeringSign(3.0, 10.0, 10.0);
  }

  /** With the front far and the right side much closer (difference 20,
      saturating large), only the rule (far, large) fires and the car turns
      left by 15 degrees. */
  lemma ExampleFarLarge()
    ensures FuzzySteering(15.0, 20.0, 0.0) == -15.0
  {
    var rs := FiredRules(15.0, 20.0, 0.0);
    NineRuleSums(rs);
  }
}
