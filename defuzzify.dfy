/** Defuzzification of fuzzy.py by the centre-average method: the crisp
    steering angle is the average of the rule consequents weighted by their
    firing strengths, and 0 when the strengths add up to 0.

    Python sums the two generators from left to right; over the reals the
    order of the additions does not change the sum, so the sums below recur
    on the head of the sequence. */
module Defuzzifier {
  import opened Rules

  /** Sum of strength times angle over the fired rules; its bounds are the
      WeightedSum lemmas below. */
  function WeightedSum(rs: seq<Rule>): (sum: real)
  {
    if rs == [] then 0.0 else rs[0].strength * rs[0].angle + WeightedSum(rs[1..])
  }

  /** Sum of the firing strengths; TotalWeightAtLeast bounds it. */
  function TotalWeight(rs: seq<Rule>): (total: real)
  {
    if rs == [] then 0.0 else rs[0].strength + TotalWeight(rs[1..])
  }

  /** The defuzzified angle: the weighted average of the consequents, or 0
      when the total weight is 0 (the empty list included). */
  function Defuzzify(rs: seq<Rule>): (angle: real)
    ensures TotalWeight(rs) == 0.0 ==> angle == 0.0
    ensures TotalWeight(rs) != 0.0 ==> angle * TotalWeight(rs) == WeightedSum(rs)
  {
    var total := TotalWeight(rs);
    if total == 0.0 then 0.0 else WeightedSum(rs) / total
  }

  predicate NonNegative(rs: seq<Rule>) {
    forall i :: 0 <= i < |rs| ==> 0.0 <= rs[i].strength
  }

  /** A rule is active when it fires with a positive strength. */
  predicate Active(r: Rule) {
    r.strength > 0.0
  }

  /** Every active consequent is at least `lo`. */
  predicate ActiveAtLeast(rs: seq<Rule>, lo: real) {
    forall i :: 0 <= i < |rs| && Active(rs[i]) ==> lo <= rs[i].angle
  }

  /** Every active consequent exceeds `lo`. */
  predicate ActiveAbove(rs: seq<Rule>, lo: real) {
    forall i :: 0 <= i < |rs| && Active(rs[i]) ==> lo < rs[i].angle
  }

  /** Every active consequent is at most `hi`. */
  predicate ActiveAtMost(rs: seq<Rule>, hi: real) {
    forall i :: 0 <= i < |rs| && Active(rs[i]) ==> rs[i].angle <= hi
  }

  /** Every active consequent is below `hi`. */
  predicate ActiveBelow(rs: seq<Rule>, hi: real) {
    forall i :: 0 <= i < |rs| && Active(rs[i]) ==> rs[i].angle < hi
  }

  lemma MulPositive(a: real, b: real)
    requires a > 0.0 && b > 0.0
    ensures a * b > 0.0
  {
  }

  /** One step of the strict bounds: a positive first term on top of a
      non-strict bound for the rest. */
  lemma ArithAbove(s: real, a: real, w: real, t: real, lo: real)
    requires s * (a - lo) > 0.0 && w >= lo * t
    ensures s * a + w > lo * (s + t)
  {
  }

  lemma ArithBelow(s: real, a: real, w: real, t: real, hi: real)
    requires s * (hi - a) > 0.0 && w <= hi * t
    ensures s * a + w < hi * (s + t)
  {
  }

  /** The total weight bounds every single strength from above. */
  lemma {:induction false} TotalWeightAtLeast(rs: seq<Rule>, i: int)
    requires NonNegative(rs)
    requires 0 <= i < |rs|
    ensures TotalWeight(rs) >= rs[i].strength
    ensures TotalWeight(rs) >= 0.0
  {
    assert NonNegative(rs[1..]) by {
      forall j | 0 <= j < |rs[1..]| ensures 0.0 <= rs[1..][j].strength {
        assert rs[1..][j] == rs[j + 1];
      }
    }
    if |rs| > 1 {
      TotalWeightAtLeast(rs[1..], if i == 0 then 0 else i - 1);
    }
  }

  /** With no rule firing at all, the total weight is 0 and the fallback
      angle 0 is returned. */
  lemma {:induction false} AllZeroStrengths(rs: seq<Rule>)
    requires forall i :: 0 <= i < |rs| ==> rs[i].strength == 0.0
    ensures TotalWeight(rs) == 0.0 && WeightedSum(rs) == 0.0
    ensures Defuzzify(rs) == 0.0
  {
    if rs != [] {
      assert forall i :: 0 <= i < |rs[1..]| ==> rs[1..][i] == rs[i + 1];
      AllZeroStrengths(rs[1..]);
    }
  }

  /** The weighted sum is at least `lo` times the total weight when every
      active consequent is at least `lo`. */
  lemma {:induction false} WeightedSumAtLeast(rs: seq<Rule>, lo: real)
    requires NonNegative(rs) && ActiveAtLeast(rs, lo)
    ensures WeightedSum(rs) >= lo * TotalWeight(rs)
  {
    if rs != [] {
      var r := rs[0];
      assert forall i :: 0 <= i < |rs[1..]| ==> rs[1..][i] == rs[i + 1];
      WeightedSumAtLeast(rs[1..], lo);
      if Active(r) {
        assert r.strength * r.angle - r.strength * lo == r.strength * (r.angle - lo);
        assert r.strength * (r.angle - lo) >= 0.0;
      } else {
        assert r.strength == 0.0;
      }
    }
  }

  /** The weighted sum is at most `hi` times the total weight when every
      active consequent is at most `hi`. */
  lemma {:induction false} WeightedSumAtMost(rs: seq<Rule>, hi: real)
    requires NonNegative(rs) && ActiveAtMost(rs, hi)
    ensures WeightedSum(rs) <= hi * TotalWeight(rs)
  {
    if rs != [] {
      var r := rs[0];
      assert forall i :: 0 <= i < |rs[1..]| ==> rs[1..][i] == rs[i + 1];
      WeightedSumAtMost(rs[1..], hi);
      if Active(r) {
        assert r.strength * hi - r.strength * r.angle == r.strength * (hi - r.angle);
        assert r.strength * (hi - r.angle) >= 0.0;
      } else {
        assert r.strength == 0.0;
      }
    }
  }

  /** The strict form: with some rule active and every active consequent
      above `lo`, the weighted sum exceeds `lo` times the total weight. */
  lemma {:induction false} WeightedSumAbove(rs: seq<Rule>, lo: real)
    requires NonNegative(rs) && ActiveAbove(rs, lo)
    requires TotalWeight(rs) > 0.0
    ensures WeightedSum(rs) > lo * TotalWeight(rs)
  {
    var r := rs[0];
    assert forall i :: 0 <= i < |rs[1..]| ==> rs[1..][i] == rs[i + 1];
    if Active(r) {
      var rest := rs[1..];
      WeightedSumAtLeast(rest, lo);
      MulPositive(r.strength, r.angle - lo);
      ArithAbove(r.strength, r.angle, WeightedSum(rest), TotalWeight(rest), lo);
    } else {
      assert r.strength == 0.0;
      WeightedSumAbove(rs[1..], lo);
    }
  }

  /** The strict form of WeightedSumAtMost. */
  lemma {:induction false} WeightedSumBelow(rs: seq<Rule>, hi: real)
    requires NonNegative(rs) && ActiveBelow(rs, hi)
    requires TotalWeight(rs) > 0.0
    ensures WeightedSum(rs) < hi * TotalWeight(rs)
  {
    var r := rs[0];
    assert forall i :: 0 <= i < |rs[1..]| ==> rs[1..][i] == rs[i + 1];
    if Active(r) {
      var rest := rs[1..];
      WeightedSumAtMost(rest, hi);
      MulPositive(r.strength, hi - r.angle);
      ArithBelow(r.strength, r.angle, WeightedSum(rest), TotalWeight(rest), hi);
    } else {
      assert r.strength == 0.0;
      WeightedSumBelow(rs[1..], hi);
    }
  }

  /** Any angle that balances the weighted sum against the total weight lies
      between two consequents of active rules. */
  lemma {:induction false} AverageBetweenActive(rs: seq<Rule>, angle: real)
    requires NonNegative(rs) && TotalWeight(rs) > 0.0
    requires angle * TotalWeight(rs) == WeightedSum(rs)
    ensures exists i :: 0 <= i < |rs| && Active(rs[i]) && rs[i].angle <= angle
    ensures exists j :: 0 <= j < |rs| && Active(rs[j]) && angle <= rs[j].angle
  {
    if ActiveBelow(rs, angle) {
      WeightedSumBelow(rs, angle);
      assert false;
    }
    if ActiveAbove(rs, angle) {
      WeightedSumAbove(rs, angle);
      assert false;
    }
  }

  /** With non-negative strengths and a positive total, the defuzzified
      angle lies between two consequents of active rules: between the
      smallest and the largest consequent with nonzero weight. */
  lemma DefuzzifyBetweenActive(rs: seq<Rule>)
    requires NonNegative(rs) && TotalWeight(rs) > 0.0
    ensures exists i :: 0 <= i < |rs| && Active(rs[i]) && rs[i].angle <= Defuzzify(rs)
    ensures exists j :: 0 <= j < |rs| && Active(rs[j]) && Defuzzify(rs) <= rs[j].angle
  {
    AverageBetweenActive(rs, Defuzzify(rs));
  }

  /** Any bounds on the active consequents bound the defuzzified angle. */
  lemma DefuzzifyWithin(rs: seq<Rule>, lo: real, hi: real)
    requires NonNegative(rs) && TotalWeight(rs) > 0.0
    requires ActiveAtLeast(rs, lo) && ActiveAtMost(rs, hi)
    ensures lo <= Defuzzify(rs) <= hi
  {
    DefuzzifyBetweenActive(rs);
  }
}
