/** The rule base of fuzzy.py: nine rules, one for each pair of a front term
    and a difference term, each firing with the minimum of its two degrees
    and carrying a constant steering angle in degrees (positive turns right,
    negative turns left). */
module Rules {

  /** A fired rule: its firing strength and its consequent angle. */
  datatype Rule = Rule(strength: real, angle: real)

  datatype FrontTerm = Near | Middle | Far

  datatype DiffTerm = Small | Middle | Large

  /** The enumeration order of the rule base: front term outer,
      difference term inner. */
  const FrontTerms: seq<FrontTerm> := [Near, FrontTerm.Middle, Far]
  const DiffTerms: seq<DiffTerm> := [Small, DiffTerm.Middle, Large]

  /** Fuzzy conjunction, as Python's `min` of two degrees. */
  function Min(a: real, b: real): (m: real)
    ensures m <= a && m <= b
    ensures m == a || m == b
  {
    if b < a then b else a
  }

  /** The consequent of the rule for a front term and a difference term:
      a small difference (left side closer) turns right, a middle one goes
      straight, a large one (right side closer) turns left, never by more
      than 30 degrees. */
  function Consequent(f: FrontTerm, d: DiffTerm): (angle: real)
    ensures d == Small ==> 0.0 < angle <= 30.0
    ensures d == DiffTerm.Middle ==> angle == 0.0
    ensures d == Large ==> -30.0 <= angle < 0.0
  {
    match (f, d)
    case (Near, Small) => 30.0
    case (Near, Middle) => 0.0
    case (Near, Large) => -30.0
    case (Middle, Small) => 20.0
    case (Middle, Middle) => 0.0
    case (Middle, Large) => -20.0
    case (Far, Small) => 15.0
    case (Far, Middle) => 0.0
    case (Far, Large) => -15.0
  }

  /** The left and right turns of each front term are mirror images, and
      the closer the obstacle ahead, the sharper the turn. */
  lemma ConsequentShape(f: FrontTerm)
    ensures Consequent(f, Large) == -Consequent(f, Small)
    ensures Consequent(Far, Small) < Consequent(FrontTerm.Middle, Small) < Consequent(Near, Small)
  {
  }

  /** The nine rules fired by the six membership degrees, in the order
      (near, small), (near, middle), (near, large), (middle, small), ...,
      (far, large). */
  function ComputeRuleStrengths(near: real, middle: real, far: real,
                                small: real, centre: real, large: real): (rs: seq<Rule>)
    ensures |rs| == 9
    ensures forall f, d :: 0 <= f < 3 && 0 <= d < 3 ==>
      rs[3 * f + d] == Rule(Min([near, middle, far][f], [small, centre, large][d]),
                            Consequent(FrontTerms[f], DiffTerms[d]))
    ensures 0.0 <= near <= 1.0 && 0.0 <= middle <= 1.0 && 0.0 <= far <= 1.0 &&
            0.0 <= small <= 1.0 && 0.0 <= centre <= 1.0 && 0.0 <= large <= 1.0 ==>
      forall i :: 0 <= i < 9 ==> 0.0 <= rs[i].strength <= 1.0
  {
    [ Rule(Min(near, small), 30.0),
      Rule(Min(near, centre), 0.0),
      Rule(Min(near, large), -30.0),
      Rule(Min(middle, small), 20.0),
      Rule(Min(middle, centre), 0.0),
      Rule(Min(middle, large), -20.0),
      Rule(Min(far, small), 15.0),
      Rule(Min(far, centre), 0.0),
      Rule(Min(far, large), -15.0) ]
  }

  /** The consequents of the nine rules, in enumeration order. */
  lemma RuleTableLayout(near: real, middle: real, far: real,
                        small: real, centre: real, large: real)
    ensures var rs := ComputeRuleStrengths(near, middle, far, small, centre, large);
      [rs[0].angle, rs[1].angle, rs[2].angle, rs[3].angle, rs[4].angle,
       rs[5].angle, rs[6].angle, rs[7].angle, rs[8].angle]
      == [30.0, 0.0, -30.0, 20.0, 0.0, -20.0, 15.0, 0.0, -15.0]
  {
  }
}
