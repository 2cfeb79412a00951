/** Fuzzification for the steering controller of fuzzy.py.

    Two linguistic variables, each with three piecewise-linear terms:
    - the front distance, with the terms near, middle and far;
    - the signed difference `left - right` of the two side sensors, with the
      terms small (the left wall is closer), middle and large (the right wall
      is closer).
    Each term maps a crisp reading to a membership degree. The branch
    boundaries are those of fuzzy.py: every linear piece is open on the
    left and closed on the right (`6 < x <= 9`). */
module Membership {

  function Abs(x: real): (a: real)
    ensures a >= 0.0 && (a == x || a == -x)
  {
    if x < 0.0 then -x else x
  }

  /** Degree to which the front distance `x` is near: fully near up to 6,
      falling linearly to 0 at 9. */
  function FrontNear(x: real): (d: real)
    ensures 0.0 <= d <= 1.0
    ensures d == 1.0 <==> x <= 6.0
    ensures d > 0.0 <==> x < 9.0
  {
    if x <= 6.0 then 1.0
    else if 6.0 < x <= 9.0 then (9.0 - x) / 3.0
    else 0.0
  }

  /** Degree to which the front distance `x` is middle: a triangle on
      (6, 12) that peaks at 9. */
  function FrontMiddle(x: real): (d: real)
    ensures 0.0 <= d <= 1.0
    ensures d == 1.0 <==> x == 9.0
    ensures d > 0.0 <==> 6.0 < x < 12.0
  {
    if 6.0 < x <= 9.0 then (x - 6.0) / 3.0
    else if 9.0 < x <= 12.0 then (12.0 - x) / 3.0
    else 0.0
  }

  /** Degree to which the front distance `x` is far: 0 up to 9, rising
      linearly to full at 12. */
  function FrontFar(x: real): (d: real)
    ensures 0.0 <= d <= 1.0
    ensures d == 1.0 <==> x >= 12.0
    ensures d > 0.0 <==> x > 9.0
  {
    if x <= 9.0 then 0.0
    else if 9.0 < x <= 12.0 then (x - 9.0) / 3.0
    else 1.0
  }

  /** Degree to which the difference `x = left - right` is small: full at
      -17 and below, falling linearly to 0 at 0. */
  function DiffSmall(x: real): (d: real)
    ensures 0.0 <= d <= 1.0
    ensures d == 1.0 <==> x <= -17.0
    ensures d > 0.0 <==> x < 0.0
  {
    if x <= -17.0 then 1.0
    else if -17.0 < x <= 0.0 then (0.0 - x) / 17.0
    else 0.0
  }

  /** Degree to which the difference `x` is middle: a triangle on (-2, 2)
      that peaks at 0. */
  function DiffMiddle(x: real): (d: real)
    ensures 0.0 <= d <= 1.0
    ensures d == 1.0 <==> x == 0.0
    ensures d > 0.0 <==> -2.0 < x < 2.0
  {
    if -2.0 < x <= 0.0 then (x + 2.0) / 2.0
    else if 0.0 < x <= 2.0 then (2.0 - x) / 2.0
    else 0.0
  }

  /** Degree to which the difference `x` is large: 0 at 0 and below, rising
      linearly to full at 17. */
  function DiffLarge(x: real): (d: real)
    ensures 0.0 <= d <= 1.0
    ensures d == 1.0 <==> x >= 17.0
    ensures d > 0.0 <==> x > 0.0
  {
    if x <= 0.0 then 0.0
    else if 0.0 < x <= 17.0 then (x - 0.0) / 17.0
    else 1.0
  }

  /** The three front terms form a partition of unity: their degrees add up
      to exactly 1 for every distance, so at least one of them is positive. */
  lemma FrontPartition(x: real)
    ensures FrontNear(x) + FrontMiddle(x) + FrontFar(x) == 1.0
  {
  }

  /** The difference terms are mirror images of each other about 0,
      breakpoints included. */
  lemma DiffMirror(x: real)
    ensures DiffSmall(x) == DiffLarge(-x)
    ensures DiffMiddle(x) == DiffMiddle(-x)
  {
  }

  /** Small and large never hold at the same time, and for every difference
      one of the three difference terms is positive. */
  lemma DiffCoverage(x: real)
    ensures DiffSmall(x) == 0.0 || DiffLarge(x) == 0.0
    ensures DiffSmall(x) > 0.0 || DiffMiddle(x) > 0.0 || DiffLarge(x) > 0.0
  {
  }

  /** Near falls and far rises as the distance ahead grows. */
  lemma FrontMonotone(x: real, y: real)
    requires x <= y
    ensures FrontNear(y) <= FrontNear(x)
    ensures FrontFar(x) <= FrontFar(y)
  {
  }

  /** Small falls and large rises as the difference grows. */
  lemma DiffMonotone(x: real, y: real)
    requires x <= y
    ensures DiffSmall(y) <= DiffSmall(x)
    ensures DiffLarge(x) <= DiffLarge(y)
  {
  }

  /** No front term changes faster than its slope 1/3: in particular every
      front term is continuous, at its breakpoints 6, 9 and 12 too. */
  lemma FrontLipschitz(x: real, y: real)
    ensures Abs(FrontNear(x) - FrontNear(y)) <= Abs(x - y) / 3.0
    ensures Abs(FrontMiddle(x) - FrontMiddle(y)) <= Abs(x - y) / 3.0
    ensures Abs(FrontFar(x) - FrontFar(y)) <= Abs(x - y) / 3.0
  {
  }

  /** Small and large change no faster than 1/17 and middle no faster than
      1/2: every difference term is continuous, at -17, -2, 0, 2 and 17 too. */
  lemma DiffLipschitz(x: real, y: real)
    ensures Abs(DiffSmall(x) - DiffSmall(y)) <= Abs(x - y) / 17.0
    ensures Abs(DiffMiddle(x) - DiffMiddle(y)) <= Abs(x - y) / 2.0
    ensures Abs(DiffLarge(x) - DiffLarge(y)) <= Abs(x - y) / 17.0
  {
  }
}
