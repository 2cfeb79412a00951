# FuzzyCar steering controller in Dafny

This project models the fuzzy-logic steering controller of FuzzyCar
(`fuzzy.py`). The controller reads three sensor distances: front, left and
right. It returns a steering angle in degrees. A positive angle turns right
and a negative one turns left. The model works on exact `real` numbers.

- `membership.dfy` (module `Membership`) has the six membership functions.
  The front distance has the terms near, middle and far. The difference
  `left - right` has the terms small, middle and large.
- `rules.dfy` (module `Rules`) has the nine-rule base. Each rule fires with
  the `min` of a front degree and a difference degree. Each rule carries a
  constant consequent angle.
- `defuzzify.dfy` (module `Defuzzifier`) has the centre-average
  defuzzifier. It returns the weighted average of the consequents. When the
  total weight is 0 it returns 0.
- `steering.dfy` (module `Steering`) has the pipeline `FuzzySteering`:
  fuzzify, fire the rules, defuzzify.
- `baseline.dfy` (module `Baseline`) has the three-band baseline controller
  `SimpleControl`.

What is proved, in short:
- Every degree lies in [0, 1].
- The three front degrees always add up to exactly 1.
- The difference terms are mirror images about 0.
- For non-negative strengths with a positive total, the defuzzified angle
  lies between the smallest and the largest consequent that has nonzero
  weight.
- On the steering path at least one rule always fires, so the zero-weight
  fallback is never taken.
- The fuzzy angle lies in [-30, 30]. It is positive, zero or negative
  exactly when `left < right`, `left == right` or `left > right`.
- Swapping left and right negates both controllers' angles.

Facts about fuzzy.py worth knowing when reading the model:
- The linear pieces are open on the left and closed on the right
  (`6 < x <= 9`, fuzzy.py:8).
- The three front degrees sum to exactly 1 (`Membership.FrontPartition`).
- On the `fuzzy_steering` path the total weight is never 0
  (`Steering.AlwaysFires`). `defuzzify` called on its own can still see a
  zero total, for instance on the empty list.

## Model

| member | source | states |
|---|---|---|
| Membership.FrontNear | fuzzy.py:5-11 | degree in [0,1]; fully near exactly when x <= 6; positive exactly when x < 9 |
| Membership.FrontMiddle | fuzzy.py:13-19 | degree in [0,1]; equals 1 only at x = 9; positive exactly on (6, 12) |
| Membership.FrontFar | fuzzy.py:21-27 | degree in [0,1]; fully far exactly when x >= 12; positive exactly when x > 9 |
| Membership.DiffSmall | fuzzy.py:29-35 | degree in [0,1]; equals 1 exactly when x <= -17; positive exactly when x < 0 |
| Membership.DiffMiddle | fuzzy.py:37-43 | degree in [0,1]; equals 1 only at x = 0; positive exactly on (-2, 2) |
| Membership.DiffLarge | fuzzy.py:45-51 | degree in [0,1]; equals 1 exactly when x >= 17; positive exactly when x > 0 |
| Membership.FrontPartition | fuzzy.py:5-27 | near + middle + far == 1 for every front distance |
| Membership.DiffMirror | fuzzy.py:29-51 | small(x) == large(-x) and middle(x) == middle(-x) for every x, breakpoints included |
| Membership.DiffCoverage | fuzzy.py:29-51 | small and large are never both positive; one of the three difference degrees is always positive |
| Membership.FrontMonotone | fuzzy.py:5-27 | near does not increase and far does not decrease as the distance grows |
| Membership.DiffMonotone | fuzzy.py:29-51 | small does not increase and large does not decrease as the difference grows |
| Membership.FrontLipschitz | fuzzy.py:5-27 | each front degree changes by at most abs(x - y) / 3, so it is continuous at 6, 9 and 12 |
| Membership.DiffLipschitz | fuzzy.py:29-51 | small and large change by at most abs(x - y) / 17 and middle by at most abs(x - y) / 2, so all are continuous |
| Rules.Min | fuzzy.py:60 | the conjunction is below both degrees and equal to one of them |
| Rules.Consequent | fuzzy.py:57-78 | the rule table: a small difference turns right by at most 30, a middle one goes straight, a large one turns left by at most 30 |
| Rules.ConsequentShape | fuzzy.py:57-78 | for each front term the left turn mirrors the right turn; turns grow sharper as the front gets nearer |
| Rules.ComputeRuleStrengths | fuzzy.py:54-80 | exactly nine rules, front term outer and difference term inner; rule i fires with the min of its two degrees and carries the table's consequent; strengths are degrees when the inputs are |
| Rules.RuleTableLayout | fuzzy.py:60-78 | the consequents in order are 30, 0, -30, 20, 0, -20, 15, 0, -15 |
| Defuzzifier.Defuzzify | fuzzy.py:83-93 | zero total weight gives 0; otherwise angle times total weight equals the weighted sum |
| Defuzzifier.TotalWeightAtLeast | fuzzy.py:88 | with non-negative strengths the total weight (`TotalWeight`, the sum at fuzzy.py:88) is non-negative and at least each single strength |
| Defuzzifier.AllZeroStrengths | fuzzy.py:85-92 | when every strength is 0 (the empty list included) both sums are 0 and the result is 0 |
| Defuzzifier.WeightedSumAtLeast | fuzzy.py:85-88 | a lower bound on the active consequents gives weighted sum (`WeightedSum`, the sum at fuzzy.py:85) >= bound times total weight |
| Defuzzifier.WeightedSumAtMost | fuzzy.py:85-88 | an upper bound on the active consequents gives weighted sum <= bound times total weight |
| Defuzzifier.WeightedSumAbove | fuzzy.py:85-88 | the strict form of the lower bound when the total weight is positive |
| Defuzzifier.WeightedSumBelow | fuzzy.py:85-88 | the strict form of the upper bound when the total weight is positive |
| Defuzzifier.DefuzzifyBetweenActive | fuzzy.py:83-93 | with non-negative strengths and a positive total, the result lies between two consequents of active rules |
| Defuzzifier.DefuzzifyWithin | fuzzy.py:83-93 | any bounds on the active consequents bound the result |
| Steering.RuleSums | fuzzy.py:54-93 | the total weight and the weighted sum of the nine rules in terms of the six degrees |
| Steering.FiredRules | fuzzy.py:97-111 | nine rules, every strength fired for a reading a degree in [0,1] |
| Steering.FuzzySteering | fuzzy.py:96-114 | the steering angle lies in [-30, 30]; its sign is Steering.SteeringSign, its mirror Steering.SteeringMirror, and Steering.AlwaysFires shows the zero-weight fallback is never taken |
| Steering.AlwaysFires | fuzzy.py:96-114 | for every reading the total weight is positive, so the zero-weight fallback is never taken |
| Steering.RulesMirror | fuzzy.py:54-93 | swapping the small and large degrees keeps the total weight and negates the weighted sum |
| Steering.RulesTurnRight | fuzzy.py:54-93 | with small positive and large zero the weighted sum is positive |
| Steering.RulesStraight | fuzzy.py:54-93 | with small and large both zero the weighted sum is zero |
| Steering.SteeringMirror | fuzzy.py:96-114 | swapping left and right negates the steering angle |
| Steering.SteeringTurnsRight | fuzzy.py:96-114 | a closer left side gives a positive angle |
| Steering.SteeringSign | fuzzy.py:96-114 | angle > 0 iff left < right; angle == 0 iff left == right; angle < 0 iff left > right |
| Steering.ExampleStraight | fuzzy.py:96-114 | front 3 with equal sides gives angle 0 |
| Steering.ExampleFarLarge | fuzzy.py:96-114 | front 15, left 20, right 0 gives angle -15 |
| Baseline.SimpleControl | fuzzy.py:117-134 | the angle is one of -20, -10, 0, 10, 20 |
| Baseline.SimpleControlBands | fuzzy.py:117-134 | 0 exactly when abs(right - left) < 2; ±10 on [2, 17] and ±20 above 17, signed like right - left |
| Baseline.SimpleControlAntisymmetric | fuzzy.py:117-134 | swapping left and right negates the angle |
| Baseline.BaselineAgreesWithFuzzy | fuzzy.py:96-134 | whenever the baseline turns, the fuzzy controller turns the same way, whatever the front distance |

## Left out

- `draw_mfGraph` (fuzzy.py:136-175): plotting with matplotlib, pure presentation.
- The global counter `COUNT` and the `print` in `fuzzy_steering` (fuzzy.py:3, 107-112): diagnostics that do not affect the returned angle.
- Floating point: degrees, distances and angles are exact reals. Rounding, infinities and NaN are not modelled. The order of Python's left-to-right sums does not matter over the reals.
- Python returns the integer `0` from `defuzzify` and integers from `simple_control`. The model returns the real `0.0` from `Defuzzify`. `SimpleControl` returns an `int`.
- The window, the run loop and the choice between the two controllers (gui.py) are not part of this model. They are user interface and I/O.
- Sensor ray casting, pose update and collision detection live in car.py. car.py is not part of this model.
