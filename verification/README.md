# cvis-braking in Dafny

This project models the decision-utility code of cvis-braking. An automated
driver "d", approaching an intersection, scores two actions: action 0 and
action 1. Each score combines four utilities:

- **safety**: one term per other car. Each term is damped by a collision flag from a
  straight-line collision predictor.
- **legality**: a table over the traffic light and the stop line.
- **time**: the share of the time spent crossing the intersection.
- **comfort**: a rational function of the jerk ad / 1.5 that action 1 causes.

The collision predictor (`coll_detect_g.py`) is modelled in full:

- the explicit Euler step;
- the oriented rectangle built from centre, length, width and the direction of travel;
- the separating-axis overlap test on the edge vectors of both rectangles;
- the 150-step simulation at 0.01 s that returns 1 at the first overlapping step and 0 otherwise.

The scoring functions of `total_util.py` are modelled as they are written. So are the
standalone copies in `safety.py`, `legal.py` and `comfort.py`.

Modelling decisions:

- All arithmetic is over Dafny's `real`.
- The library functions the code calls are taken as a parameter `Fns`:
  - the square root behind `np.linalg.norm` and `** 0.5`;
  - `math.exp`;
  - cos and sin of `np.arctan2` as a heading vector.

  The predicate `Lawful` constrains them to the laws the proofs need. A square root
  is a non-negative root. `exp(0) = 1` and `exp` maps non-positive reals into (0, 1].
  The heading of a velocity is the unit vector pointing along it, and (1, 0) for the
  zero vector, as `arctan2(0, 0) = 0`.
- The value `random.betavariate(1.86, 1)` returns is a parameter `draw`.
- What a Python call comes to is an `Outcome`:
  - a value;
  - `None`, when the body falls off its end;
  - a raised exception: `ZeroDivisionError`, `UnboundLocalError`, `TypeError` or
    `ValueError`.
- Branches follow the numeric action codes, and the code disagrees with itself on
  which code means braking. `legal_util` and `saf_util` treat 0 as braking:
  `legal_util` always allows it (total_util.py:38-39), and `saf_util` sets the ego
  car's velocity to zero for it (total_util.py:20-21). `comfort_util` and
  `time_util` treat 1 as braking, as their docstrings say. `comfort_util` gives
  action 1 the jerk ad / 1.5 and action 0 none (total_util.py:75-78). `time_util`
  scores action 0 a full 1 and charges action 1 the light wait t
  (total_util.py:62-65). The model therefore names the codes by number,
  `Legal.Action0` and `Legal.Action1`.

Modules:

- `Reals`: small facts of ordered-field arithmetic.
- `Geometry`: points, dot product, headings.
- `Maths`: the library functions and their laws.
- `CollDetect`: `coll_detect_g.py`.
- `CollDetectFacts`: what the predictor's answers mean geometrically, and its listed scenarios.
- `Outcomes`: the Python result datatype.
- `Legal`: `legal_util`.
- `Comfort`: `comfort_util`.
- `Safety`: the `saf_util` loop and the copy in `safety.py`.
- `TotalUtility`: `time_util`, the guarded `saf_util` and `total_util` of `total_util.py`.

Where the documentation and the code disagree, the model follows the code:

- `simulate_collision_updated`'s docstring calls the positions the "front middle"
  of each car. `get_corners` uses them as the rectangle's centre
  (coll_detect_g.py:22, 34-39), and so does the model.
- The second test of `time_util` reads `action == 1 and traff_state == 1 or 2`.
  Python groups it as `(action == 1 and traff_state == 1) or 2`, which is always
  truthy. So every action other than 0 takes the crossing-time branch, and the
  green branch returning 0 is dead. `TotalUtility.TimeUtil` keeps that grouping,
  `TotalUtility.TimeIgnoresLight` proves that the light does not matter, even
  when a division by zero is raised, and `TotalUtility.TimeCrossingValue` gives the value.
- The paired edge test of `check_collision_updated` looks non-standard. It tests
  edge i of both rectangles together and stops at the first failure. The model
  proves this is the same as requiring all eight edge axes to overlap
  (`CollDetect.EdgePairsCoverAll`, `CollDetect.CheckCollision`). The pairing
  changes nothing.
- `comfort_util` with an action other than 0 or 1 leaves `jerk` unbound. The model
  returns `Raises(UnboundLocalError)` for it instead of excluding such actions with
  a precondition.
- `TotalUtility.TotalUtil` keeps the order of exceptions in `total_util`:
  - an exception from `time_util` propagates before one from `comfort_util`;
  - the shape check of `np.dot` (ValueError) comes before arithmetic on a None
    score (TypeError).

  A `saf_util` call cannot raise over the reals.

## Model

| member | source | states |
|---|---|---|
| CollDetect.UpdatePosition | coll_detect_g.py:3-15 | the new position minus the old is dt times the velocity; with zero velocity or dt = 0 the position is unchanged |
| CollDetect.UpdatePositionCompose | coll_detect_g.py:15 | two steps of lengths a and b with one velocity make a single step of length a + b |
| CollDetect.UpdatePositionUndo | coll_detect_g.py:15 | a step of -dt undoes a step of dt |
| CollDetect.RectCorners | coll_detect_g.py:34-39 | no contract of its own: the four corner formulas as written; see RectCornerLocal, RectCornersShape, RectCornersRightAngles, RectCornersEast |
| CollDetect.GetCorners | coll_detect_g.py:17-41 | no contract of its own: the corners of the rectangle turned to the heading of vel; see GetCornersAtRest and CollDetectFacts.InRectStraddles |
| CollDetect.RectCornerLocal | coll_detect_g.py:34-39 | corner i is the centre plus or minus l/2 along the heading and plus or minus w/2 along its clockwise normal, with the signs for each corner in get_corners' order |
| CollDetect.RectCornersShape | coll_detect_g.py:34-39 | opposite corners are point-symmetric about the centre; consecutive edges are l·(c,s), w·(s,-c), -l·(c,s), -w·(s,-c) |
| CollDetect.RectCornersRightAngles | coll_detect_g.py:31-39 | for a unit heading the edges have squared lengths l² and w² and adjacent edges are perpendicular |
| CollDetect.RectCornersEast | coll_detect_g.py:34-39 | with heading angle 0 the rectangle is the axis-aligned box [x ± l/2] × [y ± w/2] |
| CollDetect.GetCornersAtRest | coll_detect_g.py:31-39 | a car with zero velocity gets the axis-aligned box, since arctan2(0, 0) = 0 |
| Geometry.HeadingOfEastward | coll_detect_g.py:31 | a body at rest or moving along +x has heading (1, 0) |
| Geometry.HeadingScaleInvariant | coll_detect_g.py:31 | the heading depends only on the direction of the velocity, not its size |
| CollDetect.MaxOf | coll_detect_g.py:60 | max(...) is an element of the list and no element exceeds it |
| CollDetect.MinOf | coll_detect_g.py:60 | min(...) is an element of the list and no element is below it |
| CollDetect.MaxBelowMin | coll_detect_g.py:60 | max(xs) < min(ys) exactly when every x is below every y |
| CollDetect.ProjectionsOverlap | coll_detect_g.py:43-63 | no contract of its own; see ProjectionsOverlapIff, ProjectionsOverlapSwap, ProjectionsOverlapScale, ProjectionsOverlapZeroAxis |
| CollDetect.ProjectionsOverlapIff | coll_detect_g.py:56-63 | the result is false exactly when every corner of one set projects strictly below every corner of the other, so touching intervals overlap |
| CollDetect.SharedProjectionOverlaps | coll_detect_g.py:56-63 | two corner sets with a common projected value overlap on that axis |
| CollDetect.ProjectionsOverlapSwap | coll_detect_g.py:60-63 | swapping the two corner lists does not change the result |
| CollDetect.ProjectionsOverlapScale | coll_detect_g.py:56-60 | scaling the axis by a positive factor does not change the result |
| CollDetect.ProjectionsOverlapZeroAxis | coll_detect_g.py:56-60 | on the zero axis the projections always overlap |
| CollDetect.EdgesOverlapFrom | coll_detect_g.py:87-94 | the loop from iteration i on returns true exactly when edge k of both rectangles passes for every k in i..3 |
| CollDetect.EdgePairsCoverAll | coll_detect_g.py:87-91 | testing edge i of both rectangles in pairs is the same as testing all eight edge axes |
| CollDetect.CheckCollision | coll_detect_g.py:65-94 | true exactly when none of the eight edge axes, corner[i] - corner[i-1] with corner -1 being corner 3, separates the rectangles |
| CollDetect.CheckCollisionSymmetric | coll_detect_g.py:83-94 | swapping car d's (pos, l, w, vel) with car i's gives the same answer |
| CollDetect.StepsCoverHorizon | coll_detect_g.py:125-128 | 150 steps of 0.01 s cover the 1.5 s horizon |
| CollDetect.StepIsAfterOne | coll_detect_g.py:129-130 | one loop step moves a car to its closed-form position after one step |
| CollDetect.AfterStep | coll_detect_g.py:128-130 | k steps after one step is k + 1 steps, so the loop's repeated updates reach pos + k·0.01·vel |
| CollDetect.CollidesWithinAfterStep | coll_detect_g.py:128-135 | when the first step finds no overlap, a collision within n steps is one within n - 1 steps of the stepped cars |
| CollDetect.Run | coll_detect_g.py:128-135 | the loop returns only 0 or 1, and 1 exactly when the cars overlap after some step k in 1..n; the starting positions are never checked |
| CollDetect.OtherCar | coll_detect_g.py:123 | car i's length is non-negative and its square is the squared distance from its front point to its end point |
| CollDetect.Simulate | coll_detect_g.py:96-135 | returns 0 or 1, and 1 exactly when the boxes at pos + k·0.01·vel overlap for some k in 1..150 |
| CollDetect.RunSymmetric | coll_detect_g.py:128-135 | the loop gives the same flag with the two cars swapped |
| CollDetect.SimulateSymmetric | coll_detect_g.py:96-135 | swapping the cars fully, each car's length derived from its front and end points, gives the same flag |
| Maths.Norm | coll_detect_g.py:123 | the norm is non-negative, squares to dx² + dy², and is positive for a non-zero vector |
| CollDetectFacts.InRectStraddles | coll_detect_g.py:34-39 | every point of the rectangle projects between its extreme corner projections, on every axis |
| CollDetectFacts.CentreStraddles | coll_detect_g.py:34-39 | the centre projects between the extreme corner projections, whatever the signs of l and w |
| CollDetectFacts.StraddledValueOverlaps | coll_detect_g.py:60-63 | two corner sets whose projections both straddle one value overlap on that axis |
| CollDetectFacts.SharedPointOverlaps | coll_detect_g.py:56-63 | rectangles sharing a point overlap on every axis |
| CollDetectFacts.CheckCollisionSound | coll_detect_g.py:65-94 | if some point lies in both footprints the cars are reported overlapping, so a reported separation is a real one |
| CollDetectFacts.SameCentreCollides | coll_detect_g.py:65-94 | two cars with the same centre are reported overlapping, whatever their sizes and headings |
| CollDetectFacts.SharedPointRaisesFlag | coll_detect_g.py:128-135 | a point both footprints share after some step in 1..n makes the loop return 1 |
| CollDetectFacts.RunZeroMeansDisjoint | coll_detect_g.py:128-135 | a flag of 0 means the footprints share no point after any step in 1..n |
| CollDetectFacts.ApartThroughoutMeansZero | coll_detect_g.py:128-135 | cars reported apart after every step give the flag 0 |
| CollDetectFacts.EastboundGapSeparates | coll_detect_g.py:87-94 | eastbound or resting boxes with car d's box wholly left of car i's along x are reported apart |
| CollDetectFacts.EastboundGapPersists | coll_detect_g.py:128-132 | in one lane, with car d's box wholly left of car i's and car d no faster, the gap persists at every later time |
| CollDetectFacts.EastboundGapNeverCloses | coll_detect_g.py:128-135 | such cars, car d's box wholly left of car i's and car d no faster, never raise the flag |
| CollDetectFacts.LanesApartSeparates | coll_detect_g.py:87-94 | eastbound boxes with car d's box wholly below car i's in y are reported apart |
| CollDetectFacts.LanesApartPersist | coll_detect_g.py:128-132 | eastbound cars with car d's box wholly below car i's in y stay apart at every time |
| CollDetectFacts.ParallelLanesNeverCollide | coll_detect_g.py:128-135 | eastbound cars with car d's box wholly below car i's in y never raise the flag |
| CollDetectFacts.RestingApartNeverCollide | coll_detect_g.py:128-135 | two cars at rest whose boxes are apart along x or along y, in either order, never raise the flag |
| CollDetectFacts.HeadOnScenario | coll_detect_g.py:140 | the head-on test case gives 1 |
| CollDetectFacts.FasterCarAheadScenario | coll_detect_g.py:143 | the test case with car i ahead and faster gives 0 |
| CollDetectFacts.ParallelLanesScenario | coll_detect_g.py:145 | the parallel-lanes test case gives 0 |
| CollDetectFacts.DiagonalScenario | coll_detect_g.py:146 | the diagonal test case, both cars moving, gives 1 |
| Safety.QueriedEgo | total_util.py:20-21 | action 0 sets the ego velocity to zero and keeps its position and size; any other action leaves the ego car as it is |
| Safety.SquaredSpeed | total_util.py:23-26 | a squared speed is never negative |
| Safety.CollisionFlag | total_util.py:27 | the flag of each query is 0 or 1 |
| Safety.SafetyTerm | total_util.py:28 | no contract of its own: the term one other car adds; see SafetyTermNoCollision, SafetyTermInUnitInterval |
| Safety.SafetySum | total_util.py:22-29 | no contract of its own: the loop over the other cars; see SafetySumBounds, SafetySumNoCollisions |
| Safety.SafetyTermNoCollision | total_util.py:28 | a car with flag 0 adds exactly exp(0) = 1 |
| Safety.SafetyTermInUnitInterval | total_util.py:28 | with beta >= 0 each term lies in (0, 1] |
| Safety.SafetySumBounds | total_util.py:22-29 | with beta >= 0 the sum over n cars lies in [0, n] and is positive when n > 0 |
| Safety.SafetySumNoCollisions | safety.py:33-38 | with no car flagged the sum is the number of cars |
| Safety.SafUtil | safety.py:31-39 | this copy returns 0 for an empty list |
| Safety.SafUtilAction0IgnoresVelocity | safety.py:29-30 | for action 0 the result does not depend on the ego velocity |
| Safety.SafUtilBounds | safety.py:32-39 | with beta >= 0 the result lies between 0 and the number of cars, and is positive for a non-empty list |
| Safety.SafUtilNoCollisions | safety.py:33-38 | with no car flagged the result is the number of cars |
| TotalUtility.SafUtil | total_util.py:18-19 | an empty list of other cars scores 1 |
| TotalUtility.SafUtilCopiesAgree | total_util.py:18-29 | the two saf_util copies agree on non-empty lists and differ by exactly 1 on the empty list |
| TotalUtility.SafUtilBounds | total_util.py:18-29 | with beta >= 0 the score is positive and at most max(1, number of cars) |
| Legal.LegalUtil | legal.py:3-20 | legal_util never raises |
| Legal.LegalNoneIffUncovered | legal.py:10-20 | a value is returned exactly for action 0, or action 1 with light 0, 1 or 2; every other combination returns None |
| Legal.LegalAction0AlwaysOne | legal.py:10-11 | action 0 scores 1 whatever the light and the stop line |
| Legal.LegalAction1GreenRed | legal.py:12-15 | action 1 on green scores 1 and on red 0 |
| Legal.LegalAction1Amber | legal.py:16-20 | action 1 on amber scores 1 past the stop line and the Beta draw otherwise |
| Legal.LegalDrawMattersOnlyAtAmber | total_util.py:44-48 | the random draw changes the result only for action 1 on amber before the stop line |
| Legal.LegalUtilInUnitRange | total_util.py:38-48 | with a draw in [0, 1] every returned score lies in [0, 1] |
| Comfort.ComfortUtil | comfort.py:7-11 | never returns None; raises UnboundLocalError exactly when the action is neither 0 nor 1 |
| Comfort.ComfortAction0IsOne | comfort.py:7-8 | action 0 scores exactly 1 |
| Comfort.ComfortNoDecelerationIsOne | comfort.py:9-11 | with ad = 0 either action scores 1 |
| Comfort.ComfortInUnitInterval | comfort.py:11 | for gamma >= 0 a score is returned and lies in (0, 1] |
| Comfort.ComfortEvenInDeceleration | comfort.py:10-11 | negating ad does not change the outcome |
| Comfort.ComfortRecoversPenalty | total_util.py:77-79 | a returned score v satisfies 1/v - 1 = gamma·(ad/1.5)² for action 1 and 0 for action 0, which is 1/(1 + gamma·jerk²) |
| Comfort.ComfortAntitone | total_util.py:77-79 | for gamma >= 0 a harder deceleration (larger ad²) never scores higher |
| TotalUtility.TimeUtil | total_util.py:50-67 | time_util never returns None, since the always-truthy test covers every action but 0 |
| TotalUtility.TimeAction0IsOne | total_util.py:62-63 | action 0 scores 1 |
| TotalUtility.TimeIgnoresLight | total_util.py:58-67 | for every action but 0 the outcome, a value or a raised error, is the one a green light gives, so the light never matters |
| TotalUtility.TimeCrossingValue | total_util.py:58-67 | with non-zero divisors every action but 0 takes the crossing branch, t = 60 for light_time -1, and returns (L / (t + L / speed)) / speed; the green branch is dead |
| TotalUtility.TimeCrossingShare | total_util.py:58-65 | for speed > 0, L > 0 and t >= 0 the score is L / (t·speed + L) and lies in (0, 1] |
| TotalUtility.MovingSpeedPositive | total_util.py:88-89 | a car not stopped has positive speed, so time_util cannot divide by zero speed |
| TotalUtility.TotalUtil | total_util.py:85-93 | no contract of its own; see TotalNoneIffStopped, TotalIsWeightedSum, TotalForAction0, TotalAction0OnlySafetyVaries, TotalUncoveredLightRaises, TotalExample |
| TotalUtility.TotalNoneIffStopped | total_util.py:89-90 | total_util returns None exactly when ud and vd are both 0 |
| TotalUtility.TotalIsWeightedSum | total_util.py:91-93 | a moving car with four weights gets a value exactly when legal, time and comfort return values, and it is the dot product of the weights with [safety, legal, time, comfort] |
| TotalUtility.TotalForAction0 | total_util.py:85-93 | for action 0 on a moving car with four weights the legal, time and comfort scores are all 1, so the utility is w0·safety + w1 + w2 + w3 |
| TotalUtility.TotalAction0OnlySafetyVaries | total_util.py:85-93 | for action 0 the utility does not depend on the light state, its timing, the intersection length, the stop line, the deceleration, gamma or the random draw |
| TotalUtility.TotalUncoveredLightRaises | total_util.py:44-48 | for action 1 with a light state outside 0..2, legal_util's None makes np.dot raise TypeError |
| TotalUtility.TotalExample | total_util.py:96-105 | the example call at the foot of the file scores 2 + 1/31 + 3/6403 |

## Left out

- Floating point: every number is a real. Rounding, overflow, NaN, infinities and
  signed zero are not modelled. Python's int/float distinction is not modelled
  either (legal_util returning `1` rather than `1.0`, say).
- `np.arange(0, 1.5, 0.01)` is taken to yield 150 values. The model advances an
  integer step counter and does not reproduce float drift.
- `np.arctan2`, `np.cos`, `np.sin`, `np.linalg.norm`, `** 0.5` and `math.exp` are
  parameters constrained only by the laws in `Maths.Lawful`, not defined functions.
- `random.betavariate(1.86, 1)` is the parameter `draw`. Its distribution is not
  modelled, and `Legal.LegalUtilInUnitRange` assumes the draw lies in [0, 1], as a
  Beta variate does.
- CollDetectFacts.CheckCollisionSound: only soundness is proved. Rectangles that
  share a point are reported overlapping. The converse is not proved: that
  disjoint rectangles are always separated by one of the edge axes, the
  separating axis theorem for rectangles.
- Safety.SafetyTermInUnitInterval: only beta >= 0 is covered. A negative beta lets
  a term exceed 1, and `math.exp` could overflow; that is not modelled.
- Unpacking tuples of the wrong length (`car_data_d`, the items of
  `car_data_i_lst`) would raise ValueError. The datatypes `EgoData` and
  `OtherData` fix the arity, so this cannot arise in the model.
- The collision flag of each other car is computed by the modelled predictor. The
  safety lemmas take only its 0/1 range from it.
- Printing and module-level test data are side effects, not logic:
  coll_detect_g.py:138-147, safety.py:4-16, 37 and 41-46, total_util.py:92 and
  legal.py:23. The flags the model derives for four of the inputs listed in
  coll_detect_g.py are proved as scenario lemmas, and the call at total_util.py:105 as
  `TotalUtility.TotalExample`.
- `predictor` (total_util.py:108-115) reads the undefined names `ud` and `vd` and
  the test globals, so it cannot run as written.
- time.py is not part of this model. Its `time_util` reads the undefined names
  `light_state` and `length`, so every call with action 1 raises NameError. The
  working version is the one in total_util.py.
- The `weighting` and `weighting_tuning` arrays (total_util.py:81-82) are
  constants; the model takes the weights as a parameter.
