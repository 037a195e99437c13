/**
 saf_util: the safety score of an action, one term per other car, each
 term exp(-(speed_i + speed_d) * k_i * beta) where k_i is the collision
 flag the predictor returns for that car. This module holds the loop both
 copies share and the copy in safety.py, which has no empty-list guard.
 */
module Safety {
  import opened Reals
  import opened Geometry
  import opened Maths
  import opened CollDetect
  import Legal

  /** car_data_d: centre, velocity, length and width of the ego car. */
  datatype EgoData = EgoData(x: real, y: real, u: real, v: real, l: real, w: real)

  /**
   One item of car_data_i_lst: front point, velocity, end point and width
   of another car.
   */
  datatype OtherData = OtherData(x: real, y: real, u: real, v: real, ex: real, ey: real, w: real)

  /** The ego car the collision queries see: action 0 sets its velocity to zero. */
  function QueriedEgo(d: EgoData, action: int): (q: EgoData)
    ensures q.x == d.x && q.y == d.y && q.l == d.l && q.w == d.w
    ensures action == Legal.Action0 ==> q.u == 0.0 && q.v == 0.0
    ensures action != Legal.Action0 ==> q == d
  {
    if action == Legal.Action0 then d.(u := 0.0, v := 0.0) else d
  }

  function SquaredSpeed(u: real, v: real): (s: real)
    ensures 0.0 <= s
  {
    SquareNonNegative(u);
    SquareNonNegative(v);
    u * u + v * v
  }

  /** The flag simulate_collision_updated returns for the two cars. */
  function CollisionFlag(d: EgoData, o: OtherData, f: Fns): (k: int)
    requires Lawful(f)
    ensures k == 0 || k == 1
  {
    Simulate(d.x, d.y, o.x, o.y, d.u, d.v, o.u, o.v, o.ex, o.ey, d.l, d.w, o.w, f)
  }

  /**
   The term exp(-(speed_i + speed_d) * k_i * beta) one other car adds to
   the sum, given the flag k_i the predictor returned for it.
   */
  function SafetyTerm(d: EgoData, o: OtherData, k: int, beta: real, f: Fns): real {
    f.exp(-(SquaredSpeed(o.u, o.v) + SquaredSpeed(d.u, d.v)) * (k as real) * beta)
  }

  /**
   The loop of saf_util over `others` in list order, starting from 0, for
   the ego car `d` as the queries see it.
   */
  function SafetySum(d: EgoData, others: seq<OtherData>, beta: real, f: Fns): real
    requires Lawful(f)
    decreases |others|
  {
    if |others| == 0 then
      0.0
    else
      var o := others[|others| - 1];
      SafetySum(d, others[..|others| - 1], beta, f) + SafetyTerm(d, o, CollisionFlag(d, o, f), beta, f)
  }

  /** saf_util as safety.py writes it: no guard for an empty list. */
  function SafUtil(d: EgoData, others: seq<OtherData>, action: int, beta: real, f: Fns): (r: real)
    requires Lawful(f)
    ensures others == [] ==> r == 0.0
  {
    SafetySum(QueriedEgo(d, action), others, beta, f)
  }

  /** A car the predictor does not flag contributes exactly exp(0) = 1. */
  lemma SafetyTermNoCollision(d: EgoData, o: OtherData, beta: real, f: Fns)
    requires Lawful(f)
    ensures SafetyTerm(d, o, 0, beta, f) == 1.0
  {
    var s := SquaredSpeed(o.u, o.v) + SquaredSpeed(d.u, d.v);
    assert -s * (0 as real) * beta == 0.0;
  }

  /** With beta >= 0 every term lies in (0, 1]. */
  lemma SafetyTermInUnitInterval(d: EgoData, o: OtherData, k: int, beta: real, f: Fns)
    requires Lawful(f)
    requires (k == 0 || k == 1) && 0.0 <= beta
    ensures 0.0 < SafetyTerm(d, o, k, beta, f) <= 1.0
  {
    var s := SquaredSpeed(o.u, o.v) + SquaredSpeed(d.u, d.v);
    NonNegativeProduct(s, k as real);
    NonNegativeProduct(s * (k as real), beta);
    NegMul(s, k as real);
    NegMul(s * (k as real), beta);
    assert -s * (k as real) * beta <= 0.0;
  }

  /** With beta >= 0 the sum over n cars lies in [0, n], and is positive when n > 0. */
  lemma {:induction false} SafetySumBounds(d: EgoData, others: seq<OtherData>, beta: real, f: Fns)
    requires Lawful(f)
    requires 0.0 <= beta
    ensures 0.0 <= SafetySum(d, others, beta, f) <= |others| as real
    ensures 0 < |others| ==> 0.0 < SafetySum(d, others, beta, f)
    decreases |others|
  {
    if 0 < |others| {
      var o := others[|others| - 1];
      SafetySumBounds(d, others[..|others| - 1], beta, f);
      SafetyTermInUnitInterval(d, o, CollisionFlag(d, o, f), beta, f);
    }
  }

  /** When the predictor flags none of the cars, the sum is the number of cars. */
  lemma {:induction false} SafetySumNoCollisions(d: EgoData, others: seq<OtherData>, beta: real, f: Fns)
    requires Lawful(f)
    requires forall j :: 0 <= j < |others| ==> CollisionFlag(d, others[j], f) == 0
    ensures SafetySum(d, others, beta, f) == |others| as real
    decreases |others|
  {
    if 0 < |others| {
      var init := others[..|others| - 1];
      assert forall j :: 0 <= j < |init| ==> init[j] == others[j];
      SafetySumNoCollisions(d, init, beta, f);
      SafetyTermNoCollision(d, others[|others| - 1], beta, f);
    }
  }

  /**
   For action 0, the result does not depend on the ego car's velocity at
   all: the queries and the speed term both see it standing still.
   */
  lemma SafUtilAction0IgnoresVelocity(d: EgoData, u: real, v: real, others: seq<OtherData>, beta: real, f: Fns)
    requires Lawful(f)
    ensures SafUtil(d, others, Legal.Action0, beta, f) == SafUtil(d.(u := u, v := v), others, Legal.Action0, beta, f)
  {
    assert QueriedEgo(d, Legal.Action0) == QueriedEgo(d.(u := u, v := v), Legal.Action0);
  }

  /** With beta >= 0 the score of n cars lies in [0, n]; for no cars it is 0. */
  lemma SafUtilBounds(d: EgoData, others: seq<OtherData>, action: int, beta: real, f: Fns)
    requires Lawful(f)
    requires 0.0 <= beta
    ensures 0.0 <= SafUtil(d, others, action, beta, f) <= |others| as real
    ensures 0 < |others| ==> 0.0 < SafUtil(d, others, action, beta, f)
  {
    SafetySumBounds(QueriedEgo(d, action), others, beta, f);
  }

  /** If no other car is flagged the score is the number of cars. */
  lemma SafUtilNoCollisions(d: EgoData, others: seq<OtherData>, action: int, beta: real, f: Fns)
    requires Lawful(f)
    requires forall j :: 0 <= j < |others| ==> CollisionFlag(QueriedEgo(d, action), others[j], f) == 0
    ensures SafUtil(d, others, action, beta, f) == |others| as real
  {
    SafetySumNoCollisions(QueriedEgo(d, action), others, beta, f);
  }
}
