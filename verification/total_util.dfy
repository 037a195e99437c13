/**
 total_util.py: the time score, the guarded copy of saf_util, and
 total_util, which weighs the safety, legal, time and comfort scores of
 one action into a single utility.
 */
module TotalUtility {
  import opened Reals
  import opened Maths
  import opened Outcomes
  import opened Legal
  import opened Comfort
  import opened Safety

  // ---------------------------------------------------------------------
  // saf_util
  // ---------------------------------------------------------------------

  /** saf_util as total_util.py writes it: an empty list of other cars scores 1. */
  function SafUtil(d: EgoData, others: seq<OtherData>, action: int, beta: real, f: Fns): (r: real)
    requires Lawful(f)
    ensures others == [] ==> r == 1.0
  {
    if |others| == 0 then 1.0 else SafetySum(QueriedEgo(d, action), others, beta, f)
  }

  /**
   The two copies of saf_util agree on every non-empty list and differ
   only on the empty one, where this copy answers 1 and safety.py 0.
   */
  lemma SafUtilCopiesAgree(d: EgoData, others: seq<OtherData>, action: int, beta: real, f: Fns)
    requires Lawful(f)
    ensures others != [] ==> SafUtil(d, others, action, beta, f) == Safety.SafUtil(d, others, action, beta, f)
    ensures others == [] ==> SafUtil(d, others, action, beta, f) == Safety.SafUtil(d, others, action, beta, f) + 1.0
  {
  }

  /** With beta >= 0 the score is positive and at most max(1, number of cars). */
  lemma SafUtilBounds(d: EgoData, others: seq<OtherData>, action: int, beta: real, f: Fns)
    requires Lawful(f)
    requires 0.0 <= beta
    ensures 0.0 < SafUtil(d, others, action, beta, f)
    ensures SafUtil(d, others, action, beta, f) <= if others == [] then 1.0 else |others| as real
  {
    Safety.SafUtilBounds(d, others, action, beta, f);
  }

  // ---------------------------------------------------------------------
  // time_util
  // ---------------------------------------------------------------------

  /** The light time time_util uses: 60 s when light_time is -1. */
  function LightTime(lightTime: real): real {
    if lightTime == -1.0 then 60.0 else lightTime
  }

  /** Python's truth value of an int. */
  predicate Truthy(n: int) {
    n != 0
  }

  /**
   time_util(speed_d, action, traff_state, light_time, intersection_length).
   The second test reads `action == 1 and traff_state == 1 or 2`, which
   Python groups as `(action == 1 and traff_state == 1) or 2`; it is written
   here the same way. Dividing by a zero speed or a zero `t + L / speed`
   raises.
   */
  function TimeUtil(speed: real, action: int, traffState: int, lightTime: real, len: real): (r: Outcome<real>)
    ensures !r.ReturnsNone?
  {
    var t := LightTime(lightTime);
    if action == Action0 then
      Returns(1.0)
    else if (action == Action1 && traffState == Red) || Truthy(2) then
      if speed == 0.0 then
        Raises(ZeroDivisionError)
      else if t + len / speed == 0.0 then
        Raises(ZeroDivisionError)
      else
        Returns((len / (t + len / speed)) / speed)
    else if action == Action1 && traffState == Green then
      Returns(0.0)
    else
      ReturnsNone
  }

  /** Action 0 scores 1, whatever the speed, light and intersection. */
  lemma TimeAction0IsOne(speed: real, traffState: int, lightTime: real, len: real)
    ensures TimeUtil(speed, Action0, traffState, lightTime, len) == Returns(1.0)
  {
  }

  /**
   For every action but 0 the light does not matter: the outcome, a value
   or a raised error, is the one a green light gives.
   */
  lemma TimeIgnoresLight(speed: real, action: int, traffState: int, lightTime: real, len: real)
    requires action != Action0
    ensures TimeUtil(speed, action, traffState, lightTime, len) == TimeUtil(speed, action, Green, lightTime, len)
  {
  }

  /**
   Every action but 0 with non-zero divisors takes the crossing-time
   branch: the green branch that would return 0, and the fall-through, are
   never reached.
   */
  lemma TimeCrossingValue(speed: real, action: int, traffState: int, lightTime: real, len: real)
    requires action != Action0
    requires speed != 0.0 && LightTime(lightTime) + len / speed != 0.0
    ensures var t := LightTime(lightTime);
      TimeUtil(speed, action, traffState, lightTime, len) == Returns((len / (t + len / speed)) / speed)
  {
  }

  /**
   For a moving car, a positive intersection length and a light time of
   at least 0, the time score is L / (t * speed + L): the share of the
   total t + L / speed that the crossing time L / speed takes.
   It lies in (0, 1].
   */
  lemma TimeCrossingShare(speed: real, action: int, traffState: int, lightTime: real, len: real)
    requires action != Action0
    requires 0.0 < speed && 0.0 < len && 0.0 <= LightTime(lightTime)
    ensures var t, r := LightTime(lightTime), TimeUtil(speed, action, traffState, lightTime, len);
      && r.Returns?
      && t * speed + len != 0.0
      && r.value == len / (t * speed + len)
      && 0.0 < r.value <= 1.0
  {
    var t := LightTime(lightTime);
    var q := len / speed;
    assert 0.0 < q;
    var den := t + q;
    assert 0.0 < den;
    var inner := len / den;
    assert den * speed == t * speed + len by {
      assert q * speed == len;
    }
    assert inner / speed == len / (den * speed) by {
      assert inner * den == len;
      assert (inner / speed) * (den * speed) == inner * den;
    }
    NonNegativeProduct(t, speed);
    ReciprocalAntitone(len, t * speed + len);
    assert len / (t * speed + len) == len * (1.0 / (t * speed + len));
    assert 0.0 < len / (t * speed + len);
  }

  // ---------------------------------------------------------------------
  // total_util
  // ---------------------------------------------------------------------

  /** The four scores in the order total_util lists them. */
  datatype Scores = Scores(safety: real, legal: real, time: real, comfort: real)

  /** np.dot of a four-element weight vector with the scores. */
  function Weigh(weights: seq<real>, s: Scores): real
    requires |weights| == 4
  {
    weights[0] * s.safety + weights[1] * s.legal + weights[2] * s.time + weights[3] * s.comfort
  }

  /** Whether the ego car stands still, Python's `ud == vd == 0`. */
  predicate Stopped(d: EgoData) {
    d.u == d.v && d.v == 0.0
  }

  /**
   total_util(action, weighting, car_data_d, car_data_i_lst, beta,
   traff_state, light_time, intersection_length, stop_line_state, ad, gamma),
   with `draw` the Beta(1.86, 1) value legal_util may ask for. A stopped
   ego car gives None. Otherwise the four scores are computed in order,
   the first exception among them propagates, and np.dot raises when the
   weights are not four long or a score is None.
   */
  function TotalUtil(action: int, weights: seq<real>, d: EgoData, others: seq<OtherData>, beta: real,
                     traffState: int, lightTime: real, len: real, stopLineState: int,
                     ad: real, gamma: real, draw: real, f: Fns): (r: Outcome<real>)
    requires Lawful(f)
  {
    var speed := Norm(d.u, d.v, f);
    if Stopped(d) then
      ReturnsNone
    else
      var safety := SafUtil(d, others, action, beta, f);
      var legal := LegalUtil(action, traffState, stopLineState, draw);
      var time := TimeUtil(speed, action, traffState, lightTime, len);
      var comfort := ComfortUtil(ad, gamma, action);
      if time.Raises? then
        Raises(time.error)
      else if comfort.Raises? then
        Raises(comfort.error)
      else if |weights| != 4 then
        Raises(ValueError)
      else if !legal.Returns? || !time.Returns? then
        Raises(TypeError)
      else
        Returns(Weigh(weights, Scores(safety, legal.value, time.value, comfort.value)))
  }

  /** total_util returns None exactly when the ego car stands still. */
  lemma TotalNoneIffStopped(action: int, weights: seq<real>, d: EgoData, others: seq<OtherData>, beta: real,
                            traffState: int, lightTime: real, len: real, stopLineState: int,
                            ad: real, gamma: real, draw: real, f: Fns)
    requires Lawful(f)
    ensures TotalUtil(action, weights, d, others, beta, traffState, lightTime, len, stopLineState, ad, gamma, draw, f).ReturnsNone?
        <==> d.u == 0.0 && d.v == 0.0
  {
  }

  /**
   A moving ego car with four weights gets a value exactly when each of
   the legal, time and comfort scores is a value, and then the value is
   the weighted sum of the four scores in the order safety, legal, time,
   comfort.
   */
  lemma TotalIsWeightedSum(action: int, weights: seq<real>, d: EgoData, others: seq<OtherData>, beta: real,
                           traffState: int, lightTime: real, len: real, stopLineState: int,
                           ad: real, gamma: real, draw: real, f: Fns)
    requires Lawful(f)
    requires !Stopped(d) && |weights| == 4
    ensures var r := TotalUtil(action, weights, d, others, beta, traffState, lightTime, len, stopLineState, ad, gamma, draw, f);
      var legal := LegalUtil(action, traffState, stopLineState, draw);
      var time := TimeUtil(Norm(d.u, d.v, f), action, traffState, lightTime, len);
      var comfort := ComfortUtil(ad, gamma, action);
      && (r.Returns? <==> legal.Returns? && time.Returns? && comfort.Returns?)
      && (r.Returns? ==> r.value == Weigh(weights, Scores(SafUtil(d, others, action, beta, f), legal.value, time.value, comfort.value)))
  {
  }

  /** A moving car is never at speed 0, so the time score cannot divide by it. */
  lemma MovingSpeedPositive(d: EgoData, f: Fns)
    requires Lawful(f)
    requires !Stopped(d)
    ensures 0.0 < Norm(d.u, d.v, f)
  {
    SumOfSquaresPositive(d.u, d.v);
  }

  /**
   Action 0 on a moving car with four weights: the legal, time and comfort
   scores are all 1, so the utility is w0 * safety + w1 + w2 + w3.
   */
  lemma TotalForAction0(weights: seq<real>, d: EgoData, others: seq<OtherData>, beta: real,
                        traffState: int, lightTime: real, len: real, stopLineState: int,
                        ad: real, gamma: real, draw: real, f: Fns)
    requires Lawful(f)
    requires !Stopped(d) && |weights| == 4
    ensures TotalUtil(Action0, weights, d, others, beta, traffState, lightTime, len, stopLineState, ad, gamma, draw, f)
         == Returns(Weigh(weights, Scores(SafUtil(d, others, Action0, beta, f), 1.0, 1.0, 1.0)))
  {
    ComfortAction0IsOne(ad, gamma);
    TimeAction0IsOne(Norm(d.u, d.v, f), traffState, lightTime, len);
    LegalAction0AlwaysOne(traffState, stopLineState, draw);
  }

  /**
   For action 0 only the safety score varies: the utility does not depend
   on the light, its timing, the intersection, the stop line, the
   deceleration, gamma or the random draw.
   */
  lemma TotalAction0OnlySafetyVaries(weights: seq<real>, d: EgoData, others: seq<OtherData>, beta: real,
                                     traffState: int, lightTime: real, len: real, stopLineState: int,
                                     ad: real, gamma: real, draw: real,
                                     traffState': int, lightTime': real, len': real, stopLineState': int,
                                     ad': real, gamma': real, draw': real, f: Fns)
    requires Lawful(f)
    ensures TotalUtil(Action0, weights, d, others, beta, traffState, lightTime, len, stopLineState, ad, gamma, draw, f)
         == TotalUtil(Action0, weights, d, others, beta, traffState', lightTime', len', stopLineState', ad', gamma', draw', f)
  {
    if !Stopped(d) && |weights| == 4 {
      TotalForAction0(weights, d, others, beta, traffState, lightTime, len, stopLineState, ad, gamma, draw, f);
      TotalForAction0(weights, d, others, beta, traffState', lightTime', len', stopLineState', ad', gamma', draw', f);
    } else if !Stopped(d) {
      ComfortAction0IsOne(ad, gamma);
      ComfortAction0IsOne(ad', gamma');
      TimeAction0IsOne(Norm(d.u, d.v, f), traffState, lightTime, len);
      TimeAction0IsOne(Norm(d.u, d.v, f), traffState', lightTime', len');
    }
  }

  /**
   Action 1 at a light state the legal table does not cover leaves the
   legal score None, and the weighting then raises a TypeError.
   */
  lemma TotalUncoveredLightRaises(weights: seq<real>, d: EgoData, others: seq<OtherData>, beta: real,
                                  traffState: int, lightTime: real, len: real, stopLineState: int,
                                  ad: real, gamma: real, draw: real, f: Fns)
    requires Lawful(f)
    requires !Stopped(d) && |weights| == 4 && 0.0 <= gamma
    requires traffState != Green && traffState != Red && traffState != Amber
    requires TimeUtil(Norm(d.u, d.v, f), Action1, traffState, lightTime, len).Returns?
    ensures TotalUtil(Action1, weights, d, others, beta, traffState, lightTime, len, stopLineState, ad, gamma, draw, f)
         == Raises(TypeError)
  {
    ComfortInUnitInterval(ad, gamma, Action1);
  }

  /**
   The call at the foot of total_util.py: action 1 at 10 m/s towards a
   green light 20 m ahead with no other cars, unit weights, beta 0.01,
   the default light time, ad = 40 and gamma = 3, scores
   1 + 1 + 1/31 + 3/6403.
   */
  lemma TotalExample(draw: real, f: Fns)
    requires Lawful(f)
    ensures TotalUtil(Action1, [1.0, 1.0, 1.0, 1.0], EgoData(0.0, 0.0, 10.0, 0.0, 4.5, 1.8), [], 0.01,
                      Green, -1.0, 20.0, 0, 40.0, 3.0, draw, f)
         == Returns(2.0 + 1.0 / 31.0 + 3.0 / 6403.0)
  {
    var d := EgoData(0.0, 0.0, 10.0, 0.0, 4.5, 1.8);
    assert Norm(d.u, d.v, f) == 10.0 by {
      SqrtOfSquare(f, 10.0);
      assert d.u * d.u + d.v * d.v == 10.0 * 10.0;
    }
    assert TimeUtil(10.0, Action1, Green, -1.0, 20.0) == Returns(1.0 / 31.0) by {
      assert LightTime(-1.0) == 60.0;
      assert 20.0 / 10.0 == 2.0;
      assert 20.0 / (60.0 + 2.0) / 10.0 == 1.0 / 31.0;
    }
    assert Penalty(40.0, 3.0, Action1) == 6400.0 / 3.0;
    assert ComfortUtil(40.0, 3.0, Action1).value == 3.0 / 6403.0;
  }
}
