/**
 comfort_util: how comfortable the chosen action is, falling with the
 square of the jerk ad / 1.5 that action 1 causes. The same function appears
 in total_util.py and comfort.py; it is defined once here.
 */
module Comfort {
  import opened Outcomes
  import opened Reals
  import Legal

  /** The jerk each action causes: none for action 0, ad / 1.5 for action 1. */
  function Jerk(ad: real, action: int): real
    requires action == Legal.Action0 || action == Legal.Action1
  {
    if action == Legal.Action0 then 0.0 else ad / 1.5
  }

  /** The discomfort term gamma * jerk ** 2 of the denominator. */
  function Penalty(ad: real, gamma: real, action: int): real
    requires action == Legal.Action0 || action == Legal.Action1
  {
    var jerk := Jerk(ad, action);
    gamma * (jerk * jerk)
  }

  /**
   comfort_util(ad, gamma, action). An action other than 0 or 1 leaves
   `jerk` unassigned, so reading it raises; a denominator of zero (only
   possible for a negative gamma) raises too.
   */
  function ComfortUtil(ad: real, gamma: real, action: int): (r: Outcome<real>)
    ensures !r.ReturnsNone?
    ensures r == Raises(UnboundLocalError) <==> action != Legal.Action0 && action != Legal.Action1
  {
    if action != Legal.Action0 && action != Legal.Action1 then
      Raises(UnboundLocalError)
    else
      var denom := 1.0 + Penalty(ad, gamma, action);
      if denom == 0.0 then Raises(ZeroDivisionError) else Returns(1.0 / denom)
  }

  /** Action 0 is perfectly comfortable, whatever gamma and ad. */
  lemma ComfortAction0IsOne(ad: real, gamma: real)
    ensures ComfortUtil(ad, gamma, Legal.Action0) == Returns(1.0)
  {
    assert Penalty(ad, gamma, Legal.Action0) == 0.0;
    assert ComfortUtil(ad, gamma, Legal.Action0).value == 1.0;
  }

  /** With no deceleration either action is perfectly comfortable. */
  lemma ComfortNoDecelerationIsOne(gamma: real, action: int)
    requires action == Legal.Action0 || action == Legal.Action1
    ensures ComfortUtil(0.0, gamma, action) == Returns(1.0)
  {
    assert Jerk(0.0, action) == 0.0;
    assert Penalty(0.0, gamma, action) == 0.0;
    assert ComfortUtil(0.0, gamma, action).value == 1.0;
  }

  /** For gamma >= 0 the score is defined and lies in (0, 1]. */
  lemma ComfortInUnitInterval(ad: real, gamma: real, action: int)
    requires action == Legal.Action0 || action == Legal.Action1
    requires 0.0 <= gamma
    ensures var r := ComfortUtil(ad, gamma, action);
      r.Returns? && 0.0 < r.value <= 1.0
  {
    var jerk := Jerk(ad, action);
    SquareNonNegative(jerk);
    NonNegativeProduct(gamma, jerk * jerk);
    var denom := 1.0 + Penalty(ad, gamma, action);
    assert 1.0 <= denom;
    ReciprocalAntitone(1.0, denom);
  }

  /** The score depends on ad only through ad * ad: its sign does not matter. */
  lemma ComfortEvenInDeceleration(ad: real, gamma: real, action: int)
    ensures ComfortUtil(-ad, gamma, action) == ComfortUtil(ad, gamma, action)
  {
    if action == Legal.Action0 || action == Legal.Action1 {
      var j := Jerk(ad, action);
      assert Jerk(-ad, action) == -j;
      NegSquare(j);
      assert Penalty(-ad, gamma, action) == Penalty(ad, gamma, action);
    }
  }

  /**
   The score can be read back: 1 / score - 1 is gamma times the squared
   jerk, so the score determines the jerk penalty.
   */
  lemma ComfortRecoversPenalty(ad: real, gamma: real, action: int)
    requires action == Legal.Action0 || action == Legal.Action1
    requires ComfortUtil(ad, gamma, action).Returns?
    ensures var v := ComfortUtil(ad, gamma, action).value;
      v != 0.0 && 1.0 / v - 1.0 == gamma * (Jerk(ad, action) * Jerk(ad, action))
  {
  }

  /** With gamma >= 0, a harder deceleration never scores higher. */
  lemma ComfortAntitone(ad1: real, ad2: real, gamma: real)
    requires 0.0 <= gamma
    requires ad1 * ad1 <= ad2 * ad2
    ensures ComfortUtil(ad2, gamma, Legal.Action1).Returns? && ComfortUtil(ad1, gamma, Legal.Action1).Returns?
    ensures ComfortUtil(ad2, gamma, Legal.Action1).value <= ComfortUtil(ad1, gamma, Legal.Action1).value
  {
    ComfortInUnitInterval(ad1, gamma, Legal.Action1);
    ComfortInUnitInterval(ad2, gamma, Legal.Action1);
    var j1, j2 := ad1 / 1.5, ad2 / 1.5;
    assert j1 * j1 == (ad1 * ad1) / 2.25;
    assert j2 * j2 == (ad2 * ad2) / 2.25;
    assert j1 * j1 <= j2 * j2;
    var e1, e2 := 1.0 + gamma * (j1 * j1), 1.0 + gamma * (j2 * j2);
    assert e1 <= e2 by {
      NonNegativeProduct(gamma, j2 * j2 - j1 * j1);
    }
    SquareNonNegative(j1);
    NonNegativeProduct(gamma, j1 * j1);
    ReciprocalAntitone(e1, e2);
  }

}
