/**
 legal_util: how lawful the chosen action is, given the traffic light and
 whether the car is past the stop line. The same function appears in
 total_util.py and legal.py; it is defined once here.
 */
module Legal {
  import opened Outcomes

  /**
   Action codes, as the code branches on them. The functions disagree on
   which code means braking: legal_util and saf_util treat 0 as braking,
   comfort_util and time_util treat 1 as braking, so the codes are named
   by number.
   */
  const Action0: int := 0
  const Action1: int := 1

  /** Traffic-light codes. */
  const Green: int := 0
  const Red: int := 1
  const Amber: int := 2

  /** Stop-line code for a car already past the line. */
  const PastLine: int := 0

  /**
   legal_util(action, traff_state, stop_line_state), where `draw` is the
   value random.betavariate(1.86, 1) returns when the amber branch asks for
   one. Combinations no branch matches fall off the end and return None.
   */
  function LegalUtil(action: int, traffState: int, stopLineState: int, draw: real): (r: Outcome<real>)
    ensures !r.Raises?
  {
    if action == Action0 then
      Returns(1.0)
    else if action == Action1 && traffState == Green then
      Returns(1.0)
    else if action == Action1 && traffState == Red then
      Returns(0.0)
    else if action == Action1 && traffState == Amber then
      if stopLineState == PastLine then Returns(1.0) else Returns(draw)
    else
      ReturnsNone
  }

  /** An action and light state the table has a row for. */
  predicate Covered(action: int, traffState: int) {
    action == Action0 || (action == Action1 && (traffState == Green || traffState == Red || traffState == Amber))
  }

  /** The table returns a value exactly on the combinations it covers, and None elsewhere. */
  lemma LegalNoneIffUncovered(action: int, traffState: int, stopLineState: int, draw: real)
    ensures LegalUtil(action, traffState, stopLineState, draw).ReturnsNone? <==> !Covered(action, traffState)
    ensures LegalUtil(action, traffState, stopLineState, draw).Returns? <==> Covered(action, traffState)
  {
  }

  /** Action 0 is always fully lawful, whatever the light and the stop line. */
  lemma LegalAction0AlwaysOne(traffState: int, stopLineState: int, draw: real)
    ensures LegalUtil(Action0, traffState, stopLineState, draw) == Returns(1.0)
  {
  }

  /** Action 1: green is fully lawful, red not at all. */
  lemma LegalAction1GreenRed(stopLineState: int, draw: real)
    ensures LegalUtil(Action1, Green, stopLineState, draw) == Returns(1.0)
    ensures LegalUtil(Action1, Red, stopLineState, draw) == Returns(0.0)
  {
  }

  /**
   Action 1 at amber: past the stop line it is fully lawful; otherwise
   the score is the Beta(1.86, 1) draw.
   */
  lemma LegalAction1Amber(stopLineState: int, draw: real)
    ensures stopLineState == PastLine ==> LegalUtil(Action1, Amber, stopLineState, draw) == Returns(1.0)
    ensures stopLineState != PastLine ==> LegalUtil(Action1, Amber, stopLineState, draw) == Returns(draw)
  {
  }

  /**
   The random draw matters only for action 1 at amber before the stop
   line: everywhere else two draws give the same answer.
   */
  lemma LegalDrawMattersOnlyAtAmber(action: int, traffState: int, stopLineState: int, d1: real, d2: real)
    requires LegalUtil(action, traffState, stopLineState, d1) != LegalUtil(action, traffState, stopLineState, d2)
    ensures action == Action1 && traffState == Amber && stopLineState != PastLine
  {
  }

  /** A draw in [0, 1], as Beta(1.86, 1) yields, keeps every score in [0, 1]. */
  lemma LegalUtilInUnitRange(action: int, traffState: int, stopLineState: int, draw: real)
    requires 0.0 <= draw <= 1.0
    ensures var r := LegalUtil(action, traffState, stopLineState, draw);
      r.Returns? ==> 0.0 <= r.value <= 1.0
  {
  }
}
