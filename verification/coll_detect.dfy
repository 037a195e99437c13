/**
 The collision predictor of coll_detect_g.py: two cars are oriented
 rectangles that move in straight lines at constant velocity; a
 Separating Axis test on the edge directions of both rectangles decides
 whether they overlap, and the simulator asks that question after each of
 150 steps of 0.01 s.
 */
module CollDetect {
  import opened Reals
  import opened Geometry
  import opened Maths

  // ---------------------------------------------------------------------
  // update_position
  // ---------------------------------------------------------------------

  /** The position one explicit Euler step of length `dt` later. */
  function UpdatePosition(pos: Point, vel: Point, dt: real): (r: Point)
    ensures Sub(r, pos) == Scale(dt, vel)
    ensures vel == Origin || dt == 0.0 ==> r == pos
  {
    Point(pos.x + vel.x * dt, pos.y + vel.y * dt)
  }

  /** Two steps with the same velocity make one step of the summed length. */
  lemma UpdatePositionCompose(pos: Point, vel: Point, a: real, b: real)
    ensures UpdatePosition(UpdatePosition(pos, vel, a), vel, b) == UpdatePosition(pos, vel, a + b)
  {
  }

  /** A step backwards undoes a step forwards. */
  lemma UpdatePositionUndo(pos: Point, vel: Point, dt: real)
    ensures UpdatePosition(UpdatePosition(pos, vel, dt), vel, -dt) == pos
  {
    UpdatePositionCompose(pos, vel, dt, -dt);
  }

  // ---------------------------------------------------------------------
  // get_corners
  // ---------------------------------------------------------------------

  /** The four corners of a rectangle, in the order get_corners lists them. */
  type Quad = q: seq<Point> | |q| == 4 witness [Origin, Origin, Origin, Origin]

  /**
   The point at offset `a` along the heading and `b` along its clockwise
   normal from `pos`.
   */
  function Local(pos: Point, h: Heading, a: real, b: real): Point {
    Add(pos, Add(Scale(a, Forward(h)), Scale(b, Side(h))))
  }

  /**
   The corners of the rectangle centred at `pos`, `l` long along the
   heading `h` and `w` wide across it, in the order get_corners lists them.
   */
  function RectCorners(pos: Point, l: real, w: real, h: Heading): Quad {
    var c, s := h.c, h.s;
    [ Point(pos.x - l / 2.0 * c - w / 2.0 * s, pos.y - l / 2.0 * s + w / 2.0 * c),
      Point(pos.x + l / 2.0 * c - w / 2.0 * s, pos.y + l / 2.0 * s + w / 2.0 * c),
      Point(pos.x + l / 2.0 * c + w / 2.0 * s, pos.y + l / 2.0 * s - w / 2.0 * c),
      Point(pos.x - l / 2.0 * c + w / 2.0 * s, pos.y - l / 2.0 * s - w / 2.0 * c) ]
  }

  /** get_corners: the rectangle is turned to face the way `vel` points. */
  function GetCorners(pos: Point, l: real, w: real, vel: Point, f: Fns): Quad {
    RectCorners(pos, l, w, f.heading(vel))
  }

  /**
   Corner `i` lies half the length forward or back along the heading and
   half the width to either side of it: behind-left, ahead-left,
   ahead-right, behind-right, with "right" the clockwise normal.
   */
  lemma RectCornerLocal(pos: Point, l: real, w: real, h: Heading, i: int)
    requires 0 <= i < 4
    ensures RectCorners(pos, l, w, h)[i]
         == Local(pos, h, if i == 1 || i == 2 then l / 2.0 else -l / 2.0,
                          if i == 2 || i == 3 then w / 2.0 else -w / 2.0)
  {
  }

  /**
   The corners are point-symmetric about the centre, and walking round them
   goes l along the heading, w across it, then back.
   */
  lemma RectCornersShape(pos: Point, l: real, w: real, h: Heading)
    ensures var q := RectCorners(pos, l, w, h);
      && Add(q[0], q[2]) == Scale(2.0, pos)
      && Add(q[1], q[3]) == Scale(2.0, pos)
      && EdgeAxis(q, 1) == Scale(l, Forward(h))
      && EdgeAxis(q, 2) == Scale(w, Side(h))
      && EdgeAxis(q, 3) == Scale(-l, Forward(h))
      && EdgeAxis(q, 0) == Scale(-w, Side(h))
  {
  }

  /**
   For a unit heading the edges alternate length l and w and meet at right
   angles.
   */
  lemma RectCornersRightAngles(pos: Point, l: real, w: real, h: Heading)
    requires IsUnit(h)
    ensures var q := RectCorners(pos, l, w, h);
      && Dot(EdgeAxis(q, 1), EdgeAxis(q, 1)) == l * l
      && Dot(EdgeAxis(q, 2), EdgeAxis(q, 2)) == w * w
      && Dot(EdgeAxis(q, 1), EdgeAxis(q, 2)) == 0.0
  {
    var q := RectCorners(pos, l, w, h);
    RectCornersShape(pos, l, w, h);
    assert Dot(Scale(l, Forward(h)), Scale(l, Forward(h))) == (l * l) * (h.c * h.c + h.s * h.s);
    assert Dot(Scale(w, Side(h)), Scale(w, Side(h))) == (w * w) * (h.s * h.s + h.c * h.c);
  }

  /** Facing along the x-axis, the rectangle is an axis-aligned box, length along x. */
  lemma RectCornersEast(pos: Point, l: real, w: real)
    ensures RectCorners(pos, l, w, East)
         == [ Point(pos.x - l / 2.0, pos.y + w / 2.0), Point(pos.x + l / 2.0, pos.y + w / 2.0),
              Point(pos.x + l / 2.0, pos.y - w / 2.0), Point(pos.x - l / 2.0, pos.y - w / 2.0) ]
  {
  }

  /** A car at rest is drawn as an axis-aligned box, length along x. */
  lemma GetCornersAtRest(pos: Point, l: real, w: real, f: Fns)
    requires Lawful(f)
    ensures GetCorners(pos, l, w, Origin, f)
         == [ Point(pos.x - l / 2.0, pos.y + w / 2.0), Point(pos.x + l / 2.0, pos.y + w / 2.0),
              Point(pos.x + l / 2.0, pos.y - w / 2.0), Point(pos.x - l / 2.0, pos.y - w / 2.0) ]
  {
    assert IsHeadingOf(f.heading(Origin), Origin);
    RectCornersEast(pos, l, w);
  }

  // ---------------------------------------------------------------------
  // projections_overlap
  // ---------------------------------------------------------------------

  function MaxOf(xs: seq<real>): (m: real)
    requires |xs| > 0
    ensures forall i :: 0 <= i < |xs| ==> xs[i] <= m
    ensures exists i :: 0 <= i < |xs| && xs[i] == m
  {
    if |xs| == 1 then xs[0]
    else
      var rest := MaxOf(xs[1..]);
      assert forall i :: 1 <= i < |xs| ==> xs[i] == xs[1..][i - 1];
      if xs[0] < rest then rest else xs[0]
  }

  function MinOf(xs: seq<real>): (m: real)
    requires |xs| > 0
    ensures forall i :: 0 <= i < |xs| ==> m <= xs[i]
    ensures exists i :: 0 <= i < |xs| && xs[i] == m
  {
    if |xs| == 1 then xs[0]
    else
      var rest := MinOf(xs[1..]);
      assert forall i :: 1 <= i < |xs| ==> xs[i] == xs[1..][i - 1];
      if rest < xs[0] then rest else xs[0]
  }

  /** The dot product of every corner with the axis. */
  function Projections(q: Quad, axis: Point): (ps: seq<real>)
    ensures |ps| == 4
  {
    seq(4, i requires 0 <= i < 4 => Dot(q[i], axis))
  }

  /**
   projections_overlap: false when the largest projection of one
   rectangle is below the smallest projection of the other.
   */
  function ProjectionsOverlap(q1: Quad, q2: Quad, axis: Point): bool {
    var p1, p2 := Projections(q1, axis), Projections(q2, axis);
    if MaxOf(p1) < MinOf(p2) || MaxOf(p2) < MinOf(p1) then false else true
  }

  /** Every corner of `q1` projects strictly below every corner of `q2`. */
  ghost predicate StrictlyBelow(q1: Quad, q2: Quad, axis: Point) {
    forall i, j :: 0 <= i < 4 && 0 <= j < 4 ==> Dot(q1[i], axis) < Dot(q2[j], axis)
  }

  /** The largest of `xs` is below the smallest of `ys` iff every x is below every y. */
  lemma MaxBelowMin(xs: seq<real>, ys: seq<real>)
    requires |xs| > 0 && |ys| > 0
    ensures MaxOf(xs) < MinOf(ys) <==> forall i, j :: 0 <= i < |xs| && 0 <= j < |ys| ==> xs[i] < ys[j]
  {
    if forall i, j :: 0 <= i < |xs| && 0 <= j < |ys| ==> xs[i] < ys[j] {
      var a :| 0 <= a < |xs| && xs[a] == MaxOf(xs);
      var b :| 0 <= b < |ys| && ys[b] == MinOf(ys);
      assert xs[a] < ys[b];
    }
  }

  lemma ProjectionsBelow(q1: Quad, q2: Quad, axis: Point)
    ensures MaxOf(Projections(q1, axis)) < MinOf(Projections(q2, axis)) <==> StrictlyBelow(q1, q2, axis)
  {
    var p1, p2 := Projections(q1, axis), Projections(q2, axis);
    MaxBelowMin(p1, p2);
    if StrictlyBelow(q1, q2, axis) {
      forall i, j | 0 <= i < 4 && 0 <= j < 4 ensures p1[i] < p2[j] {
        assert p1[i] == Dot(q1[i], axis) && p2[j] == Dot(q2[j], axis);
      }
    }
    if forall i, j :: 0 <= i < 4 && 0 <= j < 4 ==> p1[i] < p2[j] {
      forall i, j | 0 <= i < 4 && 0 <= j < 4 ensures Dot(q1[i], axis) < Dot(q2[j], axis) {
        assert p1[i] == Dot(q1[i], axis) && p2[j] == Dot(q2[j], axis);
      }
    }
  }

  /**
   The projections overlap exactly when neither corner set projects
   strictly below the other; touching projections count as overlapping.
   */
  lemma ProjectionsOverlapIff(q1: Quad, q2: Quad, axis: Point)
    ensures ProjectionsOverlap(q1, q2, axis)
        <==> !StrictlyBelow(q1, q2, axis) && !StrictlyBelow(q2, q1, axis)
  {
    ProjectionsBelow(q1, q2, axis);
    ProjectionsBelow(q2, q1, axis);
  }

  /** Two corner sets sharing a projected value overlap on that axis. */
  lemma SharedProjectionOverlaps(q1: Quad, q2: Quad, axis: Point, i: int, j: int)
    requires 0 <= i < 4 && 0 <= j < 4
    requires Dot(q1[i], axis) == Dot(q2[j], axis)
    ensures ProjectionsOverlap(q1, q2, axis)
  {
    ProjectionsOverlapIff(q1, q2, axis);
  }

  /** The order of the two rectangles does not matter. */
  lemma ProjectionsOverlapSwap(q1: Quad, q2: Quad, axis: Point)
    ensures ProjectionsOverlap(q1, q2, axis) == ProjectionsOverlap(q2, q1, axis)
  {
  }

  /** Scaling the axis by a positive factor keeps the order of two projections. */
  lemma DotOrderScale(p1: Point, p2: Point, axis: Point, k: real)
    requires 0.0 < k
    ensures Dot(p1, Scale(k, axis)) < Dot(p2, Scale(k, axis)) <==> Dot(p1, axis) < Dot(p2, axis)
  {
    DotScale(p1, axis, k);
    DotScale(p2, axis, k);
    MulStrictMono(k, Dot(p1, axis), Dot(p2, axis));
  }

  lemma StrictlyBelowScale(q1: Quad, q2: Quad, axis: Point, k: real)
    requires 0.0 < k
    ensures StrictlyBelow(q1, q2, Scale(k, axis)) <==> StrictlyBelow(q1, q2, axis)
  {
    forall i, j | 0 <= i < 4 && 0 <= j < 4
      ensures Dot(q1[i], Scale(k, axis)) < Dot(q2[j], Scale(k, axis)) <==> Dot(q1[i], axis) < Dot(q2[j], axis)
    {
      DotOrderScale(q1[i], q2[j], axis, k);
    }
  }

  /** Scaling the axis by a positive factor does not change the answer. */
  lemma ProjectionsOverlapScale(q1: Quad, q2: Quad, axis: Point, k: real)
    requires 0.0 < k
    ensures ProjectionsOverlap(q1, q2, Scale(k, axis)) == ProjectionsOverlap(q1, q2, axis)
  {
    StrictlyBelowScale(q1, q2, axis, k);
    StrictlyBelowScale(q2, q1, axis, k);
    ProjectionsOverlapIff(q1, q2, Scale(k, axis));
    ProjectionsOverlapIff(q1, q2, axis);
  }

  /** On the zero axis every projection is 0, so the projections overlap. */
  lemma ProjectionsOverlapZeroAxis(q1: Quad, q2: Quad)
    ensures ProjectionsOverlap(q1, q2, Origin)
  {
    SharedProjectionOverlaps(q1, q2, Origin, 0, 0);
  }

  // ---------------------------------------------------------------------
  // check_collision_updated
  // ---------------------------------------------------------------------

  /** The edge vector from corner i-1 to corner i, where corner -1 is corner 3. */
  function EdgeAxis(q: Quad, i: int): Point
    requires 0 <= i < 4
  {
    var prev := if i == 0 then 3 else i - 1;
    Sub(q[i], q[prev])
  }

  /** None of the eight edge axes of the two rectangles separates them. */
  ghost predicate NoSeparatingEdge(cd: Quad, ci: Quad) {
    && (forall k :: 0 <= k < 4 ==> ProjectionsOverlap(cd, ci, EdgeAxis(cd, k)))
    && (forall k :: 0 <= k < 4 ==> ProjectionsOverlap(cd, ci, EdgeAxis(ci, k)))
  }

  /** The projections overlap on the i-th edge of both rectangles. */
  predicate EdgePairOverlaps(cd: Quad, ci: Quad, i: int)
    requires 0 <= i < 4
  {
    ProjectionsOverlap(cd, ci, EdgeAxis(cd, i)) && ProjectionsOverlap(cd, ci, EdgeAxis(ci, i))
  }

  /**
   The loop of check_collision_updated from iteration `i` on: it tests the
   i-th edge of both rectangles together and stops at the first failure.
   */
  function EdgesOverlapFrom(cd: Quad, ci: Quad, i: nat): (r: bool)
    requires i <= 4
    ensures r <==> forall k :: i <= k < 4 ==> EdgePairOverlaps(cd, ci, k)
    decreases 4 - i
  {
    if i == 4 then
      true
    else if !EdgePairOverlaps(cd, ci, i) then
      false
    else
      EdgesOverlapFrom(cd, ci, i + 1)
  }

  /** Testing the edges in pairs tests all eight of them. */
  lemma EdgePairsCoverAll(cd: Quad, ci: Quad)
    ensures NoSeparatingEdge(cd, ci) <==> forall k :: 0 <= k < 4 ==> EdgePairOverlaps(cd, ci, k)
  {
    if forall k :: 0 <= k < 4 ==> EdgePairOverlaps(cd, ci, k) {
      forall k | 0 <= k < 4
        ensures ProjectionsOverlap(cd, ci, EdgeAxis(cd, k)) && ProjectionsOverlap(cd, ci, EdgeAxis(ci, k))
      {
        assert EdgePairOverlaps(cd, ci, k);
      }
    }
  }

  /**
   check_collision_updated: the cars overlap unless some edge axis of
   either rectangle separates them.
   */
  function CheckCollision(posD: Point, posI: Point, ld: real, wd: real, li: real, wi: real,
                          velD: Point, velI: Point, f: Fns): (r: bool)
    ensures r <==> NoSeparatingEdge(GetCorners(posD, ld, wd, velD, f), GetCorners(posI, li, wi, velI, f))
  {
    var cd := GetCorners(posD, ld, wd, velD, f);
    var ci := GetCorners(posI, li, wi, velI, f);
    EdgePairsCoverAll(cd, ci);
    EdgesOverlapFrom(cd, ci, 0)
  }

  /** Swapping the roles of the two cars gives the same answer. */
  lemma CheckCollisionSymmetric(posD: Point, posI: Point, ld: real, wd: real, li: real, wi: real,
                                velD: Point, velI: Point, f: Fns)
    ensures CheckCollision(posD, posI, ld, wd, li, wi, velD, velI, f)
         == CheckCollision(posI, posD, li, wi, ld, wd, velI, velD, f)
  {
    var cd := GetCorners(posD, ld, wd, velD, f);
    var ci := GetCorners(posI, li, wi, velI, f);
    forall k | 0 <= k < 4
      ensures ProjectionsOverlap(cd, ci, EdgeAxis(cd, k)) == ProjectionsOverlap(ci, cd, EdgeAxis(cd, k))
      ensures ProjectionsOverlap(cd, ci, EdgeAxis(ci, k)) == ProjectionsOverlap(ci, cd, EdgeAxis(ci, k))
    {
      ProjectionsOverlapSwap(cd, ci, EdgeAxis(cd, k));
      ProjectionsOverlapSwap(cd, ci, EdgeAxis(ci, k));
    }
  }

  // ---------------------------------------------------------------------
  // simulate_collision_updated
  // ---------------------------------------------------------------------

  /** The time step, in seconds. */
  const Dt: real := 0.01
  /** The simulated horizon, in seconds. */
  const MaxTime: real := 1.5
  /** The number of values numpy.arange(0, MaxTime, Dt) yields. */
  const Steps: nat := 150

  lemma StepsCoverHorizon()
    ensures (Steps as real) * Dt == MaxTime
  {
  }

  /** A car's footprint and motion: centre, velocity, length and width. */
  datatype Car = Car(pos: Point, vel: Point, length: real, width: real)

  /** The car one simulation step later. */
  function Step(c: Car): Car {
    c.(pos := UpdatePosition(c.pos, c.vel, Dt))
  }

  /** The car after driving `t` seconds at its velocity. */
  function Moved(c: Car, t: real): Car {
    c.(pos := Add(c.pos, Scale(t, c.vel)))
  }

  /** The car after `k` steps, in closed form: it has moved k * Dt * vel. */
  function After(c: Car, k: nat): Car {
    Moved(c, (k as real) * Dt)
  }

  /** Whether check_collision_updated reports the two cars as overlapping. */
  predicate Overlap(d: Car, i: Car, f: Fns) {
    CheckCollision(d.pos, i.pos, d.length, d.width, i.length, i.width, d.vel, i.vel, f)
  }

  /** Some step 1..n finds the cars overlapping (the starting positions are never checked). */
  ghost predicate CollidesWithin(d: Car, i: Car, n: nat, f: Fns) {
    exists k :: 1 <= k <= n && Overlap(After(d, k), After(i, k), f)
  }

  /** One step of the loop is the closed form at k = 1. */
  lemma StepIsAfterOne(c: Car)
    ensures Step(c) == After(c, 1)
  {
  }

  /** Stepping then driving k steps is driving k + 1 steps. */
  lemma AfterStep(c: Car, k: nat)
    ensures After(Step(c), k) == After(c, k + 1)
  {
    var a := Step(c).pos;
    assert a == Add(c.pos, Scale(Dt, c.vel));
  }

  /**
   If the first step does not bring the cars together, a collision within
   n steps is one within n - 1 steps of the stepped cars.
   */
  lemma CollidesWithinAfterStep(d: Car, i: Car, n: nat, f: Fns)
    requires 0 < n && !Overlap(Step(d), Step(i), f)
    ensures CollidesWithin(Step(d), Step(i), n - 1, f) <==> CollidesWithin(d, i, n, f)
  {
    var d1, i1 := Step(d), Step(i);
    if CollidesWithin(d1, i1, n - 1, f) {
      var k :| 1 <= k <= n - 1 && Overlap(After(d1, k), After(i1, k), f);
      AfterStep(d, k);
      AfterStep(i, k);
      assert Overlap(After(d, k + 1), After(i, k + 1), f);
    }
    if CollidesWithin(d, i, n, f) {
      var k :| 1 <= k <= n && Overlap(After(d, k), After(i, k), f);
      assert k != 1 by {
        StepIsAfterOne(d);
        StepIsAfterOne(i);
      }
      AfterStep(d, k - 1);
      AfterStep(i, k - 1);
      assert Overlap(After(d1, k - 1), After(i1, k - 1), f);
    }
  }

  /**
   The loop of simulate_collision_updated with `n` iterations left: advance
   both cars one step, report 1 if they now overlap, else go on.
   */
  function Run(d: Car, i: Car, n: nat, f: Fns): (flag: int)
    ensures flag == 0 || flag == 1
    ensures flag == 1 <==> CollidesWithin(d, i, n, f)
    decreases n
  {
    if n == 0 then
      0
    else
      var d1, i1 := Step(d), Step(i);
      if Overlap(d1, i1, f) then
        assert CollidesWithin(d, i, n, f) by {
          StepIsAfterOne(d);
          StepIsAfterOne(i);
        }
        1
      else
        CollidesWithinAfterStep(d, i, n, f);
        Run(d1, i1, n - 1, f)
  }

  /** Car d as simulate_collision_updated builds it. */
  function EgoCar(xd: real, yd: real, ud: real, vd: real, ld: real, wd: real): Car {
    Car(Point(xd, yd), Point(ud, vd), ld, wd)
  }

  /** Car i, whose length is the distance from its front point to its end point. */
  function OtherCar(xi: real, yi: real, ui: real, vi: real, exi: real, eyi: real, wi: real, f: Fns): (c: Car)
    requires Lawful(f)
    ensures 0.0 <= c.length
    ensures c.length * c.length == (xi - exi) * (xi - exi) + (yi - eyi) * (yi - eyi)
  {
    Car(Point(xi, yi), Point(ui, vi), Norm(xi - exi, yi - eyi, f), wi)
  }

  /**
   simulate_collision_updated: 1 if the cars overlap after some step
   k in 1..150, that is at time k * 0.01 s, else 0.
   */
  function Simulate(xd: real, yd: real, xi: real, yi: real, ud: real, vd: real, ui: real, vi: real,
                    exi: real, eyi: real, ld: real, wd: real, wi: real, f: Fns): (flag: int)
    requires Lawful(f)
    ensures flag == 0 || flag == 1
    ensures flag == 1 <==> CollidesWithin(EgoCar(xd, yd, ud, vd, ld, wd), OtherCar(xi, yi, ui, vi, exi, eyi, wi, f), Steps, f)
  {
    Run(EgoCar(xd, yd, ud, vd, ld, wd), OtherCar(xi, yi, ui, vi, exi, eyi, wi, f), Steps, f)
  }

  /** The simulation loop treats both cars alike. */
  lemma {:induction false} RunSymmetric(d: Car, i: Car, n: nat, f: Fns)
    ensures Run(d, i, n, f) == Run(i, d, n, f)
    decreases n
  {
    if n > 0 {
      var d1, i1 := Step(d), Step(i);
      CheckCollisionSymmetric(d1.pos, i1.pos, d1.length, d1.width, i1.length, i1.width, d1.vel, i1.vel, f);
      RunSymmetric(d1, i1, n - 1, f);
    }
  }

  /**
   Swapping the two cars, with car d's length given as the distance from
   its front point (xd, yd) to its end point (exd, eyd), gives the same flag.
   */
  lemma SimulateSymmetric(xd: real, yd: real, xi: real, yi: real, ud: real, vd: real, ui: real, vi: real,
                          exd: real, eyd: real, exi: real, eyi: real, wd: real, wi: real, f: Fns)
    requires Lawful(f)
    ensures Simulate(xd, yd, xi, yi, ud, vd, ui, vi, exi, eyi, Norm(xd - exd, yd - eyd, f), wd, wi, f)
         == Simulate(xi, yi, xd, yd, ui, vi, ud, vd, exd, eyd, Norm(xi - exi, yi - eyi, f), wi, wd, f)
  {
    var ld, li := Norm(xd - exd, yd - eyd, f), Norm(xi - exi, yi - eyi, f);
    RunSymmetric(EgoCar(xd, yd, ud, vd, ld, wd), EgoCar(xi, yi, ui, vi, li, wi), Steps, f);
  }
}
