/**
 What the answers of the collision predictor mean geometrically: a
 reported separation is a real one (two rectangles sharing a point are
 always reported as overlapping), cars that keep a gap along the x-axis
 or keep to separate lanes are never reported as colliding, and the flags
 of the scenarios listed beside the predictor follow.
 */
module CollDetectFacts {
  import opened Reals
  import opened Geometry
  import opened Maths
  import opened CollDetect

  /**
   `p` lies in the closed rectangle centred at `pos`, `l` long along the
   heading `h` and `w` wide across it.
   */
  ghost predicate InRect(p: Point, pos: Point, l: real, w: real, h: Heading) {
    exists a, b :: AtOffset(p, pos, l, w, h, a, b)
  }

  /** `p` is the point at offset (a, b) from the centre, within the rectangle. */
  predicate AtOffset(p: Point, pos: Point, l: real, w: real, h: Heading, a: real, b: real) {
    -l / 2.0 <= a <= l / 2.0 && -w / 2.0 <= b <= w / 2.0 && p == Local(pos, h, a, b)
  }

  lemma DotLocal(pos: Point, h: Heading, a: real, b: real, axis: Point)
    ensures Dot(Local(pos, h, a, b), axis) == Dot(pos, axis) + a * Dot(Forward(h), axis) + b * Dot(Side(h), axis)
  {
  }

  /** `u` lies between -x and x. */
  predicate WithinPlusMinus(u: real, x: real) {
    -x <= u <= x || x <= u <= -x
  }

  /** Scaling by m keeps a value between -half and half between -half m and half m. */
  lemma OffsetBound(a: real, half: real, m: real)
    requires -half <= a <= half
    ensures WithinPlusMinus(a * m, half * m)
  {
    if m > 0.0 {
      if a < half { PositiveProduct(half - a, m); }
      if -half < a { PositiveProduct(a + half, m); }
      assert -(half * m) <= a * m <= half * m;
    } else if m < 0.0 {
      if a < half { PositiveProduct(half - a, -m); }
      if -half < a { PositiveProduct(a + half, -m); }
      assert half * m <= a * m <= -(half * m);
    }
  }

  /**
   d + u + v lies between the least and the greatest of the four values
   d ± x ± y when u is within ±x and v within ±y.
   */
  lemma BetweenCornerValues(d: real, x: real, y: real, u: real, v: real)
    requires WithinPlusMinus(u, x) && WithinPlusMinus(v, y)
    ensures var t := d + u + v;
      && (d - x - y <= t || d + x - y <= t || d + x + y <= t || d - x + y <= t)
      && (t <= d - x - y || t <= d + x - y || t <= d + x + y || t <= d - x + y)
  {
  }

  /**
   On any axis, each corner projects to the centre's projection plus or
   minus half the length and half the width times the axis components of
   the heading and its normal.
   */
  lemma CornerProjection(pos: Point, l: real, w: real, h: Heading, axis: Point, i: int)
    requires 0 <= i < 4
    ensures var x, y := (l / 2.0) * Dot(Forward(h), axis), (w / 2.0) * Dot(Side(h), axis);
      Dot(RectCorners(pos, l, w, h)[i], axis)
      == Dot(pos, axis) + (if i == 1 || i == 2 then x else -x) + (if i == 2 || i == 3 then y else -y)
  {
    var a := if i == 1 || i == 2 then l / 2.0 else -l / 2.0;
    var b := if i == 2 || i == 3 then w / 2.0 else -w / 2.0;
    RectCornerLocal(pos, l, w, h, i);
    DotLocal(pos, h, a, b, axis);
    NegMul(l / 2.0, Dot(Forward(h), axis));
    NegMul(w / 2.0, Dot(Side(h), axis));
  }

  /** The value `t` lies between the least and the greatest corner projection. */
  predicate Straddles(q: Quad, axis: Point, t: real) {
    && (Dot(q[0], axis) <= t || Dot(q[1], axis) <= t || Dot(q[2], axis) <= t || Dot(q[3], axis) <= t)
    && (t <= Dot(q[0], axis) || t <= Dot(q[1], axis) || t <= Dot(q[2], axis) || t <= Dot(q[3], axis))
  }

  /**
   Corners projecting to d ± x ± y straddle every value d + u + v whose
   offsets stay within ±x and ±y.
   */
  lemma StraddlesFromOffsets(q: Quad, axis: Point, t: real, d: real, x: real, y: real, u: real, v: real)
    requires Dot(q[0], axis) == d - x - y && Dot(q[1], axis) == d + x - y
    requires Dot(q[2], axis) == d + x + y && Dot(q[3], axis) == d - x + y
    requires t == d + u + v && WithinPlusMinus(u, x) && WithinPlusMinus(v, y)
    ensures Straddles(q, axis, t)
  {
    BetweenCornerValues(d, x, y, u, v);
  }

  /** A point of the rectangle projects between its corners on every axis. */
  lemma InRectStraddles(pos: Point, l: real, w: real, h: Heading, a: real, b: real, axis: Point)
    requires -l / 2.0 <= a <= l / 2.0 && -w / 2.0 <= b <= w / 2.0
    ensures Straddles(RectCorners(pos, l, w, h), axis, Dot(Local(pos, h, a, b), axis))
  {
    var A, B := Dot(Forward(h), axis), Dot(Side(h), axis);
    assert WithinPlusMinus(a * A, (l / 2.0) * A) by { OffsetBound(a, l / 2.0, A); }
    assert WithinPlusMinus(b * B, (w / 2.0) * B) by { OffsetBound(b, w / 2.0, B); }
    assert Dot(Local(pos, h, a, b), axis) == Dot(pos, axis) + a * A + b * B by { DotLocal(pos, h, a, b, axis); }
    CornerProjection(pos, l, w, h, axis, 0);
    CornerProjection(pos, l, w, h, axis, 1);
    CornerProjection(pos, l, w, h, axis, 2);
    CornerProjection(pos, l, w, h, axis, 3);
    StraddlesFromOffsets(RectCorners(pos, l, w, h), axis, Dot(Local(pos, h, a, b), axis),
                         Dot(pos, axis), (l / 2.0) * A, (w / 2.0) * B, a * A, b * B);
  }

  /**
   The centre projects between the corners on every axis, whatever the
   signs of the length and the width.
   */
  lemma CentreStraddles(pos: Point, l: real, w: real, h: Heading, axis: Point)
    ensures Straddles(RectCorners(pos, l, w, h), axis, Dot(pos, axis))
  {
    var x, y := (l / 2.0) * Dot(Forward(h), axis), (w / 2.0) * Dot(Side(h), axis);
    CornerProjection(pos, l, w, h, axis, 0);
    CornerProjection(pos, l, w, h, axis, 1);
    CornerProjection(pos, l, w, h, axis, 2);
    CornerProjection(pos, l, w, h, axis, 3);
    StraddlesFromOffsets(RectCorners(pos, l, w, h), axis, Dot(pos, axis), Dot(pos, axis), x, y, 0.0, 0.0);
  }

  /** Corner sets straddling a common value overlap on that axis. */
  lemma StraddledValueOverlaps(q1: Quad, q2: Quad, axis: Point, t: real)
    requires Straddles(q1, axis, t) && Straddles(q2, axis, t)
    ensures ProjectionsOverlap(q1, q2, axis)
  {
    ProjectionsOverlapIff(q1, q2, axis);
  }

  /** Two rectangles with a common point overlap on every axis. */
  lemma SharedPointOverlaps(p: Point, pos1: Point, l1: real, w1: real, h1: Heading,
                            pos2: Point, l2: real, w2: real, h2: Heading, axis: Point)
    requires InRect(p, pos1, l1, w1, h1) && InRect(p, pos2, l2, w2, h2)
    ensures ProjectionsOverlap(RectCorners(pos1, l1, w1, h1), RectCorners(pos2, l2, w2, h2), axis)
  {
    var a1, b1 :| AtOffset(p, pos1, l1, w1, h1, a1, b1);
    var a2, b2 :| AtOffset(p, pos2, l2, w2, h2, a2, b2);
    InRectStraddles(pos1, l1, w1, h1, a1, b1, axis);
    InRectStraddles(pos2, l2, w2, h2, a2, b2, axis);
    StraddledValueOverlaps(RectCorners(pos1, l1, w1, h1), RectCorners(pos2, l2, w2, h2), axis, Dot(p, axis));
  }

  /**
   The separation check_collision_updated reports is sound: if some point
   lies in both footprints, the cars are reported as overlapping.
   */
  lemma CheckCollisionSound(posD: Point, posI: Point, ld: real, wd: real, li: real, wi: real,
                            velD: Point, velI: Point, f: Fns, p: Point)
    requires InRect(p, posD, ld, wd, f.heading(velD)) && InRect(p, posI, li, wi, f.heading(velI))
    ensures CheckCollision(posD, posI, ld, wd, li, wi, velD, velI, f)
  {
    var cd := GetCorners(posD, ld, wd, velD, f);
    var ci := GetCorners(posI, li, wi, velI, f);
    forall k | 0 <= k < 4
      ensures ProjectionsOverlap(cd, ci, EdgeAxis(cd, k)) && ProjectionsOverlap(cd, ci, EdgeAxis(ci, k))
    {
      SharedPointOverlaps(p, posD, ld, wd, f.heading(velD), posI, li, wi, f.heading(velI), EdgeAxis(cd, k));
      SharedPointOverlaps(p, posD, ld, wd, f.heading(velD), posI, li, wi, f.heading(velI), EdgeAxis(ci, k));
    }
  }

  /** Cars whose centres coincide are reported as overlapping, whatever their sizes. */
  lemma SameCentreCollides(pos: Point, ld: real, wd: real, li: real, wi: real,
                           velD: Point, velI: Point, f: Fns)
    ensures CheckCollision(pos, pos, ld, wd, li, wi, velD, velI, f)
  {
    var cd := GetCorners(pos, ld, wd, velD, f);
    var ci := GetCorners(pos, li, wi, velI, f);
    forall axis: Point ensures ProjectionsOverlap(cd, ci, axis) {
      CentreStraddles(pos, ld, wd, f.heading(velD), axis);
      CentreStraddles(pos, li, wi, f.heading(velI), axis);
      StraddledValueOverlaps(cd, ci, axis, Dot(pos, axis));
    }
  }

  /** The footprint of a car. */
  ghost predicate OnCar(p: Point, c: Car, f: Fns) {
    InRect(p, c.pos, c.length, c.width, f.heading(c.vel))
  }

  /**
   A point the two footprints share after some step 1..n makes the
   simulation loop report a collision.
   */
  lemma SharedPointRaisesFlag(d: Car, i: Car, n: nat, f: Fns, k: nat, p: Point)
    requires 1 <= k <= n
    requires OnCar(p, After(d, k), f) && OnCar(p, After(i, k), f)
    ensures Run(d, i, n, f) == 1
  {
    var dk, ik := After(d, k), After(i, k);
    CheckCollisionSound(dk.pos, ik.pos, dk.length, dk.width, ik.length, ik.width, dk.vel, ik.vel, f, p);
    assert Overlap(dk, ik, f);
  }

  /**
   A flag of 0 from the simulation loop means that after none of its steps
   do the two footprints share a point.
   */
  lemma RunZeroMeansDisjoint(d: Car, i: Car, n: nat, f: Fns, k: nat, p: Point)
    requires Run(d, i, n, f) == 0
    requires 1 <= k <= n
    ensures !(OnCar(p, After(d, k), f) && OnCar(p, After(i, k), f))
  {
    if OnCar(p, After(d, k), f) && OnCar(p, After(i, k), f) {
      SharedPointRaisesFlag(d, i, n, f, k, p);
    }
  }

  // ---------------------------------------------------------------------
  // Cars that keep apart
  // ---------------------------------------------------------------------

  /** Cars reported apart after every step 1..n give the flag 0. */
  lemma ApartThroughoutMeansZero(d: Car, i: Car, n: nat, f: Fns)
    requires forall k: nat :: 1 <= k <= n ==> !Overlap(After(d, k), After(i, k), f)
    ensures Run(d, i, n, f) == 0
  {
  }

  /** A car at rest or driving along the positive x-axis. */
  predicate Eastbound(c: Car) {
    c.vel.y == 0.0 && 0.0 <= c.vel.x
  }

  /**
   Corner sets lying wholly left of one another are separated on every
   axis pointing along +x.
   */
  lemma ApartAlongX(q1: Quad, q2: Quad, axis: Point)
    requires 0.0 < axis.x && axis.y == 0.0
    requires forall m, n :: 0 <= m < 4 && 0 <= n < 4 ==> q1[m].x < q2[n].x
    ensures !ProjectionsOverlap(q1, q2, axis)
  {
    assert StrictlyBelow(q1, q2, axis) by {
      forall m, n | 0 <= m < 4 && 0 <= n < 4 ensures Dot(q1[m], axis) < Dot(q2[n], axis) {
        MulStrictMono(axis.x, q1[m].x, q2[n].x);
      }
    }
    ProjectionsOverlapIff(q1, q2, axis);
  }

  /**
   Corner sets lying wholly below one another in y are separated on every
   axis pointing along -y.
   */
  lemma ApartAlongY(q1: Quad, q2: Quad, axis: Point)
    requires axis.x == 0.0 && axis.y < 0.0
    requires forall m, n :: 0 <= m < 4 && 0 <= n < 4 ==> q1[m].y < q2[n].y
    ensures !ProjectionsOverlap(q1, q2, axis)
  {
    assert StrictlyBelow(q2, q1, axis) by {
      forall m, n | 0 <= m < 4 && 0 <= n < 4 ensures Dot(q2[m], axis) < Dot(q1[n], axis) {
        MulStrictMono(-axis.y, q1[n].y, q2[m].y);
      }
    }
    ProjectionsOverlapIff(q1, q2, axis);
  }

  /**
   Two boxes facing along x, the first wholly to the left of the second,
   are separated by the first box's lengthwise edge.
   */
  lemma BoxesApartAlongX(pd: Point, ld: real, wd: real, pi: Point, li: real, wi: real)
    requires 0.0 < ld && 0.0 <= li
    requires pd.x + ld / 2.0 < pi.x - li / 2.0
    ensures var cd := RectCorners(pd, ld, wd, East);
      !ProjectionsOverlap(cd, RectCorners(pi, li, wi, East), EdgeAxis(cd, 1))
  {
    var cd, ci := RectCorners(pd, ld, wd, East), RectCorners(pi, li, wi, East);
    RectCornersEast(pd, ld, wd);
    RectCornersEast(pi, li, wi);
    ApartAlongX(cd, ci, EdgeAxis(cd, 1));
  }

  /**
   Two boxes facing along x, the first wholly below the second in y, are
   separated by the first box's crosswise edge.
   */
  lemma BoxesApartAlongY(pd: Point, ld: real, wd: real, pi: Point, li: real, wi: real)
    requires 0.0 < wd && 0.0 <= wi
    requires pd.y + wd / 2.0 < pi.y - wi / 2.0
    ensures var cd := RectCorners(pd, ld, wd, East);
      !ProjectionsOverlap(cd, RectCorners(pi, li, wi, East), EdgeAxis(cd, 2))
  {
    var cd, ci := RectCorners(pd, ld, wd, East), RectCorners(pi, li, wi, East);
    RectCornersEast(pd, ld, wd);
    RectCornersEast(pi, li, wi);
    ApartAlongY(cd, ci, EdgeAxis(cd, 2));
  }

  /**
   Two eastbound cars whose boxes are separated along x, car d behind, are
   reported apart.
   */
  lemma EastboundGapSeparates(d: Car, i: Car, f: Fns)
    requires Lawful(f)
    requires Eastbound(d) && Eastbound(i)
    requires 0.0 < d.length && 0.0 <= i.length
    requires d.pos.x + d.length / 2.0 < i.pos.x - i.length / 2.0
    ensures !Overlap(d, i, f)
  {
    HeadingOfEastward(f.heading(d.vel), d.vel);
    HeadingOfEastward(f.heading(i.vel), i.vel);
    BoxesApartAlongX(d.pos, d.length, d.width, i.pos, i.length, i.width);
    var cd := GetCorners(d.pos, d.length, d.width, d.vel, f);
    var ci := GetCorners(i.pos, i.length, i.width, i.vel, f);
    assert !ProjectionsOverlap(cd, ci, EdgeAxis(cd, 1));
  }

  /**
   Eastbound cars in one lane with car d behind and no faster than car i
   are still apart any time later.
   */
  lemma EastboundGapPersists(d: Car, i: Car, t: real, f: Fns)
    requires Lawful(f)
    requires Eastbound(d) && Eastbound(i)
    requires 0.0 < d.length && 0.0 <= i.length
    requires d.pos.x + d.length / 2.0 < i.pos.x - i.length / 2.0
    requires d.vel.x <= i.vel.x
    requires 0.0 <= t
    ensures !Overlap(Moved(d, t), Moved(i, t), f)
  {
    assert t * d.vel.x <= t * i.vel.x by {
      if 0.0 < t && d.vel.x < i.vel.x { PositiveProduct(t, i.vel.x - d.vel.x); }
    }
    EastboundGapSeparates(Moved(d, t), Moved(i, t), f);
  }

  /**
   Eastbound cars in one lane with car d behind and no faster than car i
   are never reported as colliding; this covers two cars at rest.
   */
  lemma EastboundGapNeverCloses(d: Car, i: Car, n: nat, f: Fns)
    requires Lawful(f)
    requires Eastbound(d) && Eastbound(i)
    requires 0.0 < d.length && 0.0 <= i.length
    requires d.pos.x + d.length / 2.0 < i.pos.x - i.length / 2.0
    requires d.vel.x <= i.vel.x
    ensures Run(d, i, n, f) == 0
  {
    forall k: nat | 1 <= k <= n ensures !Overlap(After(d, k), After(i, k), f) {
      var t := (k as real) * Dt;
      assert 0.0 <= t by { PositiveProduct(k as real, Dt); }
      assert After(d, k) == Moved(d, t) && After(i, k) == Moved(i, t);
      EastboundGapPersists(d, i, t, f);
    }
    ApartThroughoutMeansZero(d, i, n, f);
  }

  /**
   Eastbound cars whose lanes are apart, car d's box wholly below car i's
   in y, are reported apart.
   */
  lemma LanesApartSeparates(d: Car, i: Car, f: Fns)
    requires Lawful(f)
    requires Eastbound(d) && Eastbound(i)
    requires 0.0 < d.width && 0.0 <= i.width
    requires d.pos.y + d.width / 2.0 < i.pos.y - i.width / 2.0
    ensures !Overlap(d, i, f)
  {
    HeadingOfEastward(f.heading(d.vel), d.vel);
    HeadingOfEastward(f.heading(i.vel), i.vel);
    BoxesApartAlongY(d.pos, d.length, d.width, i.pos, i.length, i.width);
    var cd := GetCorners(d.pos, d.length, d.width, d.vel, f);
    var ci := GetCorners(i.pos, i.length, i.width, i.vel, f);
    assert !ProjectionsOverlap(cd, ci, EdgeAxis(cd, 2));
  }

  /** Eastbound cars in lanes that are apart stay apart. */
  lemma LanesApartPersist(d: Car, i: Car, t: real, f: Fns)
    requires Lawful(f)
    requires Eastbound(d) && Eastbound(i)
    requires 0.0 < d.width && 0.0 <= i.width
    requires d.pos.y + d.width / 2.0 < i.pos.y - i.width / 2.0
    ensures !Overlap(Moved(d, t), Moved(i, t), f)
  {
    assert Moved(d, t).pos.y == d.pos.y && Moved(i, t).pos.y == i.pos.y;
    LanesApartSeparates(Moved(d, t), Moved(i, t), f);
  }

  /** Eastbound cars in lanes that are apart never collide. */
  lemma ParallelLanesNeverCollide(d: Car, i: Car, n: nat, f: Fns)
    requires Lawful(f)
    requires Eastbound(d) && Eastbound(i)
    requires 0.0 < d.width && 0.0 <= i.width
    requires d.pos.y + d.width / 2.0 < i.pos.y - i.width / 2.0
    ensures Run(d, i, n, f) == 0
  {
    forall k: nat | 1 <= k <= n ensures !Overlap(After(d, k), After(i, k), f) {
      var t := (k as real) * Dt;
      assert After(d, k) == Moved(d, t) && After(i, k) == Moved(i, t);
      LanesApartPersist(d, i, t, f);
    }
    ApartThroughoutMeansZero(d, i, n, f);
  }

  /** Two cars at rest whose boxes are apart along x or y, in either order, never collide. */
  lemma RestingApartNeverCollide(d: Car, i: Car, n: nat, f: Fns)
    requires Lawful(f)
    requires d.vel == Origin && i.vel == Origin
    requires 0.0 < d.length && 0.0 < d.width && 0.0 < i.length && 0.0 < i.width
    requires || d.pos.x + d.length / 2.0 < i.pos.x - i.length / 2.0
             || i.pos.x + i.length / 2.0 < d.pos.x - d.length / 2.0
             || d.pos.y + d.width / 2.0 < i.pos.y - i.width / 2.0
             || i.pos.y + i.width / 2.0 < d.pos.y - d.width / 2.0
    ensures Run(d, i, n, f) == 0
  {
    RunSymmetric(d, i, n, f);
    if d.pos.x + d.length / 2.0 < i.pos.x - i.length / 2.0 {
      EastboundGapNeverCloses(d, i, n, f);
    } else if i.pos.x + i.length / 2.0 < d.pos.x - d.length / 2.0 {
      EastboundGapNeverCloses(i, d, n, f);
    } else if d.pos.y + d.width / 2.0 < i.pos.y - i.width / 2.0 {
      ParallelLanesNeverCollide(d, i, n, f);
    } else {
      ParallelLanesNeverCollide(i, d, n, f);
    }
  }

  // ---------------------------------------------------------------------
  // The scenarios listed with the predictor
  // ---------------------------------------------------------------------

  /**
   Head-on: car d from (0, 0) at (10, 0), car i from (10, 0) at (-10, 0);
   both centres reach (5, 0) after 50 steps, so the flag is 1.
   */
  lemma HeadOnScenario(f: Fns)
    requires Lawful(f)
    ensures Simulate(0.0, 0.0, 10.0, 0.0, 10.0, 0.0, -10.0, 0.0, 0.0, 20.0, 4.5, 1.8, 1.8, f) == 1
  {
    var d := EgoCar(0.0, 0.0, 10.0, 0.0, 4.5, 1.8);
    var i := OtherCar(10.0, 0.0, -10.0, 0.0, 0.0, 20.0, 1.8, f);
    var dk, ik := After(d, 50), After(i, 50);
    assert dk.pos == Point(5.0, 0.0) && ik.pos == Point(5.0, 0.0);
    SameCentreCollides(dk.pos, dk.length, dk.width, ik.length, ik.width, dk.vel, ik.vel, f);
    assert Overlap(dk, ik, f);
  }

  /**
   Diagonal approach: car d from (0, 0) at (50, 50), car i from (100, 100)
   at (-50, -50); both centres reach (50, 50) after 100 steps.
   */
  lemma DiagonalScenario(f: Fns)
    requires Lawful(f)
    ensures Simulate(0.0, 0.0, 100.0, 100.0, 50.0, 50.0, -50.0, -50.0, 0.0, -2.0, 1.0, 1.0, 1.0, f) == 1
  {
    var d := EgoCar(0.0, 0.0, 50.0, 50.0, 1.0, 1.0);
    var i := OtherCar(100.0, 100.0, -50.0, -50.0, 0.0, -2.0, 1.0, f);
    var dk, ik := After(d, 100), After(i, 100);
    assert dk.pos == Point(50.0, 50.0) && ik.pos == Point(50.0, 50.0);
    SameCentreCollides(dk.pos, dk.length, dk.width, ik.length, ik.width, dk.vel, ik.vel, f);
    assert Overlap(dk, ik, f);
  }

  /**
   Parallel lanes: car d on y = 0 at (1, 0), car i on y = 2 at (2, 0),
   both 1 wide, so the flag is 0.
   */
  lemma ParallelLanesScenario(f: Fns)
    requires Lawful(f)
    ensures Simulate(0.0, 0.0, 2.0, 2.0, 1.0, 0.0, 2.0, 0.0, 0.0, -2.0, 1.0, 1.0, 1.0, f) == 0
  {
    var d := EgoCar(0.0, 0.0, 1.0, 0.0, 1.0, 1.0);
    var i := OtherCar(2.0, 2.0, 2.0, 0.0, 0.0, -2.0, 1.0, f);
    ParallelLanesNeverCollide(d, i, Steps, f);
  }

  /** 2√2 is below 3. */
  lemma RootEightBelowThree(x: real)
    requires 0.0 <= x && x * x == 8.0
    ensures x < 3.0
  {
    if 3.0 <= x { SquareMono(3.0, x); }
  }

  /**
   Same lane, car i ahead and faster: car d from (0, 0) at (1, 0), car i
   from (2, 0) at (2, 0) and 2√2 long; the gap only grows, so the flag is 0.
   */
  lemma FasterCarAheadScenario(f: Fns)
    requires Lawful(f)
    ensures Simulate(0.0, 0.0, 2.0, 0.0, 1.0, 0.0, 2.0, 0.0, 0.0, -2.0, 1.0, 1.0, 1.0, f) == 0
  {
    var d := EgoCar(0.0, 0.0, 1.0, 0.0, 1.0, 1.0);
    var i := OtherCar(2.0, 0.0, 2.0, 0.0, 0.0, -2.0, 1.0, f);
    RootEightBelowThree(i.length);
    EastboundGapNeverCloses(d, i, Steps, f);
  }
}
