/**
 * The four orientations of the mock device, the sectors of the circle that
 * select them and the canonical angle each one snaps to.
 */
module Orientations {
  import opened Wrappers
  import opened Angles

  datatype Orientation = Up | Left | Down | Right

  /**
   * `orientation_` starts undefined; every reader treats an undefined value
   * (or any string other than the four names) as `up`.
   */
  function Effective(o: Option<Orientation>): Orientation {
    if o.Some? then o.value else Up
  }

  /**
   * `orientationFromAngle`: clamp, then test the sectors from the top of the
   * circle downwards, strictly above each boundary; `up` is the fallback.
   */
  function OrientationFromAngle(rads: real): (o: Orientation)
    ensures 0.0 < Clamp(rads - AngleFromOrientation(Some(o)) + 0.25) <= 0.5
  {
    var c := Clamp(rads);
    var o := if c > 1.75 then Up
             else if c > 1.25 then Left
             else if c > 0.75 then Down
             else if c > 0.25 then Right
             else Up;
    ClampShifted(rads, -AngleFromOrientation(Some(o)) + 0.25);
    assert rads + (-AngleFromOrientation(Some(o)) + 0.25) == rads - AngleFromOrientation(Some(o)) + 0.25;
    ClampNear(c - AngleFromOrientation(Some(o)) + 0.25);
    o
  }

  /** `angleFromOrientation`: the canonical angle of an orientation. */
  function AngleFromOrientation(o: Option<Orientation>): (a: real)
    ensures -HalfTurn / 2.0 <= a <= HalfTurn
    ensures o.None? ==> a == 0.0
  {
    match o
    case Some(Left) => -HalfTurn / 2.0
    case Some(Right) => HalfTurn / 2.0
    case Some(Down) => HalfTurn
    case _ => 0.0
  }

  /** Clamping a value that is at most one turn out of range. */
  lemma ClampNear(v: real)
    requires -FullTurn <= v < 2.0 * FullTurn
    ensures Clamp(v) == if v < 0.0 then v + FullTurn else if v >= FullTurn then v - FullTurn else v
  {
    var y := if v < 0.0 then v + FullTurn else if v >= FullTurn then v - FullTurn else v;
    var k := if v < 0.0 then 1 else if v >= FullTurn then -1 else 0;
    assert y == v + FullTurn * k as real;
    TurnsAreCoterminal(v, k);
    ClampCoterminal(y, v);
    ClampOfNormalised(y);
  }

  /** Shifting two coterminal angles by the same amount keeps them coterminal. */
  lemma CoterminalShift(a: real, b: real, s: real)
    requires Coterminal(a, b)
    ensures Coterminal(a + s, b + s)
  {
    assert (a + s - (b + s)) / FullTurn == (a - b) / FullTurn;
  }

  /** An angle and its clamped value, shifted alike, clamp alike. */
  lemma ClampShifted(r: real, s: real)
    ensures Clamp(r + s) == Clamp(Clamp(r) + s)
  {
    CoterminalSymmetric(Clamp(r), r);
    CoterminalShift(r, Clamp(r), s);
    ClampCoterminal(r + s, Clamp(r) + s);
  }

  /** The orientation depends only on the direction the angle names. */
  lemma OrientationPeriodic(rads: real, k: int)
    ensures OrientationFromAngle(rads + FullTurn * k as real) == OrientationFromAngle(rads)
  {
    ClampPeriodic(rads, k);
  }

  /** Every orientation is recovered from its canonical angle. */
  lemma OrientationRoundTrip(o: Orientation)
    ensures OrientationFromAngle(AngleFromOrientation(Some(o))) == o
  {
    ClampNear(AngleFromOrientation(Some(o)));
  }

  /**
   * Snapping the angle to the canonical angle of the current orientation
   * (clamped, as the `angle` setter does) keeps that orientation; an
   * undefined orientation snaps to `up`.
   */
  lemma SnapKeepsOrientation(o: Option<Orientation>)
    ensures Normalised(Clamp(AngleFromOrientation(o)))
    ensures OrientationFromAngle(Clamp(AngleFromOrientation(o))) == Effective(o)
  {
    ClampIdempotent(AngleFromOrientation(o));
    OrientationRoundTrip(Effective(o));
  }

  /**
   * The angle lies in the sector of exactly one orientation: each owns the half-open quarter turn centred on its
   * canonical angle, (a - pi/4, a + pi/4], taken round the circle: the
   * four sectors have the same width and `up` is no exception.
   */
  lemma OrientationSector(rads: real, o: Orientation)
    ensures OrientationFromAngle(rads) == o <==>
              0.0 < Clamp(rads - AngleFromOrientation(Some(o)) + 0.25) <= 0.5
  {
    var a := AngleFromOrientation(Some(o));
    var c := Clamp(rads);
    ClampShifted(rads, -a + 0.25);
    assert rads + (-a + 0.25) == rads - a + 0.25;
    ClampNear(c - a + 0.25);
  }

  /** The distance between two directions round the circle, at most half a turn. */
  function CircularDistance(a: real, b: real): (d: real)
    ensures 0.0 <= d <= HalfTurn
  {
    var x := Clamp(a - b);
    if x <= HalfTurn then x else FullTurn - x
  }

  /** The distance from an angle to a canonical angle, through its clamped value. */
  lemma DistanceToCanonical(rads: real, a: real)
    requires -HalfTurn / 2.0 <= a <= HalfTurn
    ensures var v := Clamp(rads) - a;
            var x := if v < 0.0 then v + FullTurn else if v >= FullTurn then v - FullTurn else v;
            CircularDistance(rads, a) == if x <= HalfTurn then x else FullTurn - x
  {
    ClampShifted(rads, -a);
    ClampNear(Clamp(rads) - a);
  }

  /**
   * Snapping is to a nearest canonical angle: the orientation chosen for
   * an angle is at most an eighth of a turn away from it, and no other
   * orientation's canonical angle is nearer.
   */
  lemma SnapIsNearest(rads: real, o: Orientation)
    ensures CircularDistance(rads, AngleFromOrientation(Some(OrientationFromAngle(rads)))) <= 0.25
    ensures CircularDistance(rads, AngleFromOrientation(Some(OrientationFromAngle(rads))))
              <= CircularDistance(rads, AngleFromOrientation(Some(o)))
  {
    var p := OrientationFromAngle(rads);
    DistanceToCanonical(rads, AngleFromOrientation(Some(p)));
    DistanceToCanonical(rads, AngleFromOrientation(Some(o)));
  }
}
