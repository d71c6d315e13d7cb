/**
 * Angle arithmetic of the element. Every angle is a real number in units of
 * pi, so a full turn is 2.0 and a half turn 1.0; no transcendental constant
 * is needed.
 */
module Angles {

  /** One full turn (2 pi radians). */
  const FullTurn: real := 2.0

  /** Half a turn (pi radians). */
  const HalfTurn: real := 1.0

  /** `q` is a whole number. */
  predicate IsWhole(q: real) {
    q.Floor as real == q
  }

  /** `a` and `b` name the same direction: they differ by whole turns. */
  predicate Coterminal(a: real, b: real) {
    IsWhole((a - b) / FullTurn)
  }

  /** The range [0, 2 pi) that `clampRads` promises. */
  predicate Normalised(r: real) {
    0.0 <= r < FullTurn
  }

  /** The value `clampRads` computes, stated without loops. */
  function Clamp(x: real): (r: real)
    ensures Normalised(r)
    ensures Coterminal(r, x)
  {
    var k := (x / FullTurn).Floor;
    assert k as real <= x / FullTurn < k as real + 1.0;
    assert ((x - FullTurn * k as real) - x) / FullTurn == (-k) as real;
    x - FullTurn * k as real
  }

  /** Adding whole turns gives a coterminal angle. */
  lemma TurnsAreCoterminal(a: real, k: int)
    ensures Coterminal(a + FullTurn * k as real, a)
  {
    assert (a + FullTurn * k as real - a) / FullTurn == k as real;
    IntegerIsWhole(k);
  }

  /** A whole number, as a real, is whole. */
  lemma IntegerIsWhole(k: int)
    ensures IsWhole(k as real)
  {
  }

  lemma CoterminalSymmetric(a: real, b: real)
    requires Coterminal(a, b)
    ensures Coterminal(b, a)
  {
    var k := ((a - b) / FullTurn).Floor;
    assert k as real == (a - b) / FullTurn;
    assert (b - a) / FullTurn == -((a - b) / FullTurn);
    IntegerIsWhole(-k);
  }

  lemma CoterminalTransitive(a: real, b: real, c: real)
    requires Coterminal(a, b) && Coterminal(b, c)
    ensures Coterminal(a, c)
  {
    var k := ((a - b) / FullTurn).Floor;
    var m := ((b - c) / FullTurn).Floor;
    assert k as real == (a - b) / FullTurn;
    assert m as real == (b - c) / FullTurn;
    assert (a - c) / FullTurn == (a - b) / FullTurn + (b - c) / FullTurn;
    IntegerIsWhole(k + m);
  }

  /** Two normalised angles that name the same direction are equal. */
  lemma NormalisedUnique(a: real, b: real)
    requires Normalised(a) && Normalised(b) && Coterminal(a, b)
    ensures a == b
  {
    var k := ((a - b) / FullTurn).Floor;
    assert -1.0 < (a - b) / FullTurn < 1.0;
    assert k == 0;
  }

  /** Clamping identifies exactly the coterminal angles. */
  lemma ClampCoterminal(a: real, b: real)
    ensures Clamp(a) == Clamp(b) <==> Coterminal(a, b)
  {
    if Coterminal(a, b) {
      CoterminalTransitive(Clamp(a), a, b);
      CoterminalSymmetric(Clamp(b), b);
      CoterminalTransitive(Clamp(a), b, Clamp(b));
      NormalisedUnique(Clamp(a), Clamp(b));
    }
    if Clamp(a) == Clamp(b) {
      CoterminalSymmetric(Clamp(a), a);
      CoterminalTransitive(a, Clamp(a), b);
    }
  }

  /** A value already in [0, 2 pi) is returned unchanged. */
  lemma ClampOfNormalised(x: real)
    requires Normalised(x)
    ensures Clamp(x) == x
  {
    NormalisedUnique(Clamp(x), x);
  }

  /** Clamping twice is clamping once. */
  lemma ClampIdempotent(x: real)
    ensures Clamp(Clamp(x)) == Clamp(x)
  {
    ClampOfNormalised(Clamp(x));
  }

  /** Clamping ignores whole turns. */
  lemma ClampPeriodic(x: real, k: int)
    ensures Clamp(x + FullTurn * k as real) == Clamp(x)
  {
    TurnsAreCoterminal(x, k);
    ClampCoterminal(x + FullTurn * k as real, x);
  }

  /**
   * `clampRads`: first take full turns off while the angle is at least a full
   * turn, then add full turns while it is negative.
   */
  method ClampRads(rads: real) returns (r: real)
    ensures Normalised(r) && Coterminal(r, rads)
    ensures r == Clamp(rads)
  {
    r := rads;
    ghost var turns: int := 0;
    while r >= FullTurn
      invariant r == rads + FullTurn * turns as real
      decreases r.Floor
    {
      r := r - FullTurn;
      turns := turns - 1;
    }
    while r < 0.0
      invariant r < FullTurn
      invariant r == rads + FullTurn * turns as real
      decreases -r.Floor
    {
      r := r + FullTurn;
      turns := turns + 1;
    }
    TurnsAreCoterminal(rads, turns);
    ClampCoterminal(r, rads);
    ClampOfNormalised(r);
  }

  /**
   * The rotation `rotateTo` writes into a transform, given the rotation the
   * transform held before: with `forceTransform` it is `rads` itself;
   * otherwise a jump of more than half a turn from `prev` is shortened by
   * adding or subtracting one full turn.
   */
  function RotationTarget(prev: real, rads: real, forceTransform: bool): (r: real)
    ensures Coterminal(r, rads)
    ensures forceTransform ==> r == rads
    ensures -HalfTurn <= prev - rads <= HalfTurn ==> r == rads
    ensures !forceTransform && -3.0 * HalfTurn <= prev - rads <= 3.0 * HalfTurn ==>
              -HalfTurn <= r - prev <= HalfTurn
  {
    if forceTransform then rads
    else if prev - rads > HalfTurn then rads + FullTurn
    else if prev - rads < -HalfTurn then rads - FullTurn
    else rads
  }
}
