/**
 * Cent rounding (src/utils.ts): every reported money figure of the calculator
 * goes through RoundCents. Money is modelled as exact `real`s, so none of the
 * binary floating-point drift the source's comment worries about is present.
 */
module Utils {

  /**
   * JavaScript's `Math.round`: the integer nearest to `x`, a half rounding
   * toward positive infinity (so -2.5 becomes -2, not -3).
   */
  function MathRound(x: real): (n: int)
    ensures x - 0.5 < n as real <= x + 0.5
  {
    (x + 0.5).Floor
  }

  /** `x` is a whole number of cents. */
  predicate IsCent(x: real) {
    (x * 100.0).Floor as real == x * 100.0
  }

  /**
   * `c` is the cent value nearest to `x`, a half cent going up: this pins `c`
   * down uniquely (lemma NearestCentUnique).
   */
  predicate NearestCent(c: real, x: real) {
    IsCent(c) && x - 0.005 < c <= x + 0.005
  }

  /** `roundCents`: scale to cents, `Math.round`, scale back. */
  function RoundCents(value: real): (r: real)
    ensures NearestCent(r, value)
  {
    MathRound(value * 100.0) as real / 100.0
  }

  /** No two cent values are both nearest to `x`. */
  lemma NearestCentUnique(c: real, d: real, x: real)
    requires NearestCent(c, x) && NearestCent(d, x)
    ensures c == d
  {
    var m, n := (c * 100.0).Floor, (d * 100.0).Floor;
    assert x * 100.0 - 0.5 < m as real <= x * 100.0 + 0.5;
    assert x * 100.0 - 0.5 < n as real <= x * 100.0 + 0.5;
    assert m == n;
  }

  /** Any cent value within the half-open half-cent window of `x` is RoundCents(x). */
  lemma RoundCentsCharacterized(x: real, c: real)
    requires NearestCent(c, x)
    ensures RoundCents(x) == c
  {
    NearestCentUnique(RoundCents(x), c, x);
  }

  /** Rounding an amount that is already on the cent grid leaves it alone. */
  lemma RoundCentsFixesCents(c: real)
    requires IsCent(c)
    ensures RoundCents(c) == c
  {
    RoundCentsCharacterized(c, c);
  }

  /** Rounding twice is rounding once. */
  lemma RoundCentsIdempotent(x: real)
    ensures RoundCents(RoundCents(x)) == RoundCents(x)
  {
    RoundCentsFixesCents(RoundCents(x));
  }

  /** Rounding preserves order. */
  lemma RoundCentsMonotone(x: real, y: real)
    requires x <= y
    ensures RoundCents(x) <= RoundCents(y)
  {
    assert MathRound(x * 100.0) <= MathRound(y * 100.0);
  }

  /** A non-negative amount never rounds to a negative one. */
  lemma RoundCentsNonNegative(x: real)
    requires x >= 0.0
    ensures RoundCents(x) >= 0.0
  {
    var n := MathRound(x * 100.0);
    assert n as real > -0.5;
  }

  /** Worked examples of src/utils.test.ts, over exact reals. */
  lemma RoundCentsExamples()
    ensures RoundCents(1.234) == 1.23
    ensures RoundCents(1.235) == 1.24
    ensures RoundCents(1.999) == 2.0
    ensures RoundCents(-1.234) == -1.23
    ensures RoundCents(0.0) == 0.0 && RoundCents(5.0) == 5.0 && RoundCents(100.0) == 100.0
  {
    RoundCentsCharacterized(1.234, 1.23);
    RoundCentsCharacterized(1.235, 1.24);
    RoundCentsCharacterized(1.999, 2.0);
    RoundCentsCharacterized(-1.234, -1.23);
    RoundCentsFixesCents(0.0);
    RoundCentsFixesCents(5.0);
    RoundCentsFixesCents(100.0);
  }
}
