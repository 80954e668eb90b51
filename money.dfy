/** Exact decimal money. Python's `Decimal` values are modelled as exact reals;
    `quantize(Decimal("0.01"), rounding=ROUND_HALF_UP)` is RoundHalfUp. */
module Money {

  function Min(a: real, b: real): (m: real)
    ensures m <= a && m <= b && (m == a || m == b)
  {
    if b < a then b else a
  }

  function Max(a: real, b: real): (m: real)
    ensures m >= a && m >= b && (m == a || m == b)
  {
    if b > a then b else a
  }

  function Abs(x: real): (m: real)
    ensures m >= 0.0 && (m == x || m == -x)
  {
    if x < 0.0 then -x else x
  }

  /** A whole number of cents. */
  predicate IsCents(x: real) {
    (x * 100.0).Floor as real == x * 100.0
  }

  /** Rounds to the cent; ties go away from zero (Python's ROUND_HALF_UP). */
  function RoundHalfUp(x: real): real {
    if x >= 0.0 then (x * 100.0 + 0.5).Floor as real / 100.0
    else -((-x * 100.0 + 0.5).Floor as real / 100.0)
  }

  /** A whole number of hundredths is a whole number of cents. */
  lemma HundredthsAreCents(k: int)
    ensures IsCents(k as real / 100.0)
  {
    assert (k as real / 100.0) * 100.0 == k as real;
  }

  /** The rounded value is a whole number of cents. */
  lemma RoundHalfUpIsCents(x: real)
    ensures IsCents(RoundHalfUp(x))
  {
    if x >= 0.0 {
      HundredthsAreCents((x * 100.0 + 0.5).Floor);
    } else {
      var k := (-x * 100.0 + 0.5).Floor;
      HundredthsAreCents(-k);
      assert -(k as real / 100.0) == (-k) as real / 100.0;
    }
  }

  /** The rounded value lies within half a cent of `x`; the window is closed on the side
      away from zero, so a tie goes away from zero. */
  lemma RoundHalfUpNear(x: real)
    ensures x >= 0.0 ==> x - 0.005 < RoundHalfUp(x) <= x + 0.005
    ensures x < 0.0 ==> x - 0.005 <= RoundHalfUp(x) < x + 0.005
  {
  }

  /** Rounding never changes the sign (a value under half a cent becomes zero). */
  lemma RoundHalfUpSign(x: real)
    ensures x >= 0.0 ==> RoundHalfUp(x) >= 0.0
    ensures x <= 0.0 ==> RoundHalfUp(x) <= 0.0
  {
  }

  /** `(a * b).quantize(Decimal("0.01"), rounding=ROUND_HALF_UP)`: a product rounded to
      the cent. */
  function RoundedProduct(a: real, b: real): real {
    RoundHalfUp(a * b)
  }

  /** Scaling a non-negative amount by a factor and rounding keeps the factor's sign. */
  lemma RoundedProductSign(a: real, f: real)
    requires a >= 0.0
    ensures f >= 0.0 ==> RoundedProduct(a, f) >= 0.0
    ensures f <= 0.0 ==> RoundedProduct(a, f) <= 0.0
  {
    if f >= 0.0 {
      assert a * f >= 0.0;
    } else {
      assert a * f <= 0.0;
    }
    RoundHalfUpSign(a * f);
  }

  /** Scaling a whole number of cents by a factor of at most 1 and rounding never
      exceeds it. */
  lemma RoundedProductAtMost(a: real, f: real)
    requires a >= 0.0 && IsCents(a) && f <= 1.0
    ensures RoundedProduct(a, f) <= a
  {
    assert a * f <= a;
    RoundMonotone(a * f, a);
    RoundCentsIdentity(a);
  }

  /** Scaling by 1 leaves a whole number of cents unchanged. */
  lemma RoundedProductByOne(a: real)
    requires IsCents(a)
    ensures RoundedProduct(a, 1.0) == a
  {
    assert a * 1.0 == a;
    RoundCentsIdentity(a);
  }

  /** A rounded product is a whole number of cents. */
  lemma RoundedProductIsCents(a: real, f: real)
    ensures IsCents(RoundedProduct(a, f))
  {
    RoundHalfUpIsCents(a * f);
  }

  /** A value that already is a whole number of cents is left unchanged. */
  lemma RoundCentsIdentity(x: real)
    requires IsCents(x)
    ensures RoundHalfUp(x) == x
  {
    var c := (x * 100.0).Floor;
    assert x * 100.0 == c as real;
    if x >= 0.0 {
      assert (x * 100.0 + 0.5).Floor == c;
    } else {
      assert (-x * 100.0 + 0.5).Floor == -c;
    }
  }

  /** Rounding never reverses the order of two amounts. */
  lemma RoundMonotone(x: real, y: real)
    requires x <= y
    ensures RoundHalfUp(x) <= RoundHalfUp(y)
  {
    if x >= 0.0 {
      assert (x * 100.0 + 0.5).Floor <= (y * 100.0 + 0.5).Floor;
    } else if y < 0.0 {
      assert (-y * 100.0 + 0.5).Floor <= (-x * 100.0 + 0.5).Floor;
    }
  }

  /** Left-to-right sum, as Python's `sum` and the engine's `+=` loops. */
  function Sum(s: seq<real>): real {
    if s == [] then 0.0 else s[0] + Sum(s[1..])
  }

  lemma {:induction false} SumAppend(s: seq<real>, t: seq<real>)
    ensures Sum(s + t) == Sum(s) + Sum(t)
  {
    if s == [] {
      assert s + t == t;
    } else {
      assert (s + t)[1..] == s[1..] + t;
      SumAppend(s[1..], t);
    }
  }

  lemma {:induction false} SumNonNegative(s: seq<real>)
    requires forall i :: 0 <= i < |s| ==> s[i] >= 0.0
    ensures Sum(s) >= 0.0
  {
    if s != [] {
      SumNonNegative(s[1..]);
    }
  }
}
