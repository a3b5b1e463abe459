/** Failure-compatible wrappers used across the model. */
module Common {

  datatype Option<+T> = None | Some(value: T)

  datatype Result<+T, +E> = Ok(value: T) | Err(error: E)
}

/**
 * JavaScript number operations on exact reals: `Math.floor`, the truncation
 * that `x | 0` performs, `Math.ceil`, and the `%` operator, whose remainder
 * takes the sign of the dividend (unlike Dafny's Euclidean `%`).
 */
module JsMath {

  /** `Math.floor`. */
  function Floor(x: real): (r: int)
    ensures r as real <= x < r as real + 1.0
  {
    x.Floor
  }

  /** Truncation toward zero. */
  function Trunc(x: real): (r: int)
    ensures x >= 0.0 ==> r == Floor(x)
    ensures x < 0.0 ==> r == -Floor(-x)
    ensures -1.0 < x - r as real < 1.0
  {
    if x >= 0.0 then x.Floor else -((-x).Floor)
  }

  /** `Math.ceil`. */
  function Ceil(x: real): (r: int)
    ensures x <= r as real < x + 1.0
  {
    -((-x).Floor)
  }

  /** `x % m` for a positive divisor: `x - m * trunc(x / m)`. */
  function JsRem(x: real, m: real): real
    requires m > 0.0
  {
    x - m * Trunc(x / m) as real
  }

  /** A non-negative dividend leaves a remainder in `[0, m)`; a negative one in `(-m, 0]`. */
  lemma JsRemRange(x: real, m: real)
    requires m > 0.0
    ensures x >= 0.0 ==> 0.0 <= JsRem(x, m) < m
    ensures x < 0.0 ==> -m < JsRem(x, m) <= 0.0
  {
    var q := x / m;
    DivBounds(x, m, 0.0, 0.0);
    if x >= 0.0 {
      var k := Floor(q);
      assert Trunc(q) == k;
      DivBounds(x, m, k as real, k as real + 1.0);
      RemStep(x, m, k as real);
    } else {
      var k := Floor(-q);
      assert Trunc(q) == -k;
      DivBounds(x, m, -(k as real + 1.0), -(k as real));
      RemStepNeg(x, m, -(k as real + 1.0));
    }
  }

  lemma RemStep(x: real, m: real, a: real)
    requires m * a <= x < m * (a + 1.0)
    ensures 0.0 <= x - m * a < m
  {
    assert m * (a + 1.0) == m * a + m;
  }

  lemma RemStepNeg(x: real, m: real, a: real)
    requires m * a < x <= m * (a + 1.0)
    ensures -m < x - m * (a + 1.0) <= 0.0
  {
    assert m * (a + 1.0) == m * a + m;
  }

  /** Scaling the bounds of a quotient back by the divisor. */
  lemma DivBounds(x: real, m: real, a: real, b: real)
    requires m > 0.0
    ensures a <= x / m ==> m * a <= x
    ensures x / m < b ==> x < m * b
    ensures a < x / m ==> m * a < x
    ensures x / m <= b ==> x <= m * b
    ensures 0.0 <= x <==> 0.0 <= x / m
  {
    var q := x / m;
    assert m * q == x;
    if a <= q { MulLeftMono(m, a, q); }
    if q < b { MulLeftStrict(m, q, b); }
    if a < q { MulLeftStrict(m, a, q); }
    if q <= b { MulLeftMono(m, q, b); }
  }

  /** For `0 <= x < m` the remainder is `x` itself. */
  lemma JsRemSmall(x: real, m: real)
    requires m > 0.0
    ensures 0.0 <= x < m ==> JsRem(x, m) == x
  {
    if 0.0 <= x < m {
      DivBounds(x, m, 1.0, 1.0);
      assert Trunc(x / m) == 0;
    }
  }

  /** For a non-negative dividend, `x % m == x - m * floor(x / m)`. */
  lemma JsRemFloor(x: real, m: real)
    requires m > 0.0 && x >= 0.0
    ensures JsRem(x, m) == x - m * Floor(x / m) as real
  {
    assert x / m >= 0.0;
  }

  lemma MulLeftMono(m: real, a: real, b: real)
    requires m >= 0.0 && a <= b
    ensures m * a <= m * b
  {
  }

  lemma MulLeftStrict(m: real, a: real, b: real)
    requires m > 0.0 && a < b
    ensures m * a < m * b
  {
  }

  /** `floor(x - k) == floor(x) - k` for an integer `k`. */
  lemma FloorShift(x: real, k: int)
    ensures Floor(x - k as real) == Floor(x) - k
  {
  }
}
