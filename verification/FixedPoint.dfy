/** Integer arithmetic as the contracts and the TypeScript mirror perform it.

    Rust `i128` and TypeScript `bigint` division both truncate toward zero, while
    Dafny's `/` is Euclidean, so every division of the source is written `TDiv`. */
module FixedPoint {

  const BPS := 10_000
  const INDEX_PRECISION := 100_000_000_000_000
  const SECONDS_PER_YEAR := 31_536_000
  const I128_MAX := 0x7FFF_FFFF_FFFF_FFFF_FFFF_FFFF_FFFF_FFFF
  const I128_MIN := -I128_MAX - 1

  predicate FitsI128(x: int) {
    I128_MIN <= x <= I128_MAX
  }

  function Abs(x: int): nat {
    if x < 0 then -x else x
  }

  function Min(x: int, y: int): int {
    if x <= y then x else y
  }

  function Max(x: int, y: int): int {
    if x <= y then y else x
  }

  /** Division truncating toward zero. */
  function TDiv(x: int, y: int): int
    requires y != 0
  {
    var q := Abs(x) / Abs(y);
    if (x < 0) == (y < 0) then q else -q
  }

  lemma MulLe(a: int, b: int, c: int)
    requires a <= b && 0 <= c
    ensures a * c <= b * c
    ensures c * a <= c * b
  {
    assert 0 <= (b - a) * c;
  }

  /** Regroupings of a product, kept apart so that other proofs stay linear. */
  lemma Regroup(a: int, b: int, c: int)
    ensures a * b * c == a * (b * c) == a * c * b == a * (c * b) == b * (a * c) == b * a * c
    ensures a * b * c == b * c * a == b * (c * a) == c * (a * b) == c * a * b == c * (b * a) == c * b * a
  {
  }

  lemma Distribute(a: int, b: int, c: int)
    ensures (a + b) * c == a * c + b * c
    ensures (a - b) * c == a * c - b * c
    ensures c * (a + b) == c * a + c * b
    ensures c * (a - b) == c * a - c * b
  {
  }

  lemma MultiplesApart(t: int, t': int, y: int)
    requires y > 0 && t' + 1 <= t
    ensures y * t' + y <= y * t
  {
    MulLe(t' + 1, t, y);
    assert y * (t' + 1) == y * t' + y;
  }

  /** Two multiples of `y` less than `y` apart in the right direction are ordered. */
  lemma MultiplesOrdered(t: int, t': int, y: int)
    requires y > 0 && y * t < y * t' + y
    ensures t <= t'
  {
    if t' + 1 <= t {
      MultiplesApart(t, t', y);
    }
  }

  lemma EuclideanQuotient(a: nat, y: int)
    requires y > 0
    ensures 0 <= a / y && y * (a / y) <= a < y * (a / y) + y
  {
    assert a == y * (a / y) + a % y;
  }

  lemma TDivOfNonNegative(x: int, y: int)
    requires y > 0 && x >= 0
    ensures TDiv(x, y) == x / y
  {
    EuclideanQuotient(x, y);
  }

  lemma TDivNegate(x: int, y: int)
    requires y > 0
    ensures TDiv(-x, y) == -TDiv(x, y)
  {
    if x == 0 {
      EuclideanQuotient(0, y);
      MultiplesOrdered(0 / y, 0, y);
    }
  }

  /** The quotient by a positive divisor keeps the dividend's sign and leaves a
      remainder of that sign smaller than the divisor. */
  lemma TDivBounds(x: int, y: int)
    requires y > 0
    ensures x >= 0 ==> 0 <= TDiv(x, y) && y * TDiv(x, y) <= x < y * TDiv(x, y) + y
    ensures x <= 0 ==> TDiv(x, y) <= 0 && y * TDiv(x, y) - y < x <= y * TDiv(x, y)
  {
    hide TDiv;
    if x >= 0 {
      TDivOfNonNegative(x, y);
      EuclideanQuotient(x, y);
    }
    if x <= 0 {
      TDivNegate(x, y);
      TDivOfNonNegative(-x, y);
      EuclideanQuotient(-x, y);
      assert y * (-TDiv(x, y)) == -(y * TDiv(x, y));
    }
    if x == 0 {
      MultiplesOrdered(TDiv(x, y), 0, y);
    }
  }

  /** The bounds above determine the quotient. */
  lemma TDivUnique(x: int, y: int, q: int)
    requires y > 0
    requires x >= 0 ==> y * q <= x < y * q + y
    requires x < 0 ==> y * q - y < x <= y * q
    ensures TDiv(x, y) == q
  {
    hide TDiv;
    TDivBounds(x, y);
    MultiplesOrdered(TDiv(x, y), q, y);
    MultiplesOrdered(q, TDiv(x, y), y);
  }

  /** `q` is the quotient of `n` by a positive `d` with its remainder dropped, said without
      dividing: the multiple of `d` nearest to `n` on the side of zero. */
  predicate Truncates(n: int, d: int, q: int) {
    && (n >= 0 ==> d * q <= n < d * q + d)
    && (n <= 0 ==> d * q - d < n <= d * q)
  }

  lemma TruncatesIff(n: int, d: int, q: int)
    requires d > 0
    ensures Truncates(n, d, q) <==> q == TDiv(n, d)
  {
    hide TDiv;
    TDivBounds(n, d);
    if Truncates(n, d, q) {
      TDivUnique(n, d, q);
    } else if n == 0 {
      MultiplesOrdered(TDiv(n, d), 0, d);
    }
  }

  lemma TDivMonotone(x: int, x': int, y: int)
    requires y > 0 && x <= x'
    ensures TDiv(x, y) <= TDiv(x', y)
  {
    hide TDiv;
    TDivBounds(x, y);
    TDivBounds(x', y);
    MultiplesOrdered(TDiv(x, y), TDiv(x', y), y);
  }

  /** A larger positive divisor never enlarges the quotient of a non-negative number. */
  lemma TDivAntitoneDivisor(x: int, y: int, y': int)
    requires x >= 0 && 0 < y <= y'
    ensures TDiv(x, y') <= TDiv(x, y)
  {
    hide TDiv;
    TDivBounds(x, y);
    TDivBounds(x, y');
    MulLe(y, y', TDiv(x, y'));
    MultiplesOrdered(TDiv(x, y'), TDiv(x, y), y);
  }

  /** A share `x * bps / BPS` of at most the whole lies between zero and the whole. */
  lemma ShareBounds(x: int, bps: int)
    requires x >= 0 && 0 <= bps <= BPS
    ensures 0 <= TDiv(x * bps, BPS) <= x
  {
    hide TDiv;
    MulLe(bps, BPS, x);
    MulLe(0, bps, x);
    TDivBounds(x * bps, BPS);
  }

  /** Truncating two numbers of one sign apart loses at most one unit. */
  lemma TDivAdd(a: int, b: int, y: int)
    requires y > 0 && ((a >= 0 && b >= 0) || (a <= 0 && b <= 0))
    ensures Abs(TDiv(a + b, y) - (TDiv(a, y) + TDiv(b, y))) <= 1
  {
    hide TDiv;
    TDivBounds(a, y);
    TDivBounds(b, y);
    TDivBounds(a + b, y);
    var qa, qb, q := TDiv(a, y), TDiv(b, y), TDiv(a + b, y);
    Distribute(qa, qb, y);
    Distribute(qa + qb, 1, y);
    MultiplesOrdered(q, qa + qb + 1, y);
    MultiplesOrdered(qa + qb - 1, q, y);
  }

  /** The sign threshold of a truncated quotient: it stays below `k` exactly when the
      dividend stays below `y * k`, shifted by one multiple when `k` is not positive. */
  lemma TDivBelow(x: int, y: int, k: int)
    requires y > 0
    ensures k > 0 ==> (TDiv(x, y) < k <==> x < y * k)
    ensures k <= 0 ==> (TDiv(x, y) < k <==> x <= y * (k - 1))
  {
    hide TDiv;
    TDivBounds(x, y);
    var t := TDiv(x, y);
    assert y * (k - 1) == y * k - y;
    if t < k {
      MulLe(t, k - 1, y);
    } else {
      MulLe(k, t, y);
    }
    if k <= 0 {
      MulLe(k - 1, -1, y);
    } else {
      MulLe(0, k - 1, y);
    }
  }
}
