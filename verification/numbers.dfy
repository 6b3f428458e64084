/** Rounding, as Python's round() and math do it, over exact reals. */
module Numbers {

  /** Python's round(): to nearest, halves to the even neighbour. */
  function RoundHalfEven(r: real): int {
    var low := r.Floor;
    var rest := r - low as real;
    if rest < 0.5 then low
    else if rest > 0.5 then low + 1
    else if low % 2 == 0 then low
    else low + 1
  }

  /** What pins the rounding down: n is it exactly when n is nearest, and on a
      tie also even. */
  lemma RoundIsNearestEven(r: real, n: int)
    ensures RoundHalfEven(r) == n
            <==> (-0.5 <= r - n as real <= 0.5 && (r - n as real == 0.5 || r - n as real == -0.5 ==> n % 2 == 0))
  {
    var low := r.Floor;
    assert low as real <= r < low as real + 1.0;
    if -0.5 <= r - n as real <= 0.5 {
      assert n == low || n == low + 1;
    }
  }

  function Trunc(r: real): int {
    if r >= 0.0 then r.Floor else -((-r).Floor)
  }

  /** Python's int() drops the fraction, towards zero. */
  lemma TruncIsTowardsZero(r: real, n: int)
    ensures Trunc(r) == n <==> Abs(n as real) <= Abs(r) < Abs(n as real) + 1.0 && (n > 0 ==> r > 0.0) && (n < 0 ==> r < 0.0)
  {
    if r >= 0.0 {
      assert r.Floor as real <= r < r.Floor as real + 1.0;
    } else {
      assert (-r).Floor as real <= -r < (-r).Floor as real + 1.0;
    }
  }

  /** The least integer not below r. */
  function Ceil(r: real): (n: int)
    ensures n as real - 1.0 < r <= n as real
  {
    -((-r).Floor)
  }

  function Abs(r: real): real {
    if r < 0.0 then -r else r
  }

  function Max(a: real, b: real): real {
    if a < b then b else a
  }

  lemma MulMono(a: real, b: real, c: real)
    requires a <= b && c >= 0.0
    ensures a * c <= b * c
  {
    assert (b - a) * c >= 0.0;
  }

  lemma Within(low: real, n: real, high: real, q: real, m: real)
    requires low <= n <= high && q >= 0.0 && m == n * q
    ensures low * q <= m <= high * q
  {
    MulMono(low, n, q);
    MulMono(n, high, q);
  }

  lemma DivBound(a: real, b: real, c: real)
    requires c > 0.0
    ensures a <= b / c <==> a * c <= b
    ensures b / c <= a <==> b <= a * c
    ensures a < b / c <==> a * c < b
    ensures b / c < a <==> b < a * c
  {
    var q := b / c;
    assert q * c == b;
    assert (q - a) * c == b - a * c;
    assert q >= a ==> (q - a) * c >= 0.0;
    assert q < a ==> (a - q) * c > 0.0;
    assert q > a ==> (q - a) * c > 0.0;
  }

  /** k d, counted up. */
  function Times(k: nat, d: real): real {
    if k == 0 then 0.0 else Times(k - 1, d) + d
  }

  lemma {:induction false} TimesIsProduct(k: nat, d: real)
    ensures Times(k, d) == k as real * d
  {
    if k == 0 {
    } else {
      TimesIsProduct(k - 1, d);
    }
  }

  lemma {:induction false} TimesAdds(a: nat, b: nat, d: real)
    ensures Times(a + b, d) == Times(a, d) + Times(b, d)
    decreases b
  {
    if b == 0 {
    } else {
      TimesAdds(a, b - 1, d);
    }
  }
}
