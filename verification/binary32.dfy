/** The binary32 interchange format (IEEE 754-2008, section 3.4), as
    struct.pack(">f") and struct.unpack(">f") use it. */
module Binary32 {
  import opened Wrappers
  import opened Numbers

  /** A number as Python's float arithmetic sees it; only the sign of zero, the
      infinities and NaN are not reals. */
  datatype Float = Finite(r: real) | NegZero | PosInf | NegInf | NaN

  const TWO_23 := 0x80_0000
  const TWO_31 := 0x8000_0000
  const INFINITY := 0x7F80_0000

  function Pow2(n: int): (p: real)
    ensures p > 0.0
    decreases if n < 0 then -n else n
  {
    if n == 0 then 1.0
    else if n > 0 then 2.0 * Pow2(n - 1)
    else Pow2(n + 1) / 2.0
  }

  lemma Pow2Step(n: int)
    ensures Pow2(n + 1) == 2.0 * Pow2(n)
  {
  }

  lemma {:induction false} Pow2Adds(a: nat, b: nat)
    ensures Pow2(a + b) == Pow2(a) * Pow2(b)
    decreases b
  {
    if b == 0 {
    } else {
      Pow2Adds(a, b - 1);
      assert Pow2(a + b) == 2.0 * Pow2(a + (b - 1));
    }
  }

  /** The unit in the last place of the k-th exponent, k counted from the least
      normal one; the subnormal numbers share unit 0. */
  function Unit(k: int): (u: real)
    ensures u > 0.0
  {
    Pow2(k - 149)
  }

  /** The magnitude of a finite pattern: exponent field, then 23 fraction bits. */
  function Magnitude(bits: int): real
    requires 0 <= bits < INFINITY
  {
    var field := bits / TWO_23;
    var fraction := bits % TWO_23;
    if field == 0 then fraction as real * Unit(field)
    else (fraction + TWO_23) as real * Unit(field - 1)
  }

  /** The exponent of m, at least k. */
  function Exponent(m: real, k: int): (x: int)
    requires 0 <= k <= 253
    ensures k <= x <= 253
    decreases 253 - k, m
  {
    if k == 253 || m < 16777216.0 * Unit(k) then k else Exponent(m, k + 1)
  }

  /** The pattern nearest to m, ties to even; INFINITY or above when too large. */
  function MagnitudeBits(m: real): (bits: int)
    requires m >= 0.0
  {
    var k := Exponent(m, 0);
    k * TWO_23 + RoundHalfEven(m / Unit(k))
  }

  function Unpack(bits: int): Float
    requires 0 <= bits < 0x1_0000_0000
  {
    var rest := bits % TWO_31;
    if rest > INFINITY then NaN
    else if bits < TWO_31 then
      if rest == INFINITY then PosInf else Finite(Magnitude(rest))
    else
      if rest == INFINITY then NegInf
      else if rest == 0 then NegZero
      else Finite(-Magnitude(rest))
  }

  /** None is Python's OverflowError, "float too large to pack with f format". */
  function Pack(x: Float): Option<int> {
    match x
    case NaN => Some(0x7FC0_0000)
    case PosInf => Some(INFINITY)
    case NegInf => Some(TWO_31 + INFINITY)
    case NegZero => Some(TWO_31)
    case Finite(r) =>
      var bits := MagnitudeBits(Abs(r));
      if bits >= INFINITY then None
      else Some(if r < 0.0 then TWO_31 + bits else bits)
  }

  // -------------------------------------------------------------- round trip

  lemma UnitStep(k: int)
    ensures Unit(k + 1) == 2.0 * Unit(k)
  {
    Pow2Step(k - 149);
  }

  lemma {:induction false} ExponentIs(m: real, k: int, x: int)
    requires 0 <= k <= x <= 253
    requires x > k ==> 8388608.0 * Unit(x) <= m
    requires x == 253 || m < 16777216.0 * Unit(x)
    ensures Exponent(m, k) == x
    decreases x - k
  {
    if k < x {
      UnitMono(k + 1, x);
      UnitStep(k);
      ExponentIs(m, k + 1, x);
    }
  }

  lemma {:induction false} UnitMono(a: int, b: int)
    requires a <= b
    ensures Unit(a) <= Unit(b)
    decreases b - a
  {
    if a < b {
      UnitMono(a, b - 1);
      UnitStep(b - 1);
    }
  }

  lemma {:induction false} ExponentBounds(m: real, k: int)
    requires 0 <= k <= 253 && (k > 0 ==> 8388608.0 * Unit(k) <= m)
    ensures var x := Exponent(m, k);
            (x > 0 ==> 8388608.0 * Unit(x) <= m) && (x < 253 ==> m < 16777216.0 * Unit(x))
    decreases 253 - k
  {
    if k < 253 && m >= 16777216.0 * Unit(k) {
      UnitStep(k);
      ExponentBounds(m, k + 1);
    }
  }

  /** n units of the k-th exponent, normal or subnormal. */
  ghost predicate Representable(k: int, n: int) {
    0 <= k <= 253 && 0 <= n < 2 * TWO_23 && (k == 0 || n >= TWO_23)
  }

  lemma UnitBounds(n: int, q: real, m: real)
    requires q > 0.0 && 0 <= n < 2 * TWO_23 && m == n as real * q
    ensures 0.0 <= m < 16777216.0 * q
    ensures n > 0 ==> 0.0 < m
    ensures n >= TWO_23 ==> 8388608.0 * q <= m
  {
    Within(if n >= TWO_23 then 8388608.0 else if n > 0 then 1.0 else 0.0, n as real, 16777215.0, q, m);
  }

  lemma UnitsRound(n: int, q: real, m: real)
    requires q > 0.0 && m == n as real * q
    ensures RoundHalfEven(m / q) == n
  {
    assert m / q == n as real;
    RoundIsNearestEven(n as real, n);
  }

  lemma UnitsPack(k: int, n: int, m: real)
    requires Representable(k, n) && m == n as real * Unit(k)
    ensures m >= 0.0 && (n > 0 ==> m > 0.0)
    ensures MagnitudeBits(m) == k * TWO_23 + n
  {
    UnitBounds(n, Unit(k), m);
    UnitsRound(n, Unit(k), m);
    ExponentIs(m, 0, k);
  }

  lemma Fields(field: int, fraction: int)
    requires 0 <= fraction < TWO_23 && 0 <= field
    ensures (field * TWO_23 + fraction) / TWO_23 == field && (field * TWO_23 + fraction) % TWO_23 == fraction
  {
  }

  lemma UnitsUnpack(k: int, n: int)
    requires Representable(k, n) || (n == 2 * TWO_23 && 0 <= k < 253)
    ensures 0 <= k * TWO_23 + n < INFINITY
    ensures Magnitude(k * TWO_23 + n) == n as real * Unit(k)
  {
    if n == 2 * TWO_23 {
      Fields(k + 2, 0);
      UnitStep(k);
    } else if n >= TWO_23 {
      Fields(k + 1, n - TWO_23);
    } else {
      Fields(0, n);
    }
  }

  lemma MagnitudeRoundTrip(bits: int)
    requires 0 <= bits < INFINITY
    ensures Magnitude(bits) >= 0.0 && MagnitudeBits(Magnitude(bits)) == bits
    ensures bits > 0 ==> Magnitude(bits) > 0.0
  {
    var field, fraction := bits / TWO_23, bits % TWO_23;
    assert bits == field * TWO_23 + fraction && field < 255;
    var k := if field == 0 then 0 else field - 1;
    var n := if field == 0 then fraction else fraction + TWO_23;
    UnitsPack(k, n, Magnitude(bits));
    UnitsUnpack(k, n);
  }

  /** Every pattern that is not a NaN survives unpack and pack. */
  lemma PatternSurvives(bits: int)
    requires 0 <= bits < 0x1_0000_0000 && Unpack(bits) != NaN
    ensures Pack(Unpack(bits)) == Some(bits)
  {
    var negative, rest := bits >= TWO_31, bits % TWO_31;
    assert bits == if negative then TWO_31 + rest else rest;
    if rest < INFINITY {
      MagnitudeRoundTrip(rest);
      UnpackSigned(negative, rest);
      SignedSurvives(negative, rest, Magnitude(rest));
    } else {
      InfinitySurvives(negative);
    }
  }

  lemma InfinitySurvives(negative: bool)
    ensures var bits := if negative then TWO_31 + INFINITY else INFINITY;
            Pack(Unpack(bits)) == Some(bits)
  {
  }

  lemma SignedSurvives(negative: bool, rest: int, m: real)
    requires 0 <= rest < INFINITY && m >= 0.0 && MagnitudeBits(m) == rest && (rest > 0 ==> m > 0.0)
    ensures negative && rest > 0 ==> Pack(Finite(-m)) == Some(TWO_31 + rest)
    ensures !negative ==> Pack(Finite(m)) == Some(rest)
  {
  }

  lemma Halves(n: real, q: real, p: real)
    requires p == n * q
    ensures (n - 0.5) * q == p - q / 2.0 && (n + 0.5) * q == p + q / 2.0
  {
  }

  lemma HalfUnit(n: real, x: real, q: real, m: real, p: real)
    requires q > 0.0 && n - 0.5 <= x <= n + 0.5 && m == x * q && p == n * q
    ensures Abs(p - m) <= q / 2.0
  {
    Within(n - 0.5, x, n + 0.5, q, m);
    Halves(n, q, p);
  }

  lemma RoundedRatio(m: real, q: real, n: int, p: real)
    requires q > 0.0 && m >= 0.0 && n == RoundHalfEven(m / q) && p == n as real * q
    ensures Abs(p - m) <= q / 2.0
  {
    RoundIsNearestEven(m / q, n);
    assert m == m / q * q;
    HalfUnit(n as real, m / q, q, m, p);
  }

  lemma RoundedRange(m: real, q: real, n: int)
    requires q > 0.0 && m >= 0.0 && n == RoundHalfEven(m / q)
    ensures 0 <= n
    ensures m < 16777216.0 * q ==> n <= 2 * TWO_23
    ensures 8388608.0 * q <= m ==> TWO_23 <= n
    ensures 16777216.0 * q <= m ==> 2 * TWO_23 <= n
  {
    RoundIsNearestEven(m / q, n);
    DivBound(0.0, m, q);
    DivBound(8388608.0, m, q);
    DivBound(16777216.0, m, q);
  }

  /** The units MagnitudeBits settles on: representable, or the carry into the
      next exponent. */
  lemma RoundedUnits(m: real, k: int, n: int)
    requires m >= 0.0 && MagnitudeBits(m) < INFINITY
    requires k == Exponent(m, 0) && n == RoundHalfEven(m / Unit(k))
    ensures MagnitudeBits(m) == k * TWO_23 + n
    ensures Representable(k, n) || (n == 2 * TWO_23 && 0 <= k < 253)
    ensures Abs(n as real * Unit(k) - m) <= Unit(k) / 2.0
  {
    ExponentBounds(m, 0);
    RoundedRange(m, Unit(k), n);
    RoundedRatio(m, Unit(k), n, n as real * Unit(k));
  }

  /** Packing overflows exactly from halfway between the largest finite number and
      the next power of two. */
  lemma OverflowIff(m: real)
    requires m >= 0.0
    ensures MagnitudeBits(m) >= INFINITY <==> 16777215.5 * Unit(253) <= m
  {
    var k := Exponent(m, 0);
    var n := RoundHalfEven(m / Unit(k));
    ExponentBounds(m, 0);
    RoundedRange(m, Unit(k), n);
    if k < 253 {
      UnitMono(k + 1, 253);
      UnitStep(k);
    } else {
      RoundsUp(m, Unit(k), n);
    }
  }

  lemma RoundsUp(m: real, q: real, n: int)
    requires q > 0.0 && m >= 0.0 && n == RoundHalfEven(m / q)
    ensures n >= 2 * TWO_23 <==> 16777215.5 * q <= m
  {
    RoundIsNearestEven(m / q, n);
    DivBound(16777215.5, m, q);
  }

  lemma PackIsAPattern(x: Float)
    ensures Pack(x).Some? ==> 0 <= Pack(x).value < 0x1_0000_0000
    ensures Pack(x).Some? && x != NaN ==> Unpack(Pack(x).value) != NaN
  {
    if x.Finite? && Pack(x).Some? {
      var k := Exponent(Abs(x.r), 0);
      var n := RoundHalfEven(Abs(x.r) / Unit(k));
      RoundedUnits(Abs(x.r), k, n);
      UnitsUnpack(k, n);
    }
  }

  lemma UnpackSigned(negative: bool, rest: int)
    requires 0 <= rest < INFINITY
    ensures Unpack(if negative then TWO_31 + rest else rest)
            == if !negative then Finite(Magnitude(rest))
               else if rest == 0 then NegZero
               else Finite(-Magnitude(rest))
    ensures rest == 0 ==> Magnitude(rest) == 0.0
  {
    assert rest % TWO_31 == rest && (TWO_31 + rest) % TWO_31 == rest;
  }

  /** Packing a finite number loses at most half a unit in its last place. */
  lemma PackIsNearest(r: real, bits: int)
    requires Pack(Finite(r)) == Some(bits)
    ensures 0 <= bits < 0x1_0000_0000
    ensures var half := Unit(Exponent(Abs(r), 0)) / 2.0;
            match Unpack(bits)
            case Finite(back) => Abs(back - r) <= half
            case NegZero => Abs(r) <= half
            case _ => false
  {
    var k := Exponent(Abs(r), 0);
    var n := RoundHalfEven(Abs(r) / Unit(k));
    RoundedUnits(Abs(r), k, n);
    UnitsUnpack(k, n);
    UnpackSigned(r < 0.0, k * TWO_23 + n);
  }

  /** The values that are no finite numbers, and -0, have their patterns in IEEE 754
      and come back, NaN as a NaN. */
  lemma SpecialsSurvive()
    ensures Pack(PosInf) == Some(0x7F80_0000) && Pack(NegInf) == Some(0xFF80_0000) && Pack(NegZero) == Some(0x8000_0000)
    ensures Unpack(0x7F80_0000) == PosInf && Unpack(0xFF80_0000) == NegInf && Unpack(0x8000_0000) == NegZero
    ensures Pack(NaN).Some? && 0 <= Pack(NaN).value < 0x1_0000_0000 && Unpack(Pack(NaN).value) == NaN
  {
  }

  /** What a sign and a comparison with NaN do to a clamp. */
  predicate Below(x: Float, y: real) {
    match x
    case Finite(r) => r < y
    case NegZero => 0.0 < y
    case NegInf => true
    case PosInf | NaN => false
  }

  predicate Above(x: Float, y: real) {
    match x
    case Finite(r) => r > y
    case NegZero => 0.0 > y
    case PosInf => true
    case NegInf | NaN => false
  }

  function Negated(x: Float): Float {
    match x
    case Finite(r) => if r == 0.0 then NegZero else Finite(-r)
    case NegZero => Finite(0.0)
    case PosInf => NegInf
    case NegInf => PosInf
    case NaN => NaN
  }

  /** Multiplication by a scale. */
  function Scaled(x: Float, scale: real): Float {
    if scale > 0.0 then if x.Finite? then Finite(x.r * scale) else x
    else if scale < 0.0 then Negated(if x.Finite? then Finite(x.r * -scale) else x)
    else if x.Finite? then if x.r < 0.0 then NegZero else Finite(0.0)
    else if x.NegZero? then x
    else NaN
  }

  /** Division by a scale. */
  function Unscaled(x: Float, scale: real): Float
    requires scale != 0.0
  {
    if scale > 0.0 then if x.Finite? then Finite(x.r / scale) else x
    else Negated(if x.Finite? then Finite(x.r / -scale) else x)
  }
}
