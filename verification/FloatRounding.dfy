/** The rounding of Quantize in binary64 arithmetic (sections 3.3 and 4.3.1 of IEEE 754-2019). The
    amounts stay far from the smallest and largest exponents, which are left unbounded here. */
module FloatRounding {
  import opened Quantities

  const P52: int := 4_503_599_627_370_496
  const P53: int := 9_007_199_254_740_992

  /** 16 TiB in milli-bytes. */
  const TIB16: int := 17_592_186_044_416_000

  const MAX_INT64: int := 9_223_372_036_854_775_807

  function Pow2(e: int): (r: real)
    ensures r > 0.0
    decreases if e < 0 then -e else e
  {
    if e == 0 then 1.0 else if e > 0 then 2.0 * Pow2(e - 1) else Pow2(e + 1) / 2.0
  }

  predicate IsForm(y: real, m: int, e: int)
  {
    y == m as real * Pow2(e)
  }

  /** A binary64 number: a significand below 2^53 and an exponent. */
  ghost predicate Float(y: real)
  {
    exists m, e :: -P53 < m < P53 && IsForm(y, m, e)
  }

  /** Its normalised significand is even. */
  ghost predicate EvenSignificand(y: real)
  {
    exists m, e :: P52 <= m < P53 && m % 2 == 0 && IsForm(y, m, e)
  }

  function Distance(x: real, y: real): real
  {
    if x < y then y - x else x - y
  }

  /** Round to nearest, ties to even, of a non-negative number. */
  ghost predicate Rounds(x: real, y: real)
  {
    && Float(y)
    && (forall z :: Float(z) ==> Distance(x, y) <= Distance(x, z))
    && (forall z :: Float(z) && z != y && Distance(x, z) == Distance(x, y) ==> EvenSignificand(y))
  }

  function Ceil(x: real): int
  {
    -((-x).Floor)
  }

  /** What Quantize returns in floating point; f, q and s are the intermediate results. */
  ghost predicate FloatQuantized(res: string, milli: int, f: real, q: real, s: real, r: int)
  {
    && Rounds(milli as real, f) && Rounds(f / 1000.0, q) && Rounds(q / 1048576.0, s)
    && r == if IsCountable(res) then Ceil(q) * 1000 else if IsBytes(res) then Ceil(s) * 1_048_576_000 else milli
  }

  lemma ExactRounds(x: real, y: real)
    requires Float(x) && Rounds(x, y)
    ensures y == x
  {
    assert Distance(x, x) == 0.0;
  }

  lemma FloatRoundsToItself(x: real)
    requires Float(x)
    ensures Rounds(x, x)
  {
  }

  lemma IntegerIsFloat(n: int)
    requires 0 <= n <= P53
    ensures Float(n as real)
  {
    assert Pow2(0) == 1.0 && Pow2(1) == 2.0;
    if n < P53 { assert IsForm(n as real, n, 0); } else { assert IsForm(n as real, P52, 1); }
  }

  lemma FractionIsFloat(k: int)
    requires 0 <= k <= P53
    ensures Float(k as real / 512.0)
  {
    assert Pow2(0) == 1.0 && Pow2(-1) == 0.5 && Pow2(-2) == 0.25 && Pow2(-3) == 0.125 && Pow2(-4) == 0.0625;
    assert Pow2(-5) == 0.03125 && Pow2(-6) == 0.015625 && Pow2(-7) == 0.0078125 && Pow2(-8) == 0.00390625;
    assert Pow2(-9) == 0.001953125;
    if k < P53 { assert IsForm(k as real / 512.0, k, -9); } else { assert IsForm(k as real / 512.0, P52, -8); }
  }

  lemma {:induction false} Pow2Shift(e: int, k: nat)
    ensures Pow2(e - k) * Pow2(k) == Pow2(e)
  {
    if k > 0 {
      Pow2Shift(e, k - 1);
      Pow2Double(e - k);
      Pow2Double(k - 1);
      hide Pow2;
    }
  }

  lemma Pow2Twenty()
    ensures Pow2(20) == 1048576.0
  {
    assert Pow2(0) == 1.0 && Pow2(5) == 32.0 && Pow2(10) == 1024.0 && Pow2(15) == 32768.0;
  }

  /** Dividing by 2^20 is exact. */
  lemma ScaledIsFloat(y: real)
    requires Float(y)
    ensures Float(y / 1048576.0)
  {
    var m, e :| -P53 < m < P53 && IsForm(y, m, e);
    Pow2Shift(e, 20);
    Pow2Twenty();
    hide Pow2;
    assert IsForm(y / 1048576.0, m, e - 20);
  }

  /** Rounding a division by 1000 never crosses a whole number. */
  lemma DivisionKeepsOrder(f: int, q: real, n: int)
    requires 0 <= f <= TIB16 && 0 <= n <= P53 && Rounds(f as real / 1000.0, q)
    ensures q <= n as real <==> f <= 1000 * n
  {
    var x := f as real / 1000.0;
    IntegerIsFloat(n);
    var k := (x * 512.0 + 0.5).Floor;
    FractionIsFloat(k);
    assert Distance(x, q) <= Distance(x, n as real);
    assert Distance(x, q) <= Distance(x, k as real / 512.0) <= 1.0 / 1024.0;
  }

  lemma CeilOfRounded(f: int, q: real)
    requires 0 <= f <= TIB16 && Rounds(f as real / 1000.0, q)
    ensures Ceil(q) == CeilDiv(f, 1000)
  {
    IntegerIsFloat(0);
    if f == 0 { ExactRounds(0.0, q); }
    hide Rounds;
    var n := CeilDiv(f, 1000);
    CeilThousands(f, n);
    DivisionKeepsOrder(f, q, n);
    if n > 0 { DivisionKeepsOrder(f, q, n - 1); }
  }

  lemma CeilOfMebibytes(f: int, q: real, s: real)
    requires 0 <= f <= TIB16 && Rounds(f as real / 1000.0, q) && Rounds(q / 1048576.0, s)
    ensures Ceil(s) == CeilDiv(f, 1_048_576_000)
  {
    ScaledIsFloat(q);
    ExactRounds(q / 1048576.0, s);
    IntegerIsFloat(0);
    if f == 0 { ExactRounds(0.0, q); }
    hide Rounds;
    var n := CeilDiv(f, 1_048_576_000);
    CeilMebibytes(f, n);
    DivisionKeepsOrder(f, q, n * 1_048_576);
    if n > 0 { DivisionKeepsOrder(f, q, (n - 1) * 1_048_576); }
  }

  /** Up to 2^53 milli-units, floating point rounds up to exactly the least whole unit. */
  lemma ExactUpToP53(res: string, milli: int, f: real, q: real, s: real, r: int)
    requires 0 <= milli <= P53 && FloatQuantized(res, milli, f, q, s, r)
    ensures r == Quantize(res, milli)
  {
    IntegerIsFloat(milli);
    ExactRounds(milli as real, f);
    CeilOfRounded(milli, q);
    CeilOfMebibytes(milli, q, s);
  }

  /* ---------- every binade ---------- */

  function Two(j: nat): (t: int)
    ensures t >= 1
  {
    if j == 0 then 1 else 2 * Two(j - 1)
  }

  /** The distance between neighbouring floating-point numbers at an amount, or one where they are closer. */
  function Spacing(milli: int): (s: int)
    ensures s >= 1
    decreases milli
  {
    if milli < P53 then 1 else 2 * Spacing(milli / 2)
  }

  lemma {:induction false} SpacingIs(milli: int) returns (j: nat)
    requires milli >= P53
    ensures Spacing(milli) == Two(j) && P52 * Two(j) <= milli < P53 * Two(j)
  {
    if milli / 2 < P53 {
      j := 1;
      assert Two(1) == 2;
    } else {
      var k := SpacingIs(milli / 2);
      j := k + 1;
      hide Spacing, Two;
      assert Two(j) == 2 * Two(k) by { DoubleTwo(k); }
      assert Spacing(milli) == 2 * Spacing(milli / 2) by { DoubleSpacing(milli); }
    }
  }

  lemma DoubleTwo(k: nat)
    ensures Two(k + 1) == 2 * Two(k)
  {
  }

  lemma DoubleSpacing(milli: int)
    requires milli >= P53
    ensures Spacing(milli) == 2 * Spacing(milli / 2)
  {
  }

  lemma {:induction false} TwoIsPow2(j: nat)
    ensures Pow2(j) == Two(j) as real
  {
    if j > 0 { TwoIsPow2(j - 1); }
  }

  lemma {:induction false} TwoSplit(a: nat, b: nat)
    ensures Two(a + b) == Two(a) * Two(b)
  {
    if b > 0 {
      TwoSplit(a, b - 1);
      DoubleTwo(a + b - 1);
      DoubleTwo(b - 1);
      hide Two;
      assert Two(a) * (2 * Two(b - 1)) == 2 * (Two(a) * Two(b - 1));
    }
  }

  lemma {:induction false} TwoMonotone(a: nat, b: nat)
    requires a <= b
    ensures Two(a) <= Two(b)
  {
    if a < b { TwoMonotone(a, b - 1); }
  }

  lemma {:induction false} Pow2Monotone(a: int, b: int)
    requires a <= b
    ensures Pow2(a) <= Pow2(b)
    decreases b - a
  {
    if a < b {
      Pow2Monotone(a, b - 1);
      Pow2Double(b - 1);
      hide Pow2;
    }
  }

  lemma Pow2Double(e: int)
    ensures Pow2(e + 1) == 2.0 * Pow2(e)
  {
  }

  lemma {:induction false} Pow2Whole(e: nat) returns (k: int)
    ensures k >= 1 && Pow2(e) == k as real
  {
    TwoIsPow2(e);
    k := Two(e);
  }

  predicate IsMultiple(y: real, s: int, b: int)
  {
    y == (s * b) as real
  }

  lemma SmallExponent(m: int, e: int, j: nat)
    requires m < P53 && e < j
    ensures m as real * Pow2(e) < (P52 * Two(j)) as real
  {
    Pow2Monotone(e, j - 1);
    Pow2Double(j - 1);
    TwoIsPow2(j);
    hide Pow2, Two;
    var t := Pow2(j - 1);
    CastProduct(P52, Two(j));
    assert P52 as real * (2.0 * t) == P53 as real * t;
    RealProduct(m as real, Pow2(e), t, P53 as real);
  }

  lemma RealProduct(m: real, p: real, t: real, big: real)
    requires m < big && 0.0 < p <= t && big > 0.0
    ensures m * p < big * t
  {
    if m > 0.0 {
      assert m * (t - p) >= 0.0;
      assert (big - m) * t > 0.0;
    } else {
      assert (-m) * p >= 0.0 && big * t > 0.0;
    }
  }

  lemma CastProduct(a: int, b: int)
    ensures (a * b) as real == a as real * b as real
  {
  }

  lemma BigProduct(s: int, m: int, k: int)
    requires s >= 1 && m >= P52 && k >= 2
    ensures s * (m * k) >= P53 * s
  {
    assert m * k >= m * 2;
    assert s * (m * k) >= s * P53;
  }

  /** A form with a larger exponent is a multiple. */
  lemma FormIsMultiple(y: real, m: int, e: int, j: nat) returns (k: int)
    requires IsForm(y, m, e) && e >= j
    ensures k >= 1 && IsMultiple(y, Two(j), m * k)
  {
    Pow2Shift(e, j);
    TwoIsPow2(j);
    k := Pow2Whole(e - j);
    hide Pow2, Two;
    Reorder(m, k, Two(j));
    CastProduct(k, Two(j));
  }

  /** The floating-point numbers of a binade are the multiples of its spacing. */
  lemma BinadeIsMultiples(y: real, m: int, e: int, j: nat)
    requires -P53 < m < P53 && IsForm(y, m, e) && (P52 * Two(j)) as real <= y < (P53 * Two(j)) as real
    ensures exists b :: IsMultiple(y, Two(j), b)
    ensures m >= P52 ==> IsMultiple(y, Two(j), m)
  {
    hide Pow2, Two;
    if e < j { SmallExponent(m, e, j); }
    var k := FormIsMultiple(y, m, e, j);
    if m >= P52 {
      if k >= 2 { BigProduct(Two(j), m, k); }
      assert k == 1;
    }
  }

  lemma Reorder(m: int, k: int, s: int)
    ensures m as real * (k * s) as real == (s * (m * k)) as real
  {
    assert m * (k * s) == s * (m * k);
    assert m as real * (k * s) as real == (m * (k * s)) as real;
  }

  lemma NextMultiple(s: int, b: int, c: int)
    requires s >= 1 && s * b > s * c
    ensures b >= c + 1 && s * b >= s * (c + 1)
  {
    if b <= c { MultipleLe(s, b, c); }
    MultipleLe(s, c + 1, b);
  }

  lemma {:induction false} MultipleLe(s: int, b: int, c: int)
    requires s >= 1 && b <= c
    ensures s * b <= s * c
    decreases c - b
  {
    if b < c {
      MultipleLe(s, b, c - 1);
      StepUp(s, c - 1);
    }
  }

  lemma MultipleIsFloat(j: nat, b: int)
    requires P52 <= b <= P53
    ensures Float((Two(j) * b) as real)
    ensures b < P53 && b % 2 == 0 ==> EvenSignificand((Two(j) * b) as real)
  {
    TwoIsPow2(j);
    TwoIsPow2(j + 1);
    DoubleTwo(j);
    hide Pow2, Two;
    var y := (Two(j) * b) as real;
    if b < P53 {
      assert IsForm(y, b, j);
    } else {
      assert IsForm(y, P52, j + 1);
    }
  }

  /** Above a multiple of the spacing, the next floating-point number is the next multiple. */
  lemma FloatAbove(j: nat, b: int, z: real)
    requires P52 <= b < P53 && Float(z) && z > (Two(j) * b) as real
    ensures z >= (Two(j) * (b + 1)) as real
  {
    var s := Two(j);
    if z >= (P53 * s) as real {
      MultipleLe(s, b + 1, P53);
    } else {
      MultipleLe(s, P52, b);
      var m, e :| -P53 < m < P53 && IsForm(z, m, e);
      BinadeIsMultiples(z, m, e, j);
      var c :| IsMultiple(z, s, c);
      NextMultiple(s, c, b);
    }
  }

  lemma SameFactor(s: int, b: int, m: int)
    requires s >= 1 && s * b == s * m
    ensures b == m
  {
    if b < m { MultipleLe(s, b + 1, m); } else if m < b { MultipleLe(s, m + 1, b); }
  }

  lemma SignificandIn(j: nat, b: int, m: int, e: int)
    requires P52 <= b < P53 && P52 <= m < P53 && IsForm((Two(j) * b) as real, m, e)
    ensures m == b
  {
    hide Pow2, Two, IsForm;
    MultipleLe(Two(j), P52, b);
    MultipleLe(Two(j), b + 1, P53);
    BinadeIsMultiples((Two(j) * b) as real, m, e, j);
    SameFactor(Two(j), b, m);
  }

  lemma EvenInBinade(j: nat, b: int)
    requires P52 <= b < P53 && EvenSignificand((Two(j) * b) as real)
    ensures b % 2 == 0
  {
    hide Pow2, Two, IsForm;
    var m, e :| P52 <= m < P53 && m % 2 == 0 && IsForm((Two(j) * b) as real, m, e);
    SignificandIn(j, b, m, e);
  }

  /* ---------- the conversion of an amount ---------- */

  /** An amount in a binade: a multiple of an even number of spacings, and a rest below the next such one. */
  predicate Split(milli: int, j: nat, b: int, c: int, r: int)
  {
    && milli == Two(j) * b + r && 0 <= r < Two(j) * c
    && b >= 0 && b % 2 == 0 && c >= 2
    && P52 * Two(j) <= milli < P53 * Two(j)
  }

  lemma StepUp(s: int, b: int)
    ensures s * (b + 1) == s * b + s
  {
  }

  lemma NearBoundary(milli: int, j: nat, b: int, c: int, r: int)
    requires Split(milli, j, b, c, r) && r < Two(j)
    ensures P52 <= b && b + 1 < P53
  {
    hide Two;
    StepUp(Two(j), b);
    NextMultiple(Two(j), b + 1, P52);
    NextMultiple(Two(j), P53, b);
  }

  lemma NoneCloser(milli: int, f: real, z: real)
    requires Rounds(milli as real, f) && Float(z)
    ensures z <= milli as real ==> z <= f
    ensures z >= milli as real ==> f <= z
    ensures Distance(milli as real, f) <= Distance(milli as real, z)
  {
    hide Float;
  }

  lemma TieIsEven(milli: int, f: real, z: real)
    requires Rounds(milli as real, f) && Float(z) && z != f
    requires Distance(milli as real, f) == Distance(milli as real, z)
    ensures EvenSignificand(f)
  {
    hide Float, EvenSignificand;
  }

  /** Up to half the spacing above the boundary, the amount becomes the boundary. */
  lemma RoundsToBoundary(milli: int, j: nat, b: int, c: int, r: int, f: real)
    requires Split(milli, j, b, c, r) && 2 * r <= Two(j) && Rounds(milli as real, f)
    ensures f == (Two(j) * b) as real
  {
    NearBoundary(milli, j, b, c, r);
    hide Two, Float, Rounds, EvenSignificand;
    var s := Two(j);
    var low, high := (s * b) as real, (s * (b + 1)) as real;
    MultipleIsFloat(j, b);
    StepUp(s, b);
    NoneCloser(milli, f, low);
    hide Split;
    if f > low {
      RoundedIsFloat(milli as real, f);
      FloatAbove(j, b, f);
      assert f == high && 2 * r == s;
      TieIsEven(milli, f, low);
      EvenInBinade(j, b + 1);
    }
  }

  lemma RoundedIsFloat(x: real, y: real)
    requires Rounds(x, y)
    ensures Float(y)
  {
  }

  /** Just above half the spacing, it becomes the next multiple. */
  lemma RoundsToNext(milli: int, j: nat, b: int, c: int, r: int, f: real)
    requires Split(milli, j, b, c, r) && 2 * r > Two(j) && r < Two(j) && Rounds(milli as real, f)
    ensures f == (Two(j) * (b + 1)) as real
  {
    NearBoundary(milli, j, b, c, r);
    hide Two, Float, Rounds, EvenSignificand;
    var s := Two(j);
    MultipleIsFloat(j, b);
    MultipleIsFloat(j, b + 1);
    StepUp(s, b);
    NoneCloser(milli, f, (s * (b + 1)) as real);
    RoundedIsFloat(milli as real, f);
    FloatAbove(j, b, f);
  }

  lemma FarMultiples(milli: int, j: nat, b: int, c: int, r: int, q: int, t: int)
    requires Split(milli, j, b, c, r) && r == Two(j) * q + t && 0 <= t < Two(j) && q >= 1
    ensures P52 <= b + q && b + q + 1 <= P53 && b + 1 <= b + q && b + q + 1 <= b + c
    ensures Two(j) * (b + q) <= milli <= Two(j) * (b + q + 1)
  {
    hide Two;
    var s := Two(j);
    assert s * (b + q) == s * b + s * q;
    StepUp(s, b + q);
    NextMultiple(s, P53, b + q);
    NextMultiple(s, b + q + 1, P52);
    if q >= c { MultipleLe(s, c, q); }
  }

  /** A spacing or more above the boundary, it stays a spacing above it and below the next boundary. */
  lemma RoundsBetween(milli: int, j: nat, b: int, c: int, r: int, q: int, t: int, f: real)
    requires Split(milli, j, b, c, r) && r == Two(j) * q + t && 0 <= t < Two(j) && q >= 1
    requires Rounds(milli as real, f)
    ensures (Two(j) * (b + 1)) as real <= f <= (Two(j) * (b + c)) as real && f <= (P53 * Two(j)) as real
  {
    hide Two, Float, Rounds, Split;
    FarMultiples(milli, j, b, c, r, q, t);
    MultipleIsFloat(j, b + q);
    MultipleIsFloat(j, b + q + 1);
    NoneCloser(milli, f, (Two(j) * (b + q)) as real);
    NoneCloser(milli, f, (Two(j) * (b + q + 1)) as real);
    MultipleLe(Two(j), b + 1, b + q);
    MultipleLe(Two(j), b + q + 1, b + c);
    MultipleLe(Two(j), b + q + 1, P53);
  }

  lemma DivMod(r: int, s: int) returns (q: int, t: int)
    requires s >= 1 && r >= s
    ensures r == s * q + t && 0 <= t < s && q >= 1
  {
    q, t := r / s, r % s;
    if q < 1 { MultipleLe(s, q, 0); }
  }

  /** In one statement: at most half a spacing above the boundary is lost, and no more. */
  lemma ConvertedAmount(milli: int, j: nat, b: int, c: int, r: int, f: real)
    requires Split(milli, j, b, c, r) && Rounds(milli as real, f)
    ensures 2 * r <= Two(j) ==> f == (Two(j) * b) as real
    ensures 2 * r > Two(j) ==>
      (Two(j) * (b + 1)) as real <= f <= (Two(j) * (b + c)) as real && f <= (P53 * Two(j)) as real
  {
    if 2 * r <= Two(j) {
      RoundsToBoundary(milli, j, b, c, r, f);
    } else if r < Two(j) {
      NearBoundary(milli, j, b, c, r);
      RoundsToNext(milli, j, b, c, r, f);
      MultipleLe(Two(j), b + 1, b + c);
      MultipleLe(Two(j), b + 1, P53);
    } else {
      var q, t := DivMod(r, Two(j));
      RoundsBetween(milli, j, b, c, r, q, t, f);
    }
  }

  /* ---------- the division by 1000 ---------- */

  lemma Pow2Nine(j: nat)
    ensures Pow2(j - 9) == Two(j) as real / 512.0
  {
    Pow2Shift(j, 9);
    TwoIsPow2(j);
    TwoIsPow2(9);
    assert Two(9) == 512;
    hide Pow2, Two;
  }

  lemma FractionInBinade(j: nat, k: int, step: real, z: real)
    requires 0 <= k < P53 && step == Pow2(j - 9) && z == k as real * step
    ensures Float(z)
  {
    assert IsForm(z, k, j - 9);
  }

  lemma TimesLe(a: real, b: real, k: real)
    requires a <= b && k >= 0.0
    ensures a * k <= b * k
  {
    assert (b - a) * k >= 0.0;
  }

  lemma TimesLt(a: real, b: real, k: real)
    requires a < b && k > 0.0
    ensures a * k < b * k
  {
    assert (b - a) * k > 0.0;
  }

  lemma TimesCancel(a: real, b: real, k: real)
    requires a * k <= b * k && k > 0.0
    ensures a <= b
  {
    if a > b { TimesLt(b, a, k); }
  }

  /** The nearest multiple of a step is within half of it. */
  lemma NearestStep(t: real, step: real, top: int) returns (k: int)
    requires step > 0.0 && 0.0 <= t <= (top - 1) as real
    ensures 0 <= k < top && Distance(t * step, k as real * step) <= step / 2.0
  {
    k := (t + 0.5).Floor;
    TimesLe(k as real - 0.5, t, step);
    TimesLe(t, k as real + 0.5, step);
    assert (k as real - 0.5) * step == k as real * step - step / 2.0;
    assert (k as real + 0.5) * step == k as real * step + step / 2.0;
  }

  /** A quotient in steps of 1/512 of the spacing. */
  lemma InSteps(x: real, s: real, step: real) returns (t: real)
    requires s >= 1.0 && 0.0 <= x && x * 1000.0 <= P53 as real * s && step == s / 512.0
    ensures t * step == x && 0.0 <= t <= (P53 - 1) as real
  {
    t := x / step;
    assert t * step == x;
    TimesCancel(0.0, t, step);
    TimesCancel(t, (P53 - 1) as real, step);
  }

  lemma Quotient(f: real, s: int, a: int)
    requires s >= 1 && a >= 0 && (1000 * a + s) as real <= f <= (P53 * s) as real
    ensures var x := f / 1000.0;
            0.0 <= x && x * 1000.0 <= P53 as real * s as real && x >= a as real + s as real / 1000.0
  {
    CastProduct(P53, s);
  }

  lemma QuotientAbove(j: nat, f: real, q: real, a: int)
    requires a >= 0 && (1000 * a + Two(j)) as real <= f <= (P53 * Two(j)) as real && Rounds(f / 1000.0, q)
    ensures q > a as real
  {
    hide Two, Float, Pow2;
    var x, step := f / 1000.0, Pow2(j - 9);
    Pow2Nine(j);
    Quotient(f, Two(j), a);
    var t := InSteps(x, Two(j) as real, step);
    var k := NearestStep(t, step, P53);
    var z := k as real * step;
    FractionInBinade(j, k, step, z);
    Nearer(x, q, z);
  }

  lemma Nearer(x: real, q: real, z: real)
    requires Rounds(x, q) && Float(z)
    ensures Distance(x, q) <= Distance(x, z)
  {
    hide Float;
  }

  lemma QuotientAtMost(f: real, q: real, b: int)
    requires f <= (1000 * b) as real && Float(b as real) && Rounds(f / 1000.0, q)
    ensures q <= b as real
  {
    hide Float;
    assert f / 1000.0 <= b as real;
    assert Distance(f / 1000.0, q) <= Distance(f / 1000.0, b as real);
  }

  lemma QuotientAt(f: real, q: real, a: int)
    requires f == (1000 * a) as real && Float(a as real) && Rounds(f / 1000.0, q)
    ensures q == a as real
  {
    hide Float, Rounds;
    assert f / 1000.0 == a as real;
    ExactRounds(a as real, q);
  }

  /* ---------- the whole of Quantize ---------- */

  /** The unit as a multiple of twice the spacing: for bytes in all of int64, for counts below 2^55. */
  lemma UnitSplits(j: nat, n: nat) returns (v: int)
    requires j < n
    ensures v >= 1 && Two(n) == Two(j) * (2 * v)
  {
    TwoSplit(j, n - j);
    DoubleTwo(n - j - 1);
    v := Two(n - j - 1);
    hide Two;
  }

  lemma SmallBinade(milli: int, j: nat, top: nat, limit: int)
    requires P52 * Two(j) <= milli < limit && limit == P52 * Two(top)
    ensures j < top
  {
    if j >= top { TwoMonotone(top, j); }
  }

  /** An amount, split at a unit that is a multiple of twice its spacing. */
  lemma SplitAtUnit(milli: int, j: nat, n: nat, odd: int, k: int, r: int) returns (b: int, c: int)
    requires P52 * Two(j) <= milli < P53 * Two(j) && j < n && odd >= 1 && k >= 0
    requires milli == odd * Two(n) * k + r && 0 <= r < odd * Two(n)
    ensures Split(milli, j, b, c, r)
    ensures Two(j) * b == odd * Two(n) * k && Two(j) * (b + c) == odd * Two(n) * (k + 1)
  {
    hide Two;
    var v := UnitSplits(j, n);
    var w := v * odd;
    b, c := 2 * (w * k), 2 * w;
    UnitProduct(Two(j), v, odd, k, w, Two(n));
    UnitProduct(Two(j), v, odd, 1, w, Two(n));
    UnitProduct(Two(j), v, odd, k + 1, w, Two(n));
    Positive(v, odd, k);
    StepUp(w, k);
  }

  lemma UnitProduct(s: int, v: int, odd: int, k: int, w: int, t: int)
    requires w == v * odd && t == s * (2 * v)
    ensures s * (2 * (w * k)) == odd * t * k
  {
    assert s * (2 * (v * odd * k)) == (s * 2) * (v * odd * k);
    assert odd * (s * (2 * v)) * k == (s * 2) * (v * odd * k);
  }

  lemma Positive(v: int, odd: int, k: int)
    requires v >= 1 && odd >= 1 && k >= 0
    ensures v * odd >= 1 && v * odd * k >= 0
  {
  }

  /** Where the rounded quotient of an amount ends up, between the whole units around it. */
  lemma QuotientOfSplit(milli: int, j: nat, b: int, c: int, r: int, f: real, q: real, low: int, high: int)
    requires Split(milli, j, b, c, r) && Rounds(milli as real, f) && Rounds(f / 1000.0, q)
    requires Two(j) * b == 1000 * low && Two(j) * (b + c) == 1000 * high && low >= 0
    requires Float(low as real) && Float(high as real)
    ensures 2 * r <= Two(j) ==> q == low as real
    ensures 2 * r > Two(j) ==> low as real < q <= high as real
  {
    hide Two, Float, Rounds, Split;
    ConvertedAmount(milli, j, b, c, r, f);
    if 2 * r <= Two(j) {
      QuotientAt(f, q, low);
    } else {
      StepUp(Two(j), b);
      QuotientAbove(j, f, q, low);
      QuotientAtMost(f, q, high);
    }
  }

  lemma CeilBetween(y: real, k: int)
    ensures y == k as real ==> Ceil(y) == k
    ensures k as real < y <= (k + 1) as real ==> Ceil(y) == k + 1
  {
  }

  lemma MebibyteIsFloat(k: int)
    requires 0 <= k < P53
    ensures Float((1_048_576 * k) as real)
  {
    Pow2Twenty();
    hide Pow2;
    assert IsForm((1_048_576 * k) as real, k, 20);
  }

  lemma CeilInThousands(milli: int, k: int, r: int)
    requires milli == 1000 * k + r && 0 <= r < 1000
    ensures CeilDiv(milli, 1000) == if r == 0 then k else k + 1
  {
  }

  lemma CeilInMebibytes(milli: int, k: int, r: int)
    requires milli == 1_048_576_000 * k + r && 0 <= r < 1_048_576_000
    ensures CeilDiv(milli, 1_048_576_000) == if r == 0 then k else k + 1
  {
  }

  lemma PowersOfTwo()
    ensures Two(3) == 8 && Two(11) == 2048 && Two(23) == 8_388_608
  {
    TwoSplit(11, 12);
    assert Two(12) == 4096;
  }

  /** A count of 2^53 milli-units or more. */
  lemma CountOutcome(milli: int, k: int, r: int, f: real, q: real)
    requires P53 <= milli < 4 * P53 && milli == 1000 * k + r && 0 <= r < 1000
    requires Rounds(milli as real, f) && Rounds(f / 1000.0, q)
    ensures Ceil(q) == if 2 * r <= Spacing(milli) then k else k + 1
  {
    hide Two, Float, Rounds, Spacing, Ceil;
    var j := SpacingIs(milli);
    PowersOfTwo();
    SmallBinade(milli, j, 3, 4 * P53);
    var b, c := SplitAtUnit(milli, j, 3, 125, k, r);
    IntegerIsFloat(k);
    IntegerIsFloat(k + 1);
    QuotientOfSplit(milli, j, b, c, r, f, q, k, k + 1);
    CeilBetween(q, k);
  }

  /** An amount of bytes of 2^53 milli-units or more. */
  lemma BytesOutcome(milli: int, k: int, r: int, f: real, q: real, s: real)
    requires P53 <= milli <= MAX_INT64 && milli == 1_048_576_000 * k + r && 0 <= r < 1_048_576_000
    requires Rounds(milli as real, f) && Rounds(f / 1000.0, q) && Rounds(q / 1048576.0, s)
    ensures Ceil(s) == if 2 * r <= Spacing(milli) then k else k + 1
  {
    hide Two, Float, Rounds, Spacing, Ceil;
    var j := SpacingIs(milli);
    PowersOfTwo();
    SmallBinade(milli, j, 11, P52 * 2048);
    var b, c := SplitAtUnit(milli, j, 23, 125, k, r);
    MebibyteIsFloat(k);
    MebibyteIsFloat(k + 1);
    QuotientOfSplit(milli, j, b, c, r, f, q, 1_048_576 * k, 1_048_576 * (k + 1));
    RoundedIsFloat(f / 1000.0, q);
    ScaledIsFloat(q);
    ExactRounds(q / 1048576.0, s);
    CeilBetween(s, k);
  }

  /** How far an amount lies above the last whole unit, when that is at most half the spacing of the
      floating-point numbers around it; such an amount is taken for that unit. */
  predicate IsLost(res: string, milli: int)
  {
    UnitOf(res) > 1 && milli % UnitOf(res) != 0 && 2 * (milli % UnitOf(res)) <= Spacing(milli)
  }

  /** For every amount of bytes that int64 holds, and counts below 2^55 milli-units (for the others see
      FloatCounts): floating point yields the least whole unit not below the amount, except exactly for those
      that lie above a whole unit by at most half the local spacing. These fall to that unit. */
  lemma SmallExactIff(res: string, milli: int, f: real, q: real, s: real, r: int)
    requires 0 <= milli <= MAX_INT64 && (IsCountable(res) ==> milli < 4 * P53)
    requires FloatQuantized(res, milli, f, q, s, r)
    ensures r == Quantize(res, milli) <==> !IsLost(res, milli)
    ensures IsLost(res, milli) ==> r == milli - milli % UnitOf(res)
  {
    hide Rounds, CeilDiv, Ceil, IsCountable, IsBytes, Spacing;
    if milli < P53 {
      ExactUpToP53(res, milli, f, q, s, r);
      SmallSpacing(milli);
    } else if IsCountable(res) {
      var k, rest := milli / 1000, milli % 1000;
      CountOutcome(milli, k, rest, f, q);
      CeilInThousands(milli, k, rest);
    } else if IsBytes(res) {
      var k, rest := milli / 1_048_576_000, milli % 1_048_576_000;
      BytesOutcome(milli, k, rest, f, q, s);
      CeilInMebibytes(milli, k, rest);
    }
  }

  lemma SmallSpacing(milli: int)
    requires milli < P53
    ensures Spacing(milli) == 1
  {
  }

  /* ---------- where the condition for counts stops ---------- */

  /** An odd number of objects above 2^55 milli-units, where the spacing is 8 and whole objects are no longer
      even multiples of it. */
  const ODD_COUNT: int := 36_028_797_018_965

  lemma TieAtOddCount(f: real)
    requires Rounds((1000 * ODD_COUNT + 4) as real, f)
    ensures f == (1000 * ODD_COUNT + 8) as real
  {
    var milli, b := 1000 * ODD_COUNT + 4, 125 * ODD_COUNT;
    PowersOfTwo();
    hide Two, Float, Rounds, EvenSignificand;
    var low, high := (Two(3) * b) as real, (Two(3) * (b + 1)) as real;
    MultipleIsFloat(3, b);
    MultipleIsFloat(3, b + 1);
    NoneCloser(milli, f, low);
    NoneCloser(milli, f, high);
    RoundedIsFloat(milli as real, f);
    if f > low {
      FloatAbove(3, b, f);
    } else {
      TieIsEven(milli, f, high);
      EvenInBinade(3, b);
    }
  }

  lemma OddSpacing()
    ensures Spacing(1000 * ODD_COUNT + 4) == 8
  {
    var milli := 1000 * ODD_COUNT + 4;
    DoubleSpacing(milli);
    DoubleSpacing(milli / 2);
    DoubleSpacing(milli / 4);
    SmallSpacing(milli / 8);
  }

  /** Four milli-units above it the tie goes up, so that the amount is rounded exactly although the spacing
      is twice its rest: from 2^55 on, the condition for counts is another one (see FloatCounts). */
  lemma OddCountIsKept(res: string, f: real, q: real, s: real, r: int)
    requires IsCountable(res) && FloatQuantized(res, 1000 * ODD_COUNT + 4, f, q, s, r)
    ensures IsLost(res, 1000 * ODD_COUNT + 4) && r == Quantize(res, 1000 * ODD_COUNT + 4)
  {
    hide Two, Float, Rounds, Spacing, IsCountable, Ceil, Pow2;
    OddSpacing();
    PowersOfTwo();
    IntegerIsFloat(ODD_COUNT + 1);
    TieAtOddCount(f);
    QuotientAbove(3, f, q, ODD_COUNT);
    QuotientAtMost(f, q, ODD_COUNT + 1);
    CeilBetween(q, ODD_COUNT);
  }

  /* ---------- lost amounts occur ---------- */

  lemma ClosestIsBoundary(milli: int, j: nat, b: int, c: int, r: int)
    requires Split(milli, j, b, c, r) && 2 * r <= Two(j)
    ensures Rounds(milli as real, (Two(j) * b) as real)
  {
    NearBoundary(milli, j, b, c, r);
    hide Two, Split;
    var low := (Two(j) * b) as real;
    LowIs(milli, j, b, c, r);
    MultipleIsFloat(j, b);
    hide Float, EvenSignificand;
    StepUp(Two(j), b);
    forall z | Float(z) ensures Distance(milli as real, low) <= Distance(milli as real, z) {
      if z > low { FloatAbove(j, b, z); }
    }
  }

  lemma LowIs(milli: int, j: nat, b: int, c: int, r: int)
    requires Split(milli, j, b, c, r)
    ensures milli == Two(j) * b + r && b % 2 == 0 && r >= 0
  {
  }

  /** Every lost amount does have such roundings, so that each of them is rounded below its target. */
  lemma LostOccurs(res: string, milli: int) returns (f: real, q: real, s: real)
    requires 0 <= milli <= MAX_INT64 && (IsCountable(res) ==> milli < 4 * P53) && IsLost(res, milli)
    ensures FloatQuantized(res, milli, f, q, s, milli - milli % UnitOf(res))
  {
    hide Rounds, Float, Ceil, IsCountable, IsBytes, Spacing, Two;
    if milli < P53 {
      SmallSpacing(milli);
      assert false;
    } else if IsCountable(res) {
      var k, r := milli / 1000, milli % 1000;
      var j := SpacingIs(milli);
      PowersOfTwo();
      SmallBinade(milli, j, 3, 4 * P53);
      var b, c := SplitAtUnit(milli, j, 3, 125, k, r);
      IntegerIsFloat(k);
      f, q, s := BoundaryRoundings(milli, j, b, c, r, k);
      CeilBetween(q, k);
    } else {
      var k, r := milli / 1_048_576_000, milli % 1_048_576_000;
      var j := SpacingIs(milli);
      PowersOfTwo();
      SmallBinade(milli, j, 11, P52 * 2048);
      var b, c := SplitAtUnit(milli, j, 23, 125, k, r);
      MebibyteIsFloat(k);
      f, q, s := BoundaryRoundings(milli, j, b, c, r, 1_048_576 * k);
      CeilBetween(s, k);
    }
  }

  lemma BoundaryRoundings(milli: int, j: nat, b: int, c: int, r: int, low: int) returns (f: real, q: real, s: real)
    requires Split(milli, j, b, c, r) && 2 * r <= Two(j) && Two(j) * b == 1000 * low && Float(low as real)
    ensures Rounds(milli as real, f) && Rounds(f / 1000.0, q) && Rounds(q / 1048576.0, s)
    ensures q == low as real && s == q / 1048576.0
  {
    hide Two, Float, Rounds, Split;
    ClosestIsBoundary(milli, j, b, c, r);
    f, q, s := (1000 * low) as real, low as real, low as real / 1048576.0;
    assert f / 1000.0 == low as real;
    FloatRoundsToItself(q);
    ScaledIsFloat(q);
    FloatRoundsToItself(s);
  }
}
