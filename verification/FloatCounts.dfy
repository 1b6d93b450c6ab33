/** Counts of 2^55 milli-units and more in floating point, and with them all of int64: whole objects are no
    longer even multiples of the spacing, so that rounding may lose or gain some. */
module FloatCounts {
  import opened Quantities
  import opened FloatRounding

  /** The floating-point number nearest to an amount, ties to even. */
  function Nearest(milli: int): int
  {
    var s := Spacing(milli);
    var b, r := milli / s, milli % s;
    if 2 * r < s || (2 * r == s && b % 2 == 0) then s * b else s * (b + 1)
  }

  /** In steps of 1/128, the distance of the floating-point numbers around the quotient. */
  function QuotientSpacing(f: int): (t: int)
    ensures t >= 1
  {
    Spacing(128 * f / 1000)
  }

  /** The largest converted amount that still gives so many objects is half a spacing of the quotient above
      them; from 2^53 objects on, only even counts are left. */
  predicate StaysWithin(milli: int, c: int)
  {
    var f := Nearest(milli);
    var t := QuotientSpacing(f);
    if t <= 128 then 32 * (f - 1000 * c) <= 125 * t else f <= 1000 * (c - c % 2 + 1)
  }

  /* ---------- rounding a real number in a binade ---------- */

  lemma NoneNearer(x: real, y: real, z: real)
    requires Rounds(x, y) && Float(z)
    ensures z <= x ==> z <= y
    ensures z >= x ==> y <= z
    ensures Distance(x, y) <= Distance(x, z)
  {
    hide Float;
  }

  lemma TieGoesToEven(x: real, y: real, z: real)
    requires Rounds(x, y) && Float(z) && z != y && Distance(x, y) == Distance(x, z)
    ensures EvenSignificand(y)
  {
    hide Float, EvenSignificand;
  }

  predicate InBinade(x: real, j: nat)
  {
    (P52 * Two(j)) as real <= x < (P53 * Two(j)) as real
  }

  predicate NoTie(x: real, j: nat, b: int)
  {
    b % 2 == 0 || 2.0 * (x - (Two(j) * b) as real) != Two(j) as real
  }

  lemma CastStep(s: int, b: int)
    ensures (s * (b + 1)) as real == (s * b) as real + s as real
  {
    StepUp(s, b);
  }

  /** Between two neighbouring multiples of the spacing. */
  lemma RoundsInside(x: real, y: real, j: nat, b: int)
    requires P52 <= b < P53 && Rounds(x, y)
    requires (Two(j) * b) as real < x < (Two(j) * (b + 1)) as real && NoTie(x, j, b)
    ensures y <= (Two(j) * b) as real <==> 2.0 * (x - (Two(j) * b) as real) <= Two(j) as real
  {
    hide Two, Float, Rounds, EvenSignificand;
    var low, high := (Two(j) * b) as real, (Two(j) * (b + 1)) as real;
    CastStep(Two(j), b);
    MultipleIsFloat(j, b);
    MultipleIsFloat(j, b + 1);
    NoneNearer(x, y, low);
    NoneNearer(x, y, high);
    RoundedIsFloat(x, y);
    if y > low {
      FloatAbove(j, b, y);
      assert y == high;
      if 2.0 * (x - low) == Two(j) as real {
        TieGoesToEven(x, y, low);
        if b + 1 < P53 { EvenInBinade(j, b + 1); }
        assert false;
      }
    }
  }

  /** Rounding goes up past a multiple of the spacing exactly from half a spacing above it. */
  lemma RoundsAtMost(x: real, y: real, j: nat, b: int)
    requires InBinade(x, j) && Rounds(x, y) && NoTie(x, j, b)
    ensures y <= (Two(j) * b) as real <==> 2.0 * (x - (Two(j) * b) as real) <= Two(j) as real
  {
    hide Two, Float, Rounds, EvenSignificand, NoTie;
    var s := Two(j);
    CastStep(s, b);
    MultipleIsFloat(j, P52);
    MultipleIsFloat(j, P53);
    NoneNearer(x, y, (s * P52) as real);
    NoneNearer(x, y, (s * P53) as real);
    if b >= P53 {
      MultipleLe(s, P53, b);
    } else if b < P52 {
      MultipleLe(s, b + 1, P52);
    } else {
      MultipleIsFloat(j, b);
      MultipleIsFloat(j, b + 1);
      NoneNearer(x, y, (s * b) as real);
      NoneNearer(x, y, (s * (b + 1)) as real);
      if (s * b) as real < x < (s * (b + 1)) as real { RoundsInside(x, y, j, b); }
    }
  }

  /* ---------- the conversion ---------- */

  lemma NearestParts(milli: int) returns (j: nat, b: int, r: int)
    requires milli >= P53
    ensures Spacing(milli) == Two(j) && milli == Two(j) * b + r && 0 <= r < Two(j) && P52 <= b < P53
    ensures P52 * Two(j) <= milli < P53 * Two(j)
    ensures Nearest(milli)
         == if 2 * r < Two(j) || (2 * r == Two(j) && b % 2 == 0) then Two(j) * b else Two(j) * (b + 1)
  {
    j := SpacingIs(milli);
    hide Two, Spacing;
    b, r := milli / Two(j), milli % Two(j);
    SplitInBinade(milli, Two(j), b, r);
  }

  lemma ConvertsToNearest(milli: int, f: real)
    requires milli >= P53 && Rounds(milli as real, f)
    ensures f == Nearest(milli) as real
  {
    var j, b, r := NearestParts(milli);
    hide Two, Float, Rounds, EvenSignificand, Spacing, Nearest;
    var low, high := (Two(j) * b) as real, (Two(j) * (b + 1)) as real;
    CastStep(Two(j), b);
    MultipleIsFloat(j, b);
    MultipleIsFloat(j, b + 1);
    NoneNearer(milli as real, f, low);
    NoneNearer(milli as real, f, high);
    RoundedIsFloat(milli as real, f);
    if f > low { FloatAbove(j, b, f); }
    assert f == low || f == high;
    if 2 * r == Two(j) { TieAt(milli, f, j, b); }
  }

  lemma SplitInBinade(milli: int, s: int, b: int, r: int)
    requires s >= 1 && milli == s * b + r && 0 <= r < s && P52 * s <= milli < P53 * s
    ensures P52 <= b < P53
  {
    StepUp(s, b);
    NextMultiple(s, b + 1, P52);
    NextMultiple(s, P53, b);
  }

  lemma TieAt(milli: int, f: real, j: nat, b: int)
    requires P52 <= b < P53 && Rounds(milli as real, f) && 2 * (milli - Two(j) * b) == Two(j)
    requires f == (Two(j) * b) as real || f == (Two(j) * (b + 1)) as real
    ensures f == (if b % 2 == 0 then Two(j) * b else Two(j) * (b + 1)) as real
  {
    hide Two, Float, Rounds, EvenSignificand;
    CastStep(Two(j), b);
    MultipleIsFloat(j, b);
    MultipleIsFloat(j, b + 1);
    if f == (Two(j) * b) as real {
      TieGoesToEven(milli as real, f, (Two(j) * (b + 1)) as real);
      EvenInBinade(j, b);
    } else {
      TieGoesToEven(milli as real, f, (Two(j) * b) as real);
      if b + 1 < P53 { EvenInBinade(j, b + 1); }
    }
  }

  /* ---------- the quotient, in steps of 1/128 ---------- */

  lemma Pow2Seven()
    ensures Pow2(7) == 128.0 && Two(7) == 128
  {
    assert Pow2(0) == 1.0 && Pow2(4) == 16.0;
    assert Two(0) == 1 && Two(4) == 16;
  }

  lemma TimesForm(y: real, m: int, e: int)
    requires IsForm(y, m, e)
    ensures IsForm(y * 128.0, m, e + 7)
  {
    Pow2Shift(e + 7, 7);
    Pow2Seven();
    hide Pow2;
  }

  lemma TimesIsFloat(y: real)
    requires Float(y)
    ensures Float(y * 128.0)
  {
    var m, e :| -P53 < m < P53 && IsForm(y, m, e);
    TimesForm(y, m, e);
    hide IsForm;
  }

  lemma DividedIsFloat(y: real)
    requires Float(y)
    ensures Float(y / 128.0)
  {
    var m, e :| -P53 < m < P53 && IsForm(y, m, e);
    Pow2Shift(e, 7);
    Pow2Seven();
    hide Pow2;
    assert IsForm(y / 128.0, m, e - 7);
  }

  lemma TimesIsEven(y: real)
    requires EvenSignificand(y)
    ensures EvenSignificand(y * 128.0)
  {
    var m, e :| P52 <= m < P53 && m % 2 == 0 && IsForm(y, m, e);
    TimesForm(y, m, e);
    hide IsForm;
  }

  lemma TimesRounds(x: real, y: real)
    requires Rounds(x, y)
    ensures Rounds(x * 128.0, y * 128.0)
  {
    TimesIsFloat(y);
    forall z | Float(z)
      ensures Distance(x * 128.0, y * 128.0) <= Distance(x * 128.0, z)
      ensures z != y * 128.0 && Distance(x * 128.0, z) == Distance(x * 128.0, y * 128.0) ==> EvenSignificand(y * 128.0)
    {
      DividedIsFloat(z);
      NoneNearer(x, y, z / 128.0);
      if z != y * 128.0 && Distance(x * 128.0, z) == Distance(x * 128.0, y * 128.0) {
        TieGoesToEven(x, y, z / 128.0);
        TimesIsEven(y);
      }
    }
    hide Float, EvenSignificand;
  }

  /** A converted amount of this size, and where its quotient lies. */
  lemma QuotientBinade(f: int) returns (j: nat)
    requires 4 * P53 <= f <= MAX_INT64 + 1
    ensures QuotientSpacing(f) == Two(j) && InBinade(f as real / 1000.0 * 128.0, j) && j <= 8
  {
    var n := 128 * f / 1000;
    if n < P53 {
      j := 0;
      SmallSpacing(n);
      assert Two(0) == 1;
    } else {
      j := SpacingIs(n);
      PowersOfTwo();
      TwoEight();
      SmallBinade(n, j, 9, P52 * 512);
    }
    hide Two, Spacing;
    QuotientBetween(f, n, Two(j));
  }

  lemma QuotientBetween(f: int, n: int, s: int)
    requires n == 128 * f / 1000 && P52 * s <= n < P53 * s
    ensures (P52 * s) as real <= f as real / 1000.0 * 128.0 < (P53 * s) as real
  {
    assert n as real <= f as real / 1000.0 * 128.0 < (n + 1) as real;
    assert (n + 1) as real <= (P53 * s) as real;
  }

  /* ---------- the count ---------- */

  lemma TwoEight()
    ensures Two(8) == 256 && Two(9) == 512
  {
    assert Two(4) == 16;
    TwoSplit(4, 4);
    DoubleTwo(8);
  }

  lemma Associates(a: int, b: int, c: int)
    ensures a * b * c == a * (b * c)
  {
  }

  lemma MultipleOfEight(j: nat, m: int) returns (g: int)
    requires j >= 3
    ensures Two(j) * m == 8 * g && (j >= 4 ==> g % 2 == 0)
  {
    PowersOfTwo();
    TwoSplit(3, j - 3);
    g := Two(j - 3) * m;
    Associates(8, Two(j - 3), m);
    if j >= 4 {
      DoubleTwo(j - 4);
      Associates(2, Two(j - 4), m);
    }
    hide Two;
  }

  lemma ExponentRange(milli: int, j: nat)
    requires P52 * Two(j) <= milli < P53 * Two(j) && 4 * P53 <= milli <= MAX_INT64
    ensures 3 <= j <= 10 && (milli >= 8 * P53 ==> j >= 4)
  {
    PowersOfTwo();
    TwoIsFour();
    hide Two;
    if j < 3 { TwoMonotone(j, 2); }
    if j < 4 { TwoMonotone(j, 3); }
    SmallBinade(milli, j, 11, P52 * 2048);
  }

  lemma NearestMultiple(milli: int) returns (j: nat, m: int)
    requires 4 * P53 <= milli <= MAX_INT64
    ensures Nearest(milli) == Two(j) * m && P52 <= m <= P53 && 3 <= j <= 10
    ensures milli >= 8 * P53 ==> j >= 4
  {
    hide Nearest, Spacing, Two;
    var b, r;
    j, b, r := NearestParts(milli);
    m := if 2 * r < Two(j) || (2 * r == Two(j) && b % 2 == 0) then b else b + 1;
    ExponentRange(milli, j);
  }

  /** Converted amounts of this size are multiples of 8, and of 16 where they are larger. */
  lemma NearestRange(milli: int) returns (g: int)
    requires 4 * P53 <= milli <= MAX_INT64
    ensures Nearest(milli) == 8 * g && 4 * P53 <= Nearest(milli) <= MAX_INT64 + 1
    ensures milli >= 8 * P53 ==> g % 2 == 0
  {
    var j, m := NearestMultiple(milli);
    hide Nearest, Two;
    MultipleLe(Two(j), P52, m);
    MultipleLe(Two(j), m, P53);
    TwoTen(j);
    g := MultipleOfEight(j, m);
  }

  lemma TwoIsFour()
    ensures Two(2) == 4
  {
  }

  lemma TwoTen(j: nat)
    requires 3 <= j <= 10
    ensures 8 <= Two(j) <= 1024
  {
    TwoMonotone(3, j);
    TwoMonotone(j, 10);
    PowersOfTwo();
    DoubleTwo(10);
  }

  lemma TwoIsOne()
    ensures Two(0) == 1
  {
  }

  lemma SmallUnits(j: nat, c: int) returns (b: int)
    requires j <= 7
    ensures Two(j) * b == 128 * c && (j < 7 ==> b % 2 == 0) && (j == 7 ==> b == c)
  {
    hide Two;
    Pow2Seven();
    TwoSplit(j, 7 - j);
    b := Two(7 - j) * c;
    Associates(Two(j), Two(7 - j), c);
    if j < 7 {
      DoubleTwo(6 - j);
      Associates(2, Two(6 - j), c);
    } else {
      TwoIsOne();
    }
  }

  lemma SmallTie(j: nat, b: int, c: int, n: int, g: int)
    requires j <= 7 && Two(j) * b == 128 * c && (j < 7 ==> b % 2 == 0) && n == 8 * g
    ensures NoTie(n as real / 1000.0 * 128.0, j, b)
  {
    if j == 7 {
      Pow2Seven();
      hide Two;
      if 2.0 * (n as real / 1000.0 * 128.0 - (128 * c) as real) == 128.0 {
        assert false;
      }
    }
  }

  /** Below 2^53 objects. */
  lemma SmallCount(n: int, g: int, q: real, c: int, j: nat)
    requires j <= 7 && InBinade(n as real / 1000.0 * 128.0, j) && n == 8 * g
    requires Rounds(n as real / 1000.0 * 128.0, q * 128.0)
    ensures q <= c as real <==> 32 * (n - 1000 * c) <= 125 * Two(j)
  {
    hide Two, Rounds, InBinade, NoTie;
    var b := SmallUnits(j, c);
    SmallTie(j, b, c, n, g);
    RoundsAtMost(n as real / 1000.0 * 128.0, q * 128.0, j, b);
    assert q <= c as real <==> q * 128.0 <= (128 * c) as real;
    assert 2.0 * (n as real / 1000.0 * 128.0 - (128 * c) as real) * 125.0
        == (32 * (n - 1000 * c)) as real;
  }

  lemma LargeTie(b: int, e: int, n: int, g: int)
    requires e == 2 * b && n == 8 * g && g % 2 == 0
    ensures NoTie(n as real / 1000.0 * 128.0, 8, b)
  {
    TwoEight();
    hide Two;
    if 2.0 * (n as real / 1000.0 * 128.0 - (256 * b) as real) == 256.0 {
      assert false;
    }
  }

  /** Nothing lies between two even counts. */
  lemma OnlyEven(x: real, y: real, b: int)
    requires InBinade(x, 8) && Rounds(x, y) && y > (256 * b) as real
    ensures y >= (256 * (b + 1)) as real
  {
    TwoEight();
    hide Two, Float, Rounds;
    RoundedIsFloat(x, y);
    MultipleIsFloat(8, P52);
    MultipleIsFloat(8, P53);
    NoneNearer(x, y, (256 * P52) as real);
    NoneNearer(x, y, (256 * P53) as real);
    if P52 <= b < P53 { FloatAbove(8, b, y); }
  }

  /** From 2^53 objects on. */
  lemma LargeCount(n: int, g: int, q: real, c: int)
    requires InBinade(n as real / 1000.0 * 128.0, 8) && n == 8 * g && g % 2 == 0
    requires Rounds(n as real / 1000.0 * 128.0, q * 128.0)
    ensures q <= c as real <==> n <= 1000 * (c - c % 2 + 1)
  {
    var e := c - c % 2;
    var b := e / 2;
    LargeTie(b, e, n, g);
    TwoEight();
    hide Two, Rounds, InBinade, NoTie;
    RoundsAtMost(n as real / 1000.0 * 128.0, q * 128.0, 8, b);
    if q * 128.0 > (256 * b) as real { OnlyEven(n as real / 1000.0 * 128.0, q * 128.0, b); }
    assert q * 128.0 <= (256 * b) as real <==> n <= 1000 * (e + 1);
  }

  /** How many objects are left at most. */
  lemma CountAtMost(milli: int, f: real, q: real, c: int)
    requires 4 * P53 <= milli <= MAX_INT64 && Rounds(milli as real, f) && Rounds(f / 1000.0, q)
    ensures q <= c as real <==> StaysWithin(milli, c)
  {
    hide Two, Rounds, InBinade, Nearest, QuotientSpacing;
    ConvertsToNearest(milli, f);
    TimesRounds(f / 1000.0, q);
    var n := Nearest(milli);
    var g := NearestRange(milli);
    var j := QuotientBinade(n);
    TwoEight();
    Pow2Seven();
    if j <= 7 {
      TwoMonotone(j, 7);
      SmallCount(n, g, q, c, j);
    } else {
      LargeMeansEven(milli, n, j);
      LargeCount(n, g, q, c);
    }
  }

  lemma LargeMeansEven(milli: int, n: int, j: nat)
    requires n == Nearest(milli) && j == 8 && InBinade(n as real / 1000.0 * 128.0, j) && milli >= 4 * P53
    ensures milli >= 8 * P53
  {
    TwoEight();
    assert n >= 1000 * P53;
    NearestIsNear(milli);
  }

  lemma NearestIsNear(milli: int)
    requires milli >= P53
    ensures Nearest(milli) <= 2 * milli
  {
    var j, b, r := NearestParts(milli);
    hide Two, Nearest;
    StepUp(Two(j), b);
    MultipleLe(Two(j), 1, b);
  }

  /* ---------- all of int64 ---------- */

  predicate LargeAmount(res: string, milli: int)
  {
    IsCountable(res) && milli >= 4 * P53
  }

  /** Rounding ends below the target. */
  predicate FallsBelow(res: string, milli: int)
  {
    if LargeAmount(res, milli) then StaysWithin(milli, CeilDiv(milli, 1000) - 1) else IsLost(res, milli)
  }

  /** Rounding ends above the least whole unit. */
  predicate RisesAbove(res: string, milli: int)
  {
    LargeAmount(res, milli) && !StaysWithin(milli, CeilDiv(milli, 1000))
  }

  lemma CeilAtMost(y: real, c: int)
    ensures Ceil(y) <= c <==> y <= c as real
  {
  }

  lemma CeilDivThousand(milli: int)
    ensures var k := CeilDiv(milli, 1000); 1000 * (k - 1) < milli <= 1000 * k
  {
    CeilThousands(milli, 0);
  }

  /** For every amount that int64 holds: floating point falls below the target, or rises above the least
      whole unit, exactly where these integer inequalities say so, and otherwise rounds exactly. */
  lemma ExactIff(res: string, milli: int, f: real, q: real, s: real, r: int)
    requires 0 <= milli <= MAX_INT64 && FloatQuantized(res, milli, f, q, s, r)
    ensures r < milli <==> FallsBelow(res, milli)
    ensures r > Quantize(res, milli) <==> RisesAbove(res, milli)
    ensures r == Quantize(res, milli) <==> !FallsBelow(res, milli) && !RisesAbove(res, milli)
  {
    hide Rounds, CeilDiv, Ceil, IsCountable, IsBytes, Spacing, StaysWithin, IsLost;
    QuantizeIsLeast(res, milli, 0);
    if LargeAmount(res, milli) {
      var k := CeilDiv(milli, 1000);
      CeilDivThousand(milli);
      CountAtMost(milli, f, q, k);
      CountAtMost(milli, f, q, k - 1);
      CeilAtMost(q, k);
      CeilAtMost(q, k - 1);
    } else {
      SmallExactIff(res, milli, f, q, s, r);
      if IsLost(res, milli) { LostIsPositive(res, milli); }
    }
  }

  lemma LostIsPositive(res: string, milli: int)
    requires IsLost(res, milli)
    ensures milli % UnitOf(res) > 0
  {
  }
}
