/** The string tests the source uses, as in Go's strings package. */
module Strings {
  predicate HasPrefix(s: string, prefix: string)
  {
    prefix <= s
  }

  predicate HasSuffix(s: string, suffix: string)
  {
    |suffix| <= |s| && s[|s| - |suffix|..] == suffix
  }

  predicate Contains(s: string, part: string)
  {
    part <= s || (s != [] && Contains(s[1..], part))
  }

  /** The text after the last separator, or all of it. */
  function AfterLast(s: string, c: char): string
  {
    if s == [] then []
    else if s[|s| - 1] == c then []
    else AfterLast(s[..|s| - 1], c) + [s[|s| - 1]]
  }

  /** A number in decimal, as %d prints it. */
  function Decimal(n: int): string
    decreases if n < 0 then -n + 1 else n
  {
    if n < 0 then "-" + Decimal(-n)
    else if n < 10 then [(n as char) + '0']
    else Decimal(n / 10) + [((n % 10) as char) + '0']
  }
}

/** Quota keys and rounding (internal/sizing/quantity.go). Amounts are milli-units. */
module Quantities {
  import opened Strings

  function MeasureOf(res: string): string
  {
    if HasPrefix(res, "count/") then res else AfterLast(res, '/')
  }

  predicate IsCountable(res: string)
  {
    || HasPrefix(res, "count/")
    || MeasureOf(res) in {"pods", "services", "replicationcontrollers", "resourcequotas", "secrets", "configmaps",
                          "persistentvolumeclaims", "services.nodeports", "services.loadbalancers"}
  }

  predicate IsBytes(res: string)
  {
    !IsCountable(res) && (Contains(MeasureOf(res), "memory") || Contains(MeasureOf(res), "storage"))
  }

  /** The step a quota key is rounded to: whole objects, whole Mi, or milli-units. */
  function UnitOf(res: string): (unit: int)
    ensures unit > 0
  {
    if IsCountable(res) then 1000 else if IsBytes(res) then 1_048_576_000 else 1
  }

  function CeilDiv(n: int, d: int): int
    requires d > 0
  {
    -((-n) / d)
  }

  function Quantize(res: string, milli: int): int
  {
    if IsCountable(res) then CeilDiv(milli, 1000) * 1000
    else if IsBytes(res) then CeilDiv(milli, 1_048_576_000) * 1_048_576_000
    else milli
  }

  lemma CeilThousands(n: int, k: int)
    ensures n <= CeilDiv(n, 1000) * 1000 < n + 1000
    ensures n <= k * 1000 ==> CeilDiv(n, 1000) * 1000 <= k * 1000
  {
  }

  lemma CeilMebibytes(n: int, k: int)
    ensures n <= CeilDiv(n, 1_048_576_000) * 1_048_576_000 < n + 1_048_576_000
    ensures n <= k * 1_048_576_000 ==> CeilDiv(n, 1_048_576_000) * 1_048_576_000 <= k * 1_048_576_000
  {
  }

  /** Rounding is upwards to the least whole unit. */
  lemma QuantizeIsLeast(res: string, milli: int, k: int)
    ensures var q := Quantize(res, milli);
            && milli <= q < milli + UnitOf(res)
            && q % UnitOf(res) == 0
            && (milli <= k * UnitOf(res) ==> q <= k * UnitOf(res))
  {
    CeilThousands(milli, k);
    CeilMebibytes(milli, k);
  }

  /** The whole units that cover an amount. */
  function UnitsIn(res: string, milli: int): int
  {
    CeilDiv(milli, UnitOf(res))
  }

  lemma UnitsMonotone(res: string, a: int, b: int)
    requires a <= b
    ensures UnitsIn(res, a) <= UnitsIn(res, b)
    ensures a >= 0 ==> UnitsIn(res, a) >= 0
  {
    CeilThousands(a, 0);
    CeilThousands(b, 0);
    CeilMebibytes(a, 0);
    CeilMebibytes(b, 0);
  }

  lemma UnitsBelow(res: string, milli: int)
    ensures UnitsIn(res, milli) as real < milli as real / UnitOf(res) as real + 1.0
  {
    CeilThousands(milli, 0);
    CeilMebibytes(milli, 0);
  }

  /** Going down to a whole unit costs at least one of them. */
  lemma RoundedLosesUnit(res: string, milli: int, below: int)
    requires Quantize(res, milli) < below
    ensures UnitsIn(res, Quantize(res, milli)) < UnitsIn(res, below)
  {
    CeilThousands(milli, 0);
    CeilThousands(below, 0);
    CeilMebibytes(milli, 0);
    CeilMebibytes(below, 0);
  }

  lemma QuantizeMonotone(res: string, a: int, b: int)
    requires a <= b
    ensures Quantize(res, a) <= Quantize(res, b)
  {
    var k := Quantize(res, b) / UnitOf(res);
    QuantizeIsLeast(res, b, k);
    QuantizeIsLeast(res, a, k);
  }

  lemma QuantizeIdempotent(res: string, milli: int)
    ensures Quantize(res, Quantize(res, milli)) == Quantize(res, milli)
  {
    var k := Quantize(res, milli) / UnitOf(res);
    QuantizeIsLeast(res, milli, k);
    QuantizeIsLeast(res, Quantize(res, milli), k);
  }
}
