/** The closed loop: decide, merge the pull request, decide again. Demand is constant when the policy,
    the usage and every raw target stay the same, whatever the clock, the window and the gates do. */
module Dynamics {
  import opened Options
  import opened Clock
  import opened Quantities
  import opened Policies
  import opened WindowModel
  import opened DecisionRule
  import opened DecisionProperties

  /* ---------- one resource ---------- */

  /** The next decision leaves the limit alone; a limit of zero is never looked at. */
  predicate Settled(res: Resource, hard: int, target: int, p: Policy)
  {
    hard == 0 || VerdictOn(res, hard, target, CurrentUsage, p).Stay?
  }

  /** One more merged pull request, if the resource asks for one. */
  function StepOn(res: Resource, hard: int, target: int, p: Policy): int
  {
    if Settled(res, hard, target, p) then hard else VerdictOn(res, hard, target, CurrentUsage, p).qty
  }

  /** A value that was just grown is left alone, even where rounding lifted it out of the band. */
  lemma GrownStays(res: Resource, hard: int, target: int, driver: Driver, p: Policy)
    requires ValidPolicy(p) && target >= 0 && hard == Quantize(res, target)
    ensures VerdictOn(res, hard, target, driver, p).Stay?
  {
    hide Quantize, UnitOf, Scaled;
    QuantizeIsLeast(res, target, 0);
    QuantizeMonotone(res, target, Capped(hard, target, p.maxShrinkStep));
    assert hard as real * (1.0 + p.tolerance) >= hard as real;
  }

  /** A shrink lands strictly lower, but never below the target. */
  lemma LoweredStaysAbove(res: Resource, hard: int, target: int, driver: Driver, p: Policy)
    requires VerdictOn(res, hard, target, driver, p).Lower?
    ensures var qty := VerdictOn(res, hard, target, driver, p).qty;
            target <= qty < hard && qty >= Scaled(hard, 1.0 - p.maxShrinkStep)
  {
    hide Quantize, UnitOf, Scaled, AboveBand, BelowBand;
    QuantizeIsLeast(res, Capped(hard, target, p.maxShrinkStep), 0);
  }

  /** Above its target, a value never asks to grow. */
  lemma NoGrowAbove(res: Resource, hard: int, target: int, driver: Driver, p: Policy)
    requires ValidPolicy(p) && 0 <= target <= hard
    ensures !AboveBand(target, hard, p.tolerance) && !VerdictOn(res, hard, target, driver, p).Raise?
  {
    hide Quantize, BelowBand;
    assert hard as real * (1.0 + p.tolerance) >= hard as real;
  }

  /** Where it ends: not far above the band or the rounded target, or where a step is smaller than a unit. */
  lemma StaysWhere(res: Resource, hard: int, target: int, driver: Driver, p: Policy)
    requires ValidPolicy(p) && 0 <= target <= hard
    ensures VerdictOn(res, hard, target, driver, p).Stay? <==>
      !BelowBand(target, hard, p.tolerance) || Quantize(res, Capped(hard, target, p.maxShrinkStep)) >= hard
    ensures VerdictOn(res, hard, target, driver, p).Stay? ==>
      || hard as real * (1.0 - p.tolerance) <= target as real
      || hard <= Quantize(res, target)
      || hard as real * p.maxShrinkStep < UnitOf(res) as real
  {
    hide Quantize, UnitOf, AboveBand;
    NoGrowAbove(res, hard, target, driver, p);
    QuantizeIsLeast(res, Scaled(hard, 1.0 - p.maxShrinkStep), 0);
    assert hard as real * (1.0 - p.maxShrinkStep) == hard as real - hard as real * p.maxShrinkStep;
  }

  /** The limit after some merged pull requests. */
  function HardAfter(res: Resource, hard: int, target: int, p: Policy, n: nat): int
  {
    if n == 0 then hard else StepOn(res, HardAfter(res, hard, target, p, n - 1), target, p)
  }

  lemma {:induction false} NeverBelowTarget(res: Resource, hard: int, target: int, p: Policy, n: nat)
    requires ValidPolicy(p) && 0 <= target <= hard
    ensures target <= HardAfter(res, hard, target, p, n) <= hard
  {
    hide VerdictOn;
    if n > 0 {
      var h := HardAfter(res, hard, target, p, n - 1);
      NeverBelowTarget(res, hard, target, p, n - 1);
      NoGrowAbove(res, h, target, CurrentUsage, p);
      if VerdictOn(res, h, target, CurrentUsage, p).Lower? { LoweredStaysAbove(res, h, target, CurrentUsage, p); }
    }
  }

  lemma {:induction false} SettledStays(res: Resource, hard: int, target: int, p: Policy, n: nat, m: nat)
    requires n <= m && Settled(res, HardAfter(res, hard, target, p, n), target, p)
    ensures HardAfter(res, hard, target, p, m) == HardAfter(res, hard, target, p, n)
  {
    hide VerdictOn;
    if m > n { SettledStays(res, hard, target, p, n, m - 1); }
  }

  /** A limit that is not settled above its target loses at least one whole unit. */
  lemma StepDescends(res: Resource, h: int, target: int, p: Policy)
    requires ValidPolicy(p) && 0 <= target <= h && !Settled(res, h, target, p)
    ensures target <= StepOn(res, h, target, p) < h
    ensures UnitsIn(res, StepOn(res, h, target, p)) < UnitsIn(res, h)
  {
    hide Quantize, Capped, UnitsIn;
    NoGrowAbove(res, h, target, CurrentUsage, p);
    LoweredStaysAbove(res, h, target, CurrentUsage, p);
    RoundedLosesUnit(res, Capped(h, target, p.maxShrinkStep), h);
  }

  lemma {:induction false} DescendsOrSettles(res: Resource, hard: int, target: int, p: Policy, n: nat)
    requires ValidPolicy(p) && 0 <= target <= hard
    ensures var h := HardAfter(res, hard, target, p, n);
            UnitsIn(res, h) <= UnitsIn(res, hard) - n || Settled(res, h, target, p)
  {
    hide VerdictOn, Settled, UnitsIn;
    if n > 0 {
      var h := HardAfter(res, hard, target, p, n - 1);
      DescendsOrSettles(res, hard, target, p, n - 1);
      NeverBelowTarget(res, hard, target, p, n - 1);
      if !Settled(res, h, target, p) { StepDescends(res, h, target, p); }
    }
  }

  /** A first grow reaches its fixpoint at once. */
  lemma GrowsOnce(res: Resource, hard: int, target: int, p: Policy)
    requires ValidPolicy(p) && 0 <= hard < target
    ensures Settled(res, StepOn(res, hard, target, p), target, p)
  {
    hide Capped, Quantize;
    QuantizeIsLeast(res, target, 0);
    assert hard as real * (1.0 - p.tolerance) <= hard as real;
    if AboveBand(target, hard, p.tolerance) { GrownStays(res, Quantize(res, target), target, CurrentUsage, p); }
  }

  /** Every start settles: from below after one merge, from above after at most as many merges as there
      are whole units to give up. Once settled, a limit never moves again. */
  lemma AlwaysSettles(res: Resource, hard: int, target: int, p: Policy, n: nat, m: nat)
    requires ValidPolicy(p) && 0 <= target && 0 <= hard
    requires 1 <= n <= m && n > UnitsIn(res, hard) - UnitsIn(res, target)
    ensures Settled(res, HardAfter(res, hard, target, p, n), target, p)
    ensures HardAfter(res, hard, target, p, m) == HardAfter(res, hard, target, p, n)
  {
    hide VerdictOn, Settled, UnitsIn;
    if hard < target {
      GrowsOnce(res, hard, target, p);
      assert HardAfter(res, hard, target, p, 0) == hard;
      assert HardAfter(res, hard, target, p, 1) == StepOn(res, hard, target, p);
      SettledStays(res, hard, target, p, 1, n);
    } else {
      NeverBelowTarget(res, hard, target, p, n);
      UnitsMonotone(res, target, HardAfter(res, hard, target, p, n));
      DescendsOrSettles(res, hard, target, p, n);
    }
    SettledStays(res, hard, target, p, n, m);
  }

  /* ---------- how fast ---------- */

  function Pow(x: real, n: nat): real
  {
    if n == 0 then 1.0 else x * Pow(x, n - 1)
  }

  /** One capped step multiplies by 1 - s and rounds by less than one unit. */
  lemma StepBounds(res: Resource, h: int, target: int, p: Policy)
    requires ValidPolicy(p) && 0 <= target <= h
    ensures var next := StepOn(res, h, target, p);
            && (next < h ==> next <= Quantize(res, target)
                             || next as real < h as real * (1.0 - p.maxShrinkStep) + UnitOf(res) as real)
            && next as real > h as real * (1.0 - p.maxShrinkStep) - 1.0
  {
    hide Quantize, UnitOf, AboveBand, BelowBand;
    NoGrowAbove(res, h, target, CurrentUsage, p);
    QuantizeIsLeast(res, Scaled(h, 1.0 - p.maxShrinkStep), 0);
    assert h as real * (1.0 - p.maxShrinkStep) <= h as real;
    if VerdictOn(res, h, target, CurrentUsage, p).Lower? { LoweredStaysAbove(res, h, target, CurrentUsage, p); }
  }

  lemma TimesMonotone(a: real, b: real, k: real)
    requires a <= b && k >= 0.0
    ensures a * k <= b * k
  {
  }

  lemma StrictlyLarger(a: real, b: real, k: real)
    requires a < b && k > 0.0
    ensures a * k < b * k
  {
  }

  predicate AtMost(h: int, pow: real, hard: int, slack: real)
  {
    h as real <= pow * hard as real + slack
  }

  lemma AtMostItself(hard: int, s: real, u: real)
    requires s > 0.0 && u >= 0.0
    ensures AtMost(hard, 1.0, hard, u / s)
  {
  }

  /** A step a' <= a * (1 - s) + u keeps a below a geometric series. */
  lemma Geometric(a: int, a': int, hard: int, pow: real, pow': real, s: real, u: real)
    requires 0.0 < s < 1.0 && AtMost(a, pow, hard, u / s) && a' as real <= a as real * (1.0 - s) + u
    requires pow' == (1.0 - s) * pow
    ensures AtMost(a', pow', hard, u / s)
  {
    var q := u / s;
    assert q * s == u;
    var h0 := hard as real;
    TimesMonotone(a as real, pow * h0 + q, 1.0 - s);
    assert (pow * h0 + q) * (1.0 - s) == (1.0 - s) * pow * h0 + q - q * s;
  }

  lemma GeometricBelow(a: real, a': real, h0: real, pow: real, pow': real, s: real, u: real)
    requires 0.0 < s < 1.0 && a >= pow * h0 - u / s && a' >= a * (1.0 - s) - u
    requires pow' == (1.0 - s) * pow
    ensures a' >= pow' * h0 - u / s
  {
    var q := u / s;
    assert q * s == u;
    TimesMonotone(pow * h0 - q, a, 1.0 - s);
    assert (pow * h0 - q) * (1.0 - s) == (1.0 - s) * pow * h0 - q + q * s;
  }

  lemma AboveStep(res: Resource, h: int, target: int, p: Policy, hard: int, pow: real, pow': real)
    requires ValidPolicy(p) && 0 <= target <= h && pow' == (1.0 - p.maxShrinkStep) * pow
    requires AtMost(h, pow, hard, UnitOf(res) as real / p.maxShrinkStep)
    requires Quantize(res, target) < StepOn(res, h, target, p) < h
    ensures AtMost(StepOn(res, h, target, p), pow', hard, UnitOf(res) as real / p.maxShrinkStep)
  {
    hide Quantize, UnitOf, StepOn, AtMost;
    StepBounds(res, h, target, p);
    Geometric(h, StepOn(res, h, target, p), hard, pow, pow', p.maxShrinkStep, UnitOf(res) as real);
  }

  lemma PowZero(x: real)
    ensures Pow(x, 0) == 1.0
  {
  }

  lemma PowStep(x: real, n: nat)
    requires n > 0
    ensures Pow(x, n) == x * Pow(x, n - 1)
  {
  }

  /** While it still moves, a limit above its target shrinks at the rate of the step, up to rounding. */
  lemma {:induction false} ConvergesAbove(res: Resource, hard: int, target: int, p: Policy, n: nat)
    requires ValidPolicy(p) && 0 <= target <= hard
    requires forall k: nat :: k < n ==> !Settled(res, HardAfter(res, hard, target, p, k), target, p)
    ensures var h := HardAfter(res, hard, target, p, n);
            || h <= Quantize(res, target)
            || AtMost(h, Pow(1.0 - p.maxShrinkStep, n), hard, UnitOf(res) as real / p.maxShrinkStep)
  {
    hide VerdictOn, Quantize, UnitOf, StepOn, Settled, AtMost, Pow;
    var s, unit := p.maxShrinkStep, UnitOf(res) as real;
    if n > 0 {
      var h := HardAfter(res, hard, target, p, n - 1);
      ConvergesAbove(res, hard, target, p, n - 1);
      NeverBelowTarget(res, hard, target, p, n - 1);
      StepDescends(res, h, target, p);
      if StepOn(res, h, target, p) > Quantize(res, target) {
        PowStep(1.0 - s, n);
        AboveStep(res, h, target, p, hard, Pow(1.0 - s, n - 1), Pow(1.0 - s, n));
      }
    } else {
      PowZero(1.0 - s);
      AtMostItself(hard, s, unit);
    }
  }

  /** And it cannot shrink faster than that. */
  lemma {:induction false} ConvergesBelow(res: Resource, hard: int, target: int, p: Policy, n: nat)
    requires ValidPolicy(p) && 0 <= target <= hard
    ensures HardAfter(res, hard, target, p, n) as real
              >= Pow(1.0 - p.maxShrinkStep, n) * hard as real - 1.0 / p.maxShrinkStep
  {
    hide VerdictOn, Quantize, UnitOf, StepOn, Pow;
    var s := p.maxShrinkStep;
    if n > 0 {
      var h := HardAfter(res, hard, target, p, n - 1);
      ConvergesBelow(res, hard, target, p, n - 1);
      NeverBelowTarget(res, hard, target, p, n - 1);
      PowStep(1.0 - s, n);
      BelowStep(res, h, target, p, hard as real, Pow(1.0 - s, n - 1), Pow(1.0 - s, n));
    } else {
      PowZero(1.0 - s);
      PositiveQuotient(s);
    }
  }

  lemma PositiveQuotient(s: real)
    requires s > 0.0
    ensures 1.0 / s > 0.0
  {
  }

  lemma BelowStep(res: Resource, h: int, target: int, p: Policy, h0: real, pow: real, pow': real)
    requires ValidPolicy(p) && 0 <= target <= h && pow' == (1.0 - p.maxShrinkStep) * pow
    requires h as real >= pow * h0 - 1.0 / p.maxShrinkStep
    ensures StepOn(res, h, target, p) as real >= pow' * h0 - 1.0 / p.maxShrinkStep
  {
    hide Quantize, UnitOf, StepOn;
    StepBounds(res, h, target, p);
    GeometricBelow(h as real, StepOn(res, h, target, p) as real, h0, pow, pow', p.maxShrinkStep, 1.0);
  }

  lemma {:induction false} HardAfterBoth(res: Resource, hard: int, target: int, p: Policy, n: nat, m: nat)
    ensures HardAfter(res, HardAfter(res, hard, target, p, n), target, p, m) == HardAfter(res, hard, target, p, n + m)
  {
    hide VerdictOn, StepOn;
    if m > 0 { HardAfterBoth(res, hard, target, p, n, m - 1); }
  }

  /** Between the target and its rounding nothing moves. */
  lemma RoundedSettles(res: Resource, h: int, target: int, p: Policy)
    requires ValidPolicy(p) && 0 <= target <= h <= Quantize(res, target)
    ensures Settled(res, h, target, p)
  {
    hide Quantize;
    StaysWhere(res, h, target, CurrentUsage, p);
    QuantizeMonotone(res, target, Capped(h, target, p.maxShrinkStep));
  }

  lemma FewUnitsLeft(res: Resource, h: int, pow: real, hard: int, s: real)
    requires s > 0.0 && AtMost(h, pow, hard, UnitOf(res) as real / s) && pow * hard as real <= UnitOf(res) as real
    ensures UnitsIn(res, h) as real < 2.0 + 1.0 / s
  {
    hide UnitsIn, UnitOf;
    var unit := UnitOf(res) as real;
    UnitsBelow(res, h);
    assert unit / s == unit * (1.0 / s);
    var q, most := h as real / unit, 1.0 + 1.0 / s;
    assert q * unit == h as real <= most * unit;
    if q > most { StrictlyLarger(most, q, unit); }
  }

  /** The merges it takes: those that bring (1 - s)^fast of the start below one unit, and some 1 / s more. */
  lemma SettlesWithin(res: Resource, hard: int, target: int, p: Policy, fast: nat, rest: nat)
    requires ValidPolicy(p) && 0 <= target && 0 <= hard
    requires Pow(1.0 - p.maxShrinkStep, fast) * hard as real <= UnitOf(res) as real
    requires rest as real >= 2.0 + 1.0 / p.maxShrinkStep
    ensures Settled(res, HardAfter(res, hard, target, p, fast + rest), target, p)
  {
    hide VerdictOn, Settled, UnitsIn, Quantize, UnitOf, StepOn, AtMost;
    var n, h := fast + rest, HardAfter(res, hard, target, p, fast);
    assert rest >= 1;
    if hard < target {
      GrowsOnce(res, hard, target, p);
      assert HardAfter(res, hard, target, p, 0) == hard;
      assert HardAfter(res, hard, target, p, 1) == StepOn(res, hard, target, p);
      SettledStays(res, hard, target, p, 1, n);
    } else if k: nat :| k < fast && Settled(res, HardAfter(res, hard, target, p, k), target, p) {
      SettledStays(res, hard, target, p, k, n);
    } else {
      ConvergesAbove(res, hard, target, p, fast);
      NeverBelowTarget(res, hard, target, p, fast);
      if h <= Quantize(res, target) {
        RoundedSettles(res, h, target, p);
        SettledStays(res, hard, target, p, fast, n);
      } else {
        FewUnitsLeft(res, h, Pow(1.0 - p.maxShrinkStep, fast), hard, p.maxShrinkStep);
        UnitsMonotone(res, target, target);
        AlwaysSettles(res, h, target, p, rest, rest);
        HardAfterBoth(res, hard, target, p, fast, rest);
      }
    }
  }
}
