/** What a decision tells its readers (describe and targetFor in internal/sizing/decide.go): one line for each
    resource it changes, and each line names a term that is as large as the value it is to explain. */
module DecisionReasons {
  import opened Options
  import opened Strings
  import opened Clock
  import opened Quantities
  import opened Policies
  import opened WindowModel
  import opened SortedLines
  import opened DecisionRule
  import opened DecisionProperties
  import opened QuotaKeys

  function Line(res: Resource, from: int, to: int, cause: string): string
  {
    "- `" + res + "`: " + Decimal(from) + "m -> " + Decimal(to) + "m (driven by " + cause + ")"
  }

  /** The demand with the headroom of the resource. */
  function Scale(milli: int, headroom: real): int
  {
    (milli as real * (1.0 + headroom)).Floor
  }

  lemma ScaleIs(milli: int, headroom: real)
    ensures Scaled(milli, 1.0 + headroom) == Scale(milli, headroom)
  {
  }

  /** What one step at most leaves of a limit. */
  function Left(hard: int, step: real): int
  {
    (hard as real * (1.0 - step)).Floor
  }

  lemma LeftIs(hard: int, step: real)
    ensures Scaled(hard, 1.0 - step) == Left(hard, step)
  {
  }

  /** The named cause alone accounts for the value. */
  ghost predicate Accounts(inp: Input, res: Resource, direction: Direction, value: int, cause: string)
    requires res in inp.used && res in inp.hard
  {
    var used, h, days := inp.used[res], HeadroomFor(inp.policy, res), inp.policy.windowDays;
    var peak := PeakOf(inp.window.days, res, Day(inp.now), days);
    || (cause == "current usage" && value == Quantize(res, Scale(used, h)))
    || (cause == Decimal(days) + "-day peak" && peak.Some? && peak.value > used
        && value == Quantize(res, Scale(peak.value, h)))
    || (cause == "pending shortage" && res in inp.deficits && inp.deficits[res] > 0
        && value == Quantize(res, Scale(used + inp.deficits[res], h)))
    || (cause == "configured minimum" && MinFor(inp.policy, res).Some?
        && value == Quantize(res, MinFor(inp.policy, res).value))
    || (cause == "step cap" && direction == Shrink
        && value == Quantize(res, Left(inp.hard[res], inp.policy.maxShrinkStep)))
  }

  /** The driver of a target is a term that is as large as the target. */
  ghost predicate Drives(inp: Input, res: Resource, target: int, driver: Driver)
    requires res in inp.used
  {
    var used, h := inp.used[res], HeadroomFor(inp.policy, res);
    var peak := PeakOf(inp.window.days, res, Day(inp.now), inp.policy.windowDays);
    match driver
    case CurrentUsage => target == Scale(used, h)
    case WindowPeak(days) =>
      days == inp.policy.windowDays && peak.Some? && peak.value > used && target == Scale(peak.value, h)
    case PendingShortage =>
      res in inp.deficits && inp.deficits[res] > 0 && target == Scale(used + inp.deficits[res], h)
    case ConfiguredMinimum => MinFor(inp.policy, res) == Some(target)
    case _ => false
  }

  lemma TargetDriven(inp: Input, res: Resource)
    requires ValidPolicy(inp.policy) && Comparable(inp, res)
    ensures var t := TargetFor(inp, res, inp.used[res], HeadroomFor(inp.policy, res)); Drives(inp, res, t.0, t.1)
  {
    hide PeakOf, HeadroomFor, MinFor, Measurable, ValidPolicy, Scaled, Scale;
    var used, h := inp.used[res], HeadroomFor(inp.policy, res);
    var peak := PeakOf(inp.window.days, res, Day(inp.now), inp.policy.windowDays);
    ScaleIs(used, h);
    if peak.Some? {
      ScaleIs(peak.value, h);
      if peak.value > used { ScaledMonotone(used, peak.value, 1.0 + h); }
    }
    if res in inp.deficits && inp.deficits[res] > 0 {
      ScaleIs(used + inp.deficits[res], h);
      ScaledMonotone(used, used + inp.deficits[res], 1.0 + h);
    }
  }

  /** The driver of a verdict is the one of its target, unless the step cut it off. */
  lemma VerdictDriven(inp: Input, res: Resource, target: int, driver: Driver)
    requires Comparable(inp, res) && !VerdictFor(inp, res).Stay?
    requires (target, driver) == TargetFor(inp, res, inp.used[res], HeadroomFor(inp.policy, res))
    ensures var v, left := VerdictFor(inp, res), Left(inp.hard[res], inp.policy.maxShrinkStep);
            || (v.driver == driver && v.qty == Quantize(res, target))
            || (v.driver == StepCap && v.Lower? && v.qty == Quantize(res, left))
  {
    hide TargetFor, HeadroomFor, Measurable, Quantize, Scaled, Left;
    LeftIs(inp.hard[res], inp.policy.maxShrinkStep);
  }

  lemma DriverAccounts(inp: Input, res: Resource)
    requires ValidPolicy(inp.policy) && Comparable(inp, res) && !VerdictFor(inp, res).Stay?
    ensures var v := VerdictFor(inp, res);
            Accounts(inp, res, if v.Raise? then Grow else Shrink, v.qty, DriverText(v.driver))
  {
    hide PeakOf, HeadroomFor, MinFor, Measurable, Quantize, Decimal, ValidPolicy, Scale, Left, TargetFor, VerdictFor;
    TargetDriven(inp, res);
    var (target, driver) := TargetFor(inp, res, inp.used[res], HeadroomFor(inp.policy, res));
    VerdictDriven(inp, res, target, driver);
  }

  lemma LineIn(keys: set<string>, line: string -> string, k: string)
    requires k in keys
    ensures line(k) in LinesOf(keys, line)
  {
    LinesOfWithout(keys, line, k);
  }

  lemma {:induction false} LinesCount(keys: set<string>, line: string -> string)
    ensures |LinesOf(keys, line)| == |keys|
  {
    if keys != {} { LinesCount(keys - {Pick(keys)}, line); }
  }

  lemma ReasonIs(inp: Input, d: Decision)
    requires inp.policy.enabled && IsDecision(d, inp) && d.targets != map[]
    ensures d.direction in {Grow, Shrink}
    ensures var keys := if d.direction == Grow then Growing(inp) else Shrinking(inp);
            IsReason(d.reason, inp, keys) && d.targets == TargetsOf(inp, keys) && d.targets.Keys == keys
  {
    hide VerdictFor, IsReason, Gates, RawTargetsOf;
  }

  lemma ChangedIs(inp: Input, d: Decision, res: Resource)
    requires ValidPolicy(inp.policy) && inp.policy.enabled && IsDecision(d, inp) && res in d.targets
    ensures Comparable(inp, res)
    ensures var v := VerdictFor(inp, res);
            !v.Stay? && d.direction == (if v.Raise? then Grow else Shrink) && d.targets[res] == v.qty
  {
    hide IsReason, Gates, RawTargetsOf, TargetFor, VerdictOn, Measurable, ValidPolicy;
  }

  /** A decision tells of each resource that it changes, of nothing else, in order; and what it names as the cause
      would lead to the same value without all the others. */
  lemma ReasonAccounts(inp: Input, d: Decision, res: Resource)
    requires ValidPolicy(inp.policy) && inp.policy.enabled && IsDecision(d, inp) && res in d.targets
    ensures res in inp.used && res in inp.hard
    ensures exists cause :: Line(res, inp.hard[res], d.targets[res], cause) in d.reason
                            && Accounts(inp, res, d.direction, d.targets[res], cause)
    ensures |d.reason| == |d.targets| && Sorted(d.reason)
  {
    hide IsDecision, ValidPolicy, Accounts, Decimal, Sorted, Measurable, VerdictFor, Growing, Shrinking, TargetsOf,
         DriverText;
    ReasonIs(inp, d);
    ChangedIs(inp, d, res);
    var keys := if d.direction == Grow then Growing(inp) else Shrinking(inp);
    LineIn(keys, r => Describe(inp, r), res);
    LinesCount(keys, r => Describe(inp, r));
    assert |multiset(d.reason)| == |keys|;
    DriverAccounts(inp, res);
    var v := VerdictFor(inp, res);
    assert Line(res, inp.hard[res], v.qty, DriverText(v.driver)) == Describe(inp, res);
    assert Describe(inp, res) in multiset(d.reason);
  }
}
