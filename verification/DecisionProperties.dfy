/** What a decision promises about demand, and that it is the rule the design states. */
module DecisionProperties {
  import opened Options
  import opened Clock
  import opened Quantities
  import opened Policies
  import opened WindowModel
  import opened DecisionRule

  lemma ScaledMonotone(a: int, b: int, factor: real)
    requires a <= b && factor >= 0.0
    ensures Scaled(a, factor) <= Scaled(b, factor)
  {
    assert a as real * factor <= b as real * factor;
  }

  /** A requirement a resource puts on its target. */
  ghost predicate Required(inp: Input, res: Resource, milli: int)
    requires res in inp.used
  {
    var p, factor := PeakOf(inp.window.days, res, Day(inp.now), inp.policy.windowDays),
                     1.0 + HeadroomFor(inp.policy, res);
    || milli == Scaled(inp.used[res], factor)
    || (p.Some? && milli == Scaled(p.value, factor))
    || (res in inp.deficits && inp.deficits[res] > 0 && milli == Scaled(inp.used[res] + inp.deficits[res], factor))
    || MinFor(inp.policy, res) == Some(milli)
  }

  /** The target is the largest requirement, and the branch for the usage floor is never taken. */
  lemma TargetIsGreatestRequirement(inp: Input, res: Resource, milli: int)
    requires ValidPolicy(inp.policy) && Comparable(inp, res)
    ensures Required(inp, res, RawTarget(inp, res))
    ensures Required(inp, res, milli) ==> milli <= RawTarget(inp, res)
    ensures TargetFor(inp, res, inp.used[res], HeadroomFor(inp.policy, res)).1 != UsageFloor
  {
    hide PeakOf, HeadroomFor, MinFor, Scaled, Measurable;
    var p, factor := PeakOf(inp.window.days, res, Day(inp.now), inp.policy.windowDays),
                     1.0 + HeadroomFor(inp.policy, res);
    var used := inp.used[res];
    var peak := if p.Some? && p.value > used then p.value else used;
    var need := if res in inp.deficits && inp.deficits[res] > 0 then used + inp.deficits[res] else used;
    var top := if need > peak then need else peak;
    ScaledMonotone(used, top, factor);
    ScaledMonotone(peak, top, factor);
    ScaledMonotone(need, top, factor);
    if p.Some? { ScaledMonotone(p.value, top, factor); }
  }

  lemma TargetNotNegative(inp: Input, res: Resource)
    requires ValidPolicy(inp.policy) && Comparable(inp, res)
    ensures RawTarget(inp, res) >= 0
  {
    ScaledMonotone(0, inp.used[res], 1.0 + HeadroomFor(inp.policy, res));
    assert Scaled(0, 1.0 + HeadroomFor(inp.policy, res)) == 0;
    hide TargetFor, PeakOf, RawTarget, HeadroomFor, MinFor, Scaled;
    TargetIsGreatestRequirement(inp, res, Scaled(inp.used[res], 1.0 + HeadroomFor(inp.policy, res)));
  }

  /** The rule for one resource, without the rounding guard of the growing branch. */
  predicate Exceeds(inp: Input, res: Resource)
  {
    res in inp.hard && Comparable(inp, res) && AboveBand(RawTarget(inp, res), inp.hard[res], inp.policy.tolerance)
  }

  function StepTarget(inp: Input, res: Resource): int
    requires Comparable(inp, res)
  {
    Quantize(res, Capped(inp.hard[res], RawTarget(inp, res), inp.policy.maxShrinkStep))
  }

  predicate Recedes(inp: Input, res: Resource)
  {
    && res in inp.hard && Comparable(inp, res)
    && BelowBand(RawTarget(inp, res), inp.hard[res], inp.policy.tolerance)
    && StepTarget(inp, res) < inp.hard[res]
  }

  lemma VerdictMeans(inp: Input, res: Resource)
    requires ValidPolicy(inp.policy) && res in inp.hard
    ensures VerdictFor(inp, res).Raise? <==> Exceeds(inp, res)
    ensures VerdictFor(inp, res).Lower? <==> Recedes(inp, res)
    ensures Exceeds(inp, res) ==>
      VerdictFor(inp, res).qty == Quantize(res, RawTarget(inp, res)) && VerdictFor(inp, res).qty > inp.hard[res]
    ensures Recedes(inp, res) ==> VerdictFor(inp, res).qty == StepTarget(inp, res)
  {
    hide TargetFor, Quantize, Capped, HeadroomFor;
    if Exceeds(inp, res) {
      QuantizeIsLeast(res, RawTarget(inp, res), 0);
      assert inp.hard[res] as real * (1.0 + inp.policy.tolerance) >= inp.hard[res] as real;
    }
  }

  ghost predicate GatesOpen(inp: Input)
  {
    && inp.policy.shrinkEnabled
    && (forall res :: Recedes(inp, res) ==> Complete(inp.window.days, res, Day(inp.now), inp.policy.windowDays))
    && (inp.lastGrow.Some? ==> inp.now - inp.lastGrow.value >= inp.policy.windowDays * 86400)
    && (inp.lastShrink.Some? ==> inp.now - inp.lastShrink.value >= inp.policy.shrinkCooldown)
  }

  lemma VerdictOutside(inp: Input, res: Resource)
    requires res !in inp.hard
    ensures !Exceeds(inp, res) && !Recedes(inp, res) && res !in Growing(inp) && res !in Shrinking(inp)
  {
  }

  lemma Groups(inp: Input)
    requires ValidPolicy(inp.policy)
    ensures forall res :: res in Growing(inp) <==> Exceeds(inp, res)
    ensures forall res :: res in Shrinking(inp) <==> Recedes(inp, res)
  {
    hide VerdictFor, Exceeds, Recedes;
    forall res
      ensures res in Growing(inp) <==> Exceeds(inp, res)
      ensures res in Shrinking(inp) <==> Recedes(inp, res)
    {
      if res in inp.hard { VerdictMeans(inp, res); } else { VerdictOutside(inp, res); }
    }
  }

  lemma GatesEmptyMeansOpen(inp: Input)
    requires ValidPolicy(inp.policy)
    ensures Gates(inp, Shrinking(inp)) == [] <==> GatesOpen(inp)
  {
    hide Shrinking, Recedes, Complete;
    Groups(inp);
  }

  lemma TargetsMean(inp: Input, res: Resource)
    requires ValidPolicy(inp.policy)
    ensures Exceeds(inp, res) ==>
      && res in Growing(inp)
      && TargetsOf(inp, Growing(inp))[res] == Quantize(res, RawTarget(inp, res)) > inp.hard[res]
    ensures Recedes(inp, res) ==>
      && res in Shrinking(inp)
      && TargetsOf(inp, Shrinking(inp))[res] == StepTarget(inp, res) < inp.hard[res]
  {
    hide VerdictFor, Comparable, RawTarget, Quantize, AboveBand, BelowBand;
    if res in inp.hard { VerdictMeans(inp, res); }
  }

  /** The decision, stated without loops, verdicts or rounding guards: growth anywhere wins over
      every shrink, and a shrink needs all four gates. */
  lemma DecisionFollowsRule(inp: Input, d: Decision, res: Resource)
    requires ValidPolicy(inp.policy) && inp.policy.enabled && IsDecision(d, inp)
    ensures d.direction == Grow <==> exists r :: Exceeds(inp, r)
    ensures d.direction == Shrink <==>
            (!exists r :: Exceeds(inp, r)) && (exists r :: Recedes(inp, r)) && GatesOpen(inp)
    ensures d.direction == NoChange ==> d.targets == map[]
    ensures d.direction == Grow ==>
      && (res in d.targets <==> Exceeds(inp, res))
      && (res in d.targets ==> d.targets[res] == Quantize(res, RawTarget(inp, res)) > inp.hard[res])
    ensures d.direction == Shrink ==>
      && (res in d.targets <==> Recedes(inp, res))
      && (res in d.targets ==> d.targets[res] == StepTarget(inp, res) < inp.hard[res])
  {
    hide Exceeds, Recedes, Growing, Shrinking, TargetsOf, Gates, GatesOpen, Quantize, RawTarget, StepTarget,
         RawTargetsOf, IsReason;
    Groups(inp);
    GatesEmptyMeansOpen(inp);
    TargetsMean(inp, res);
    assert TargetsOf(inp, Growing(inp)).Keys == Growing(inp);
    assert TargetsOf(inp, Shrinking(inp)).Keys == Shrinking(inp);
  }

  /** At least the same shortage for every resource. */
  predicate NoSmaller(more: map<Resource, int>, less: map<Resource, int>)
  {
    forall res :: res in less && less[res] > 0 ==> res in more && more[res] >= less[res]
  }

  /** Shortages never lower a target. */
  lemma RawTargetMonotone(inp: Input, more: map<Resource, int>, res: Resource)
    requires ValidPolicy(inp.policy) && Comparable(inp, res) && NoSmaller(more, inp.deficits)
    ensures RawTarget(inp, res) <= RawTarget(inp.(deficits := more), res)
  {
    hide PeakOf, HeadroomFor, MinFor, Scaled, Measurable, TargetFor;
    var next := inp.(deficits := more);
    var factor := 1.0 + HeadroomFor(inp.policy, res);
    var t := RawTarget(inp, res);
    TargetIsGreatestRequirement(inp, res, t);
    TargetIsGreatestRequirement(next, res, t);
    if !Required(next, res, t) {
      TargetIsGreatestRequirement(next, res, Scaled(inp.used[res] + more[res], factor));
      ScaledMonotone(inp.used[res] + inp.deficits[res], inp.used[res] + more[res], factor);
    }
  }

  lemma RecedesMonotone(inp: Input, more: map<Resource, int>, res: Resource)
    requires ValidPolicy(inp.policy) && NoSmaller(more, inp.deficits)
    ensures Exceeds(inp, res) ==> Exceeds(inp.(deficits := more), res)
    ensures Recedes(inp.(deficits := more), res) ==> Recedes(inp, res)
    ensures res in inp.hard && Comparable(inp, res) ==>
      && Quantize(res, RawTarget(inp, res)) <= Quantize(res, RawTarget(inp.(deficits := more), res))
      && StepTarget(inp, res) <= StepTarget(inp.(deficits := more), res)
  {
    hide TargetFor, HeadroomFor, Scaled, RawTarget, Quantize;
    if res in inp.hard && Comparable(inp, res) {
      RawTargetMonotone(inp, more, res);
      var step, next := inp.policy.maxShrinkStep, inp.(deficits := more);
      QuantizeMonotone(res, Capped(inp.hard[res], RawTarget(inp, res), step),
                       Capped(inp.hard[res], RawTarget(next, res), step));
      QuantizeMonotone(res, RawTarget(inp, res), RawTarget(next, res));
    }
  }

  /** More shortage keeps a grow a grow and only ever removes resources from a shrink. */
  lemma MoreShortage(inp: Input, more: map<Resource, int>, d: Decision, d': Decision, res: Resource)
    requires ValidPolicy(inp.policy) && inp.policy.enabled && NoSmaller(more, inp.deficits)
    requires IsDecision(d, inp) && IsDecision(d', inp.(deficits := more))
    ensures d.direction == Grow ==> d'.direction == Grow && (res in d.targets ==> res in d'.targets)
    ensures d'.direction == Shrink ==> d.direction != Grow && (res in d'.targets ==> Recedes(inp, res))
    ensures d'.direction == d.direction && res in d.targets && res in d'.targets ==> d.targets[res] <= d'.targets[res]
  {
    hide IsDecision, Quantize, RawTarget, Comparable, AboveBand, BelowBand;
    var next := inp.(deficits := more);
    DecisionFollowsRule(inp, d, res);
    DecisionFollowsRule(next, d', res);
    RecedesMonotone(inp, more, res);
    if d.direction == Grow {
      var r :| Exceeds(inp, r);
      RecedesMonotone(inp, more, r);
    }
  }
}
