/** From raw samples to a merged shrink: what a shrink decision guarantees about real demand. */
module EndToEnd {
  import opened Options
  import opened Clock
  import opened Quantities
  import opened Policies
  import opened WindowModel
  import opened DecisionRule
  import opened DecisionProperties
  import opened CoverageRuns
  import opened PeakRuns
  import CoverageGate
  import FloatCounts
  import FloatRounding

  /** The reconciler decides on the window that Observe just returned, at the time of that call. */
  predicate DecidesOn(events: seq<Event>, inp: Input)
  {
    After(events).store.cache == Some(inp.window)
  }

  /** A lower limit still covers a demand with its headroom. */
  predicate StillCovers(inp: Input, res: Resource, value: int, demand: int)
  {
    Scaled(demand, 1.0 + HeadroomFor(inp.policy, res)) <= value
  }

  lemma ShrinkTarget(inp: Input, d: Decision, res: Resource)
    requires ValidPolicy(inp.policy) && IsDecision(d, inp) && d.direction == Shrink && res in d.targets
    ensures res in inp.hard && Comparable(inp, res) && GatesOpen(inp) && Recedes(inp, res)
    ensures d.targets[res] < inp.hard[res]
    ensures d.targets[res] >= RawTarget(inp, res)
    ensures d.targets[res] >= Scaled(inp.hard[res], 1.0 - inp.policy.maxShrinkStep)
  {
    hide Quantize, RawTarget, GatesOpen, Measurable, IsReason, Growing, Shrinking, TargetsOf, Gates, RawTargetsOf;
    DecisionFollowsRule(inp, d, res);
    QuantizeIsLeast(res, Capped(inp.hard[res], RawTarget(inp, res), inp.policy.maxShrinkStep), 0);
  }

  /** A shrink keeps covering current usage, pending shortage and the configured minimum, and is no
      deeper than one step. */
  lemma ShrinkKeepsCurrentDemand(inp: Input, d: Decision, res: Resource)
    requires ValidPolicy(inp.policy) && IsDecision(d, inp) && d.direction == Shrink && res in d.targets
    ensures res in inp.hard && Comparable(inp, res)
    ensures Scaled(inp.hard[res], 1.0 - inp.policy.maxShrinkStep) <= d.targets[res] < inp.hard[res]
    ensures StillCovers(inp, res, d.targets[res], inp.used[res])
    ensures res in inp.deficits && inp.deficits[res] > 0 ==>
      StillCovers(inp, res, d.targets[res], inp.used[res] + inp.deficits[res])
    ensures MinFor(inp.policy, res).Some? ==> MinFor(inp.policy, res).value <= d.targets[res]
  {
    hide IsDecision, Recedes, RawTarget, GatesOpen, Scaled, HeadroomFor, MinFor, PeakOf;
    ShrinkTarget(inp, d, res);
    var factor := 1.0 + HeadroomFor(inp.policy, res);
    TargetIsGreatestRequirement(inp, res, Scaled(inp.used[res], factor));
    if res in inp.deficits && inp.deficits[res] > 0 {
      TargetIsGreatestRequirement(inp, res, Scaled(inp.used[res] + inp.deficits[res], factor));
    }
    if MinFor(inp.policy, res).Some? { TargetIsGreatestRequirement(inp, res, MinFor(inp.policy, res).value); }
  }

  lemma PeakIsRequired(inp: Input, res: Resource, demand: int)
    requires ValidPolicy(inp.policy) && Comparable(inp, res)
    requires var p := PeakOf(inp.window.days, res, Day(inp.now), inp.policy.windowDays);
             p.Some? && demand <= p.value
    ensures Scaled(demand, 1.0 + HeadroomFor(inp.policy, res)) <= RawTarget(inp, res)
  {
    hide PeakOf, HeadroomFor, RawTarget, Scaled, Comparable;
    var p, factor := PeakOf(inp.window.days, res, Day(inp.now), inp.policy.windowDays),
                     1.0 + HeadroomFor(inp.policy, res);
    TargetIsGreatestRequirement(inp, res, Scaled(p.value, factor));
    ScaledMonotone(demand, p.value, factor);
  }

  /** After any run without failed writes, a shrink still covers, with headroom, every sample that was taken of
      its quota object, since the UID changed, on the completed days of the window. */
  lemma ShrinkCoversHistory(events: seq<Event>, inp: Input, d: Decision, res: Resource, i: nat)
    requires Admissible(events) && Reliable(events) && AllMeasurable(Stretch(Folded(events)), res)
    requires DecidesOn(events, inp)
    requires ValidPolicy(inp.policy) && IsDecision(d, inp) && d.direction == Shrink && res in d.targets
    requires var h := Stretch(Folded(events));
             && i < |h| && res in h[i].used
             && Day(inp.now) - inp.policy.windowDays <= Day(h[i].now) < Day(inp.now)
    ensures StillCovers(inp, res, d.targets[res], Stretch(Folded(events))[i].used[res])
  {
    hide IsDecision, PeakOf, RawTarget, AllMeasurable, Reliable, Comparable, Complete, After, Scaled, Folded, Stretch;
    ShrinkTarget(inp, d, res);
    PeakCoversHistory(events, inp.window, res, Day(inp.now), inp.policy.windowDays, i);
    PeakIsRequired(inp, res, Stretch(Folded(events))[i].used[res]);
  }

  /** Whatever failed or crashed, and whatever objects came before: a shrink rests on days that were really
      observed, by samples of its own object, and by all that were ever folded of it exactly unless the first one
      of the day came late and nothing was stored before it; and it keeps its distance from the last grow and the
      last shrink. */
  lemma ShrinkRestsOnObservation(events: seq<Event>, inp: Input, d: Decision, date: int)
    requires Admissible(events) && DecidesOn(events, inp)
    requires ValidPolicy(inp.policy) && IsDecision(d, inp) && d.direction == Shrink
    requires Day(inp.now) - inp.policy.windowDays <= date < Day(inp.now)
    ensures var h := After(events).cached;
            && DayObserved(h, date) && forall i :: 0 <= i < |h| ==> h[i].uid == inp.window.uid
    ensures var h, own := After(events).cached, Own(Folded(events), inp.window.uid);
            own == Lost(h, own) + h && (DayObserved(own, date) <==> !StartsLate(Lost(h, own), h, date))
    ensures inp.lastGrow.Some? ==> inp.now - inp.lastGrow.value >= inp.policy.windowDays * 86400
    ensures inp.lastShrink.Some? ==> inp.now - inp.lastShrink.value >= inp.policy.shrinkCooldown
  {
    hide PeakOf, RawTarget, Comparable, Complete, After, IsReason, RawTargetsOf, Folded, Lost, StartsLate, DayObserved,
         Own;
    assert d.targets.Keys == Shrinking(inp) != {};
    var res :| res in d.targets;
    ShrinkTarget(inp, d, res);
    CrashSafeCoverage(events, inp.window, After(events).cached, res, Day(inp.now), inp.policy.windowDays);
  }

  lemma WindowOpens(samples: seq<Sample>, uid: string, inp: Input, res: Resource)
    requires ValidPolicy(inp.policy) && samples != [] && samples[|samples| - 1].now == inp.now
    requires CoverageGate.Fed(samples, inp.policy.windowDays).cache == Some(inp.window)
    requires CoverageGate.Regular(samples, uid, res)
    requires samples[0].now < (Day(inp.now) - inp.policy.windowDays) * 86400 + 31 * 60
    ensures Complete(inp.window.days, res, Day(inp.now), inp.policy.windowDays)
  {
    CoverageGate.RegularSamplingCompletes(samples, uid, res, inp.policy.windowDays);
  }

  /** And shrinks do happen: when nothing has to grow, the resources that lie far enough above their target
      were sampled at least every half hour since 00:30 of the oldest day, and the last grow and shrink
      are long enough ago, the decision is to shrink. */
  lemma RegularSamplingShrinks(samples: seq<Sample>, uid: string, inp: Input, d: Decision, res: Resource)
    requires ValidPolicy(inp.policy) && inp.policy.enabled && inp.policy.shrinkEnabled && IsDecision(d, inp)
    requires samples != [] && samples[|samples| - 1].now == inp.now
    requires CoverageGate.Fed(samples, inp.policy.windowDays).cache == Some(inp.window)
    requires samples[0].now < (Day(inp.now) - inp.policy.windowDays) * 86400 + 31 * 60
    requires inp.lastGrow.Some? ==> inp.now - inp.lastGrow.value >= inp.policy.windowDays * 86400
    requires inp.lastShrink.Some? ==> inp.now - inp.lastShrink.value >= inp.policy.shrinkCooldown
    requires forall r :: !Exceeds(inp, r) && (Recedes(inp, r) ==> CoverageGate.Regular(samples, uid, r))
    requires Recedes(inp, res)
    ensures d.direction == Shrink && res in d.targets && d.targets[res] == StepTarget(inp, res)
  {
    hide IsDecision, Recedes, Exceeds, Complete, StepTarget, CoverageGate.Regular, CoverageGate.Fed, ValidPolicy;
    forall r | Recedes(inp, r) ensures Complete(inp.window.days, r, Day(inp.now), inp.policy.windowDays) {
      WindowOpens(samples, uid, inp, r);
    }
    DecisionFollowsRule(inp, d, res);
  }

  /** In floating point, rounding gives the same value, and so keeps these promises, unless the target is one
      that FloatCounts shows to fall or to rise; a value that rises keeps them too. */
  lemma FloatKeepsShrink(inp: Input, d: Decision, res: Resource, f: real, q: real, s: real, r: int)
    requires ValidPolicy(inp.policy) && IsDecision(d, inp) && d.direction == Shrink && res in d.targets
    requires res in inp.hard && Comparable(inp, res)
    requires var milli := Capped(inp.hard[res], RawTarget(inp, res), inp.policy.maxShrinkStep);
             0 <= milli <= FloatRounding.MAX_INT64 && FloatRounding.FloatQuantized(res, milli, f, q, s, r)
    ensures var milli := Capped(inp.hard[res], RawTarget(inp, res), inp.policy.maxShrinkStep);
            && (r < d.targets[res] <==> FloatCounts.FallsBelow(res, milli))
            && (r > d.targets[res] <==> FloatCounts.RisesAbove(res, milli))
  {
    hide Quantize, RawTarget, GatesOpen, IsReason, Growing, Shrinking, TargetsOf, Gates, RawTargetsOf, IsCountable,
         FloatRounding.FloatQuantized, FloatCounts.FallsBelow, FloatCounts.RisesAbove;
    var milli := Capped(inp.hard[res], RawTarget(inp, res), inp.policy.maxShrinkStep);
    DecisionFollowsRule(inp, d, res);
    QuantizeIsLeast(res, milli, 0);
    FloatCounts.ExactIff(res, milli, f, q, s, r);
  }
}
