/** The decision in numbers: the tolerance band, the step, the rounding and the four gates (internal/sizing/decide.go)
    written out, for every policy and every reading. */
module DecisionNumbers {
  import opened Options
  import opened Clock
  import opened Quantities
  import opened Policies
  import opened WindowModel
  import opened DecisionRule
  import opened DecisionProperties
  import opened QuotaKeys

  /** A limit other than zero and a usage, both small enough for 64 bits of milli-units. */
  predicate Measured(inp: Input, res: Resource)
  {
    && res in inp.hard && 0 < inp.hard[res] <= 9_223_372_036_854_775_807 / 1000 * 1000
    && res in inp.used && 0 <= inp.used[res] <= 9_223_372_036_854_775_807 / 1000 * 1000
  }

  lemma MeasuredMeans(inp: Input, res: Resource)
    ensures Measured(inp, res) <==> Comparable(inp, res)
  {
  }

  /** A limit against its target, the target rounded up, and the value that one step at most leads to: above the
      upper edge of the band the quota grows to the rounded target; below the lower edge that value is previewed,
      unless rounding eats the step up. */
  predicate AsksFor(d: Decision, res: Resource, p: Policy, hard: int, target: int, rounded: int, low: int)
  {
    var above, below := target as real > hard as real * (1.0 + p.tolerance),
                        (target as real) < hard as real * (1.0 - p.tolerance) && low < hard;
    && (above ==> d.direction == Grow)
    && (below ==> d.direction == Grow || res in d.shrinkPreview)
    && (d.direction == Grow ==> (res in d.targets <==> above))
    && (d.direction == Grow && res in d.targets ==> d.targets[res] == rounded > hard)
    && (res in d.shrinkPreview ==> below && d.shrinkPreview[res] == low)
    && res in d.rawTargets && d.rawTargets[res] == rounded
  }

  /** The value that a shrink leads to is the target or what one step leaves, whichever is more, rounded up. */
  lemma ResourceInNumbers(inp: Input, d: Decision, res: Resource, target: int, left: int)
    requires ValidPolicy(inp.policy) && inp.policy.enabled && IsDecision(d, inp)
    requires Comparable(inp, res) && target == RawTarget(inp, res)
    requires left == (inp.hard[res] as real * (1.0 - inp.policy.maxShrinkStep)).Floor
    ensures AsksFor(d, res, inp.policy, inp.hard[res], target, Quantize(res, target),
                    Quantize(res, Larger(left, target)))
  {
    hide RawTarget, Quantize, Growing, Shrinking, TargetsOf, Comparable, Exceeds, Recedes, StepTarget, IsDecision,
         ValidPolicy, Larger;
    Groups(inp);
    TargetsMean(inp, res);
    EdgesAre(inp, res, target, left);
    PreviewIs(inp, d);
    ComparableIsLimited(inp, res);
    assert TargetsOf(inp, Growing(inp)).Keys == Growing(inp);
    assert TargetsOf(inp, Shrinking(inp)).Keys == Shrinking(inp);
  }

  lemma ComparableIsLimited(inp: Input, res: Resource)
    requires Comparable(inp, res)
    ensures res in inp.hard
  {
    hide Measurable;
  }

  lemma EdgesAre(inp: Input, res: Resource, target: int, left: int)
    requires Comparable(inp, res) && target == RawTarget(inp, res)
    requires left == (inp.hard[res] as real * (1.0 - inp.policy.maxShrinkStep)).Floor
    ensures StepTarget(inp, res) == Quantize(res, Larger(left, target))
    ensures Exceeds(inp, res) <==> target as real > inp.hard[res] as real * (1.0 + inp.policy.tolerance)
    ensures Recedes(inp, res) <==>
      (target as real) < inp.hard[res] as real * (1.0 - inp.policy.tolerance) && StepTarget(inp, res) < inp.hard[res]
  {
    hide RawTarget, Quantize, Measurable;
    assert Capped(inp.hard[res], target, inp.policy.maxShrinkStep) == Larger(left, target);
  }

  lemma PreviewIs(inp: Input, d: Decision)
    requires inp.policy.enabled && IsDecision(d, inp)
    ensures d.direction == Grow <==> Growing(inp) != {}
    ensures d.direction == Grow ==>
      d.targets == TargetsOf(inp, Growing(inp)) && d.targets != map[] && d.shrinkPreview == map[]
    ensures d.direction == Shrink ==> d.shrinkPreview != map[]
    ensures d.direction != Grow ==> d.shrinkPreview == TargetsOf(inp, Shrinking(inp))
    ensures d.rawTargets == RawTargetsOf(inp, inp.hard.Keys)
  {
    hide Growing, VerdictFor, IsReason, Gates, RawTargetsOf;
    assert TargetsOf(inp, Growing(inp)).Keys == Growing(inp) && TargetsOf(inp, Shrinking(inp)).Keys == Shrinking(inp);
    if Shrinking(inp) == {} { assert TargetsOf(inp, Shrinking(inp)) == map[]; }
  }

  /** Nothing is asked for where a limit or a usage is missing or cannot be measured. */
  lemma UnmeasuredIsLeftAlone(inp: Input, d: Decision, res: Resource)
    requires IsDecision(d, inp) && !Measured(inp, res)
    ensures res !in d.targets && res !in d.shrinkPreview && res !in d.rawTargets
  {
    hide RawTarget, Quantize, Gates, IsReason, Measurable;
    MeasuredMeans(inp, res);
  }

  /** A namespace that opted out gets no decision at all. */
  lemma DisabledDecidesNothing(inp: Input, d: Decision)
    requires IsDecision(d, inp) && !inp.policy.enabled
    ensures d.direction == NoChange && d.targets == d.shrinkPreview == d.rawTargets == map[]
    ensures d.blockedBy == [] && d.reason == []
  {
  }

  function Rank(g: Gate): nat
  {
    match g
    case GateEnabled => 0
    case GateWindow => 1
    case GateRecentGrow => 2
    case GateCooldown => 3
  }

  /** The closed gates, each once and in this order: shrinking is off, some day of the window was not observed for
      some of the resources, something grew within the window, something shrank within the cooldown. */
  predicate Named(blocked: seq<Gate>, inp: Input, keys: set<Resource>)
  {
    var p, today := inp.policy, inp.now / 86400;
    && (GateEnabled in blocked <==> !p.shrinkEnabled)
    && (GateWindow in blocked <==> exists r :: r in keys && !Complete(inp.window.days, r, today, p.windowDays))
    && (GateRecentGrow in blocked <==>
          inp.lastGrow.Some? && inp.now - inp.lastGrow.value < p.windowDays * 24 * 3600)
    && (GateCooldown in blocked <==> inp.lastShrink.Some? && inp.now - inp.lastShrink.value < p.shrinkCooldown)
    && forall i, j :: 0 <= i < j < |blocked| ==> Rank(blocked[i]) < Rank(blocked[j])
  }

  lemma GatesAre(inp: Input, keys: set<Resource>)
    ensures Named(Gates(inp, keys), inp, keys)
  {
    hide Complete;
  }

  /** A shrink is proposed as previewed when no gate is closed; otherwise the closed gates are named. */
  lemma GatesInNumbers(inp: Input, d: Decision)
    requires ValidPolicy(inp.policy) && inp.policy.enabled && IsDecision(d, inp) && d.shrinkPreview != map[]
    ensures Named(d.blockedBy, inp, d.shrinkPreview.Keys)
    ensures if d.blockedBy == [] then d.direction == Shrink && d.targets == d.shrinkPreview
            else d.direction == NoChange && d.targets == map[]
  {
    hide VerdictFor, IsReason, Gates, Quantize, RawTarget, RawTargetsOf, Comparable, ValidPolicy, Named;
    GatesAre(inp, Shrinking(inp));
    assert d.shrinkPreview.Keys == Shrinking(inp);
  }

  /* ---------- an example ---------- */

  /** A limit of ten processors of which eight are used, and nothing else known. */
  function TenProcessors(now: int, p: Policy): Input
  {
    Input(now, map["requests.cpu" := 10_000], map["requests.cpu" := 8_000], map[], EMPTY, p, None, None)
  }

  /** With the defaults the quota stays, and with a headroom of one for processors it grows to sixteen. */
  lemma HeadroomDecides(inp: Input, d: Decision, annotated: bool)
    requires var p := DEFAULT_POLICY;
             inp == TenProcessors(inp.now, if annotated then p.(headroom := p.headroom["cpu" := 1.0]) else p)
    requires IsDecision(d, inp)
    ensures if annotated then d.direction == Grow && d.targets == map["requests.cpu" := 16_000]
            else d.direction == NoChange
  {
    hide IsDecision, Quantize, RawTarget, Comparable, Measured, AsksFor;
    var res, p := "requests.cpu", inp.policy;
    HeadroomTarget(inp, annotated);
    var target, left := RawTarget(inp, res), (10_000 as real * (1.0 - p.maxShrinkStep)).Floor;
    UnitsOfKeys(res, res, target);
    ResourceInNumbers(inp, d, res, target, left);
    assert AsksFor(d, res, p, 10_000, target, target, Quantize(res, Larger(left, target)));
    AsksOnce(inp, d, if annotated then 16_000 else 10_000, Quantize(res, Larger(left, target)));
  }

  lemma HeadroomTarget(inp: Input, annotated: bool)
    requires var p := DEFAULT_POLICY;
             inp == TenProcessors(inp.now, if annotated then p.(headroom := p.headroom["cpu" := 1.0]) else p)
    ensures Comparable(inp, "requests.cpu") && ValidPolicy(inp.policy)
    ensures RawTarget(inp, "requests.cpu") == if annotated then 16_000 else 10_000
  {
    hide RawTarget, FirstOf;
    var res := "requests.cpu";
    TargetOfKey(inp, res, res);
    Lookups(inp.policy.headroom, res, "cpu", "default");
    Lookups(inp.policy.minimum, res, "cpu", "");
  }

  lemma AsksOnce(inp: Input, d: Decision, target: int, low: int)
    requires inp.hard == map["requests.cpu" := 10_000] && inp.policy.enabled && inp.policy.tolerance == 0.15
    requires target in {10_000, 16_000} && IsDecision(d, inp)
    requires AsksFor(d, "requests.cpu", inp.policy, 10_000, target, target, low)
    ensures if target == 16_000 then d.direction == Grow && d.targets == map["requests.cpu" := 16_000]
            else d.direction == NoChange
  {
    hide IsDecision, TargetsOf, Growing, Shrinking, RawTargetsOf;
    PreviewIs(inp, d);
    forall r ensures r in d.targets || r in d.shrinkPreview ==> r == "requests.cpu" {
      if r != "requests.cpu" { UnmeasuredIsLeftAlone(inp, d, r); }
    }
  }
}
