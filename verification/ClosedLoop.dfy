/** The closed loop over a whole quota: no flapping, and only finitely many shrinks. */
module ClosedLoop {
  import opened Options
  import opened Quantities
  import opened Policies
  import opened WindowModel
  import opened SortedLines
  import opened DecisionRule
  import opened DecisionProperties
  import opened Dynamics

  /** The limits after the pull request of a decision is merged. */
  function Merged(hard: map<Resource, int>, targets: map<Resource, int>): map<Resource, int>
  {
    map res | res in hard :: if res in targets then targets[res] else hard[res]
  }

  function TargetOf(inp: Input, res: Resource): int
    requires res in inp.used
  {
    TargetFor(inp, res, inp.used[res], HeadroomFor(inp.policy, res)).0
  }

  /** The next decision sees the merged limits and the same demand; clock, window and gates are free. */
  ghost predicate Follows(a: Input, d: Decision, b: Input)
  {
    && IsDecision(d, a) && b.hard == Merged(a.hard, d.targets)
    && b.policy == a.policy && b.used == a.used
    && forall res :: res in b.used ==> TargetOf(b, res) == TargetOf(a, res)
  }

  /** A changed limit is at its rounded target after a grow, and above its target after a shrink. */
  lemma MergedLimit(a: Input, d: Decision, res: Resource)
    requires ValidPolicy(a.policy) && IsDecision(d, a) && res in d.targets
    ensures res in a.hard && Comparable(a, res) && d.targets[res] >= TargetOf(a, res) >= 0
    ensures d.direction == Grow ==> d.targets[res] == Quantize(res, TargetOf(a, res))
    ensures d.direction == Shrink ==> d.targets[res] < a.hard[res]
    ensures d.direction == Shrink ==> 0 <= UnitsIn(res, d.targets[res]) < UnitsIn(res, a.hard[res])
  {
    hide TargetFor, Quantize, HeadroomFor, Scaled, GatesOpen, AboveBand, BelowBand, IsReason, RawTargetsOf, TargetsOf,
         Gates, UnitsIn;
    DecisionFollowsRule(a, d, res);
    TargetNotNegative(a, res);
    if d.direction == Shrink {
      RoundedLosesUnit(res, Capped(a.hard[res], RawTarget(a, res), a.policy.maxShrinkStep), a.hard[res]);
      UnitsMonotone(res, d.targets[res], d.targets[res]);
    }
    QuantizeIsLeast(res, RawTarget(a, res), 0);
    QuantizeIsLeast(res, Capped(a.hard[res], RawTarget(a, res), a.policy.maxShrinkStep), 0);
  }

  /** A resource without a target asks for the same growth again. */
  lemma UntouchedAsks(a: Input, d: Decision, b: Input, res: Resource)
    requires Follows(a, d, b) && res !in d.targets
    ensures Exceeds(b, res) <==> Exceeds(a, res)
  {
    hide TargetFor, HeadroomFor, IsDecision;
  }

  lemma NotExceeding(a: Input, d: Decision, b: Input, res: Resource)
    requires ValidPolicy(a.policy) && a.policy.enabled && Follows(a, d, b)
    ensures !Exceeds(b, res)
  {
    hide TargetFor, Quantize, HeadroomFor, GatesOpen, Recedes, IsDecision;
    DecisionFollowsRule(a, d, res);
    if res in d.targets {
      MergedLimit(a, d, res);
      NoGrowAbove(res, d.targets[res], TargetOf(a, res), CurrentUsage, a.policy);
    } else {
      UntouchedAsks(a, d, b, res);
    }
  }

  lemma NextIsNoGrow(a: Input, d: Decision, b: Input, d': Decision, c: Input)
    requires ValidPolicy(a.policy) && a.policy.enabled && Follows(a, d, b) && Follows(b, d', c)
    ensures d'.direction != Grow
  {
    hide TargetFor, Quantize, HeadroomFor, GatesOpen, IsDecision, Capped, BelowBand, AboveBand;
    DecisionFollowsRule(b, d', "");
    if d'.direction == Grow {
      var r :| Exceeds(b, r);
      NotExceeding(a, d, b, r);
    }
  }

  /** The limit stands where a grow has put it. */
  predicate AtTarget(b: Input, res: Resource)
  {
    && res in b.hard && res in b.used && TargetOf(b, res) >= 0
    && b.hard[res] == Quantize(res, TargetOf(b, res))
  }

  lemma GrowReachesTarget(a: Input, d: Decision, b: Input, res: Resource)
    requires ValidPolicy(a.policy) && Follows(a, d, b) && d.direction == Grow && res in d.targets
    ensures AtTarget(b, res)
  {
    hide TargetFor, Quantize, HeadroomFor, IsDecision;
    MergedLimit(a, d, res);
    QuantizeIsLeast(res, TargetOf(a, res), 0);
  }

  lemma AtTargetIsLeft(a: Input, d: Decision, b: Input, res: Resource)
    requires ValidPolicy(a.policy) && a.policy.enabled && Follows(a, d, b) && AtTarget(a, res)
    ensures res !in d.targets
  {
    hide TargetFor, Quantize, HeadroomFor, GatesOpen, IsDecision, Capped, BelowBand, AboveBand;
    DecisionFollowsRule(a, d, res);
    QuantizeIsLeast(res, TargetOf(a, res), 0);
    NoGrowAbove(res, a.hard[res], TargetOf(a, res), CurrentUsage, a.policy);
    GrownStays(res, a.hard[res], TargetOf(a, res), CurrentUsage, a.policy);
  }

  lemma AtTargetStays(a: Input, d: Decision, b: Input, res: Resource)
    requires Follows(a, d, b) && AtTarget(a, res) && res !in d.targets
    ensures AtTarget(b, res)
  {
    hide TargetFor, Quantize, HeadroomFor, IsDecision;
  }

  /* ---------- decisions in a row ---------- */

  /** Each decision is merged before the next is made. */
  ghost predicate Chain(inputs: seq<Input>, decisions: seq<Decision>)
  {
    && |inputs| == |decisions| + 1
    && forall i :: 0 <= i < |decisions| ==> Follows(inputs[i], decisions[i], inputs[i + 1])
  }

  /** What the first decision grew stands at its target for ever, and no later decision is a grow. */
  lemma {:induction false} GrownForGood(inputs: seq<Input>, decisions: seq<Decision>, j: nat, res: Resource)
    requires Chain(inputs, decisions) && ValidPolicy(inputs[0].policy) && inputs[0].policy.enabled
    requires 1 <= j <= |decisions|
    ensures inputs[j].policy == inputs[0].policy
    ensures decisions[0].direction == Grow && res in decisions[0].targets ==> AtTarget(inputs[j], res)
  {
    hide Follows, AtTarget;
    assert Follows(inputs[j - 1], decisions[j - 1], inputs[j]);
    SamePolicy(inputs[j - 1], decisions[j - 1], inputs[j]);
    if j > 1 { GrownForGood(inputs, decisions, j - 1, res); }
    if decisions[0].direction == Grow && res in decisions[0].targets {
      if j == 1 {
        GrowReachesTarget(inputs[0], decisions[0], inputs[1], res);
      } else {
        AtTargetIsLeft(inputs[j - 1], decisions[j - 1], inputs[j], res);
        AtTargetStays(inputs[j - 1], decisions[j - 1], inputs[j], res);
      }
    }
  }

  /** With constant demand, no decision but the first is a grow, and what a grow changed is in no later
      decision's targets. */
  lemma NeverFlaps(inputs: seq<Input>, decisions: seq<Decision>, j: nat, res: Resource)
    requires Chain(inputs, decisions) && ValidPolicy(inputs[0].policy) && inputs[0].policy.enabled
    requires 1 <= j < |decisions|
    ensures decisions[j].direction != Grow
    ensures decisions[0].direction == Grow && res in decisions[0].targets ==> res !in decisions[j].targets
  {
    hide Follows, AtTarget;
    GrownForGood(inputs, decisions, j, res);
    GrownForGood(inputs, decisions, j + 1, res);
    if j > 1 { GrownForGood(inputs, decisions, j - 1, res); }
    assert Follows(inputs[j - 1], decisions[j - 1], inputs[j]) && Follows(inputs[j], decisions[j], inputs[j + 1]);
    NextIsNoGrow(inputs[j - 1], decisions[j - 1], inputs[j], decisions[j], inputs[j + 1]);
    if decisions[0].direction == Grow && res in decisions[0].targets {
      AtTargetIsLeft(inputs[j], decisions[j], inputs[j + 1], res);
    }
  }

  /* ---------- termination ---------- */

  /** The whole units in the limits of some keys; a negative limit, which is never looked at, has none. */
  ghost function Total(hard: map<Resource, int>, keys: set<Resource>): nat
    requires keys <= hard.Keys
  {
    if keys == {} then 0
    else
      var k := Pick(keys);
      var units := UnitsIn(k, hard[k]);
      (if units > 0 then units else 0) + Total(hard, keys - {k})
  }

  lemma {:induction false} TotalFalls(a: map<Resource, int>, b: map<Resource, int>, keys: set<Resource>)
    requires keys <= a.Keys && keys <= b.Keys
    requires forall k :: k in keys ==> 0 <= UnitsIn(k, b[k]) < UnitsIn(k, a[k]) || b[k] == a[k]
    ensures Total(b, keys) <= Total(a, keys)
    ensures (exists k :: k in keys && 0 <= UnitsIn(k, b[k]) < UnitsIn(k, a[k])) ==> Total(b, keys) < Total(a, keys)
  {
    hide UnitsIn;
    if keys != {} { TotalFalls(a, b, keys - {Pick(keys)}); }
  }

  lemma ShrinkLowersTotal(a: Input, d: Decision, b: Input)
    requires ValidPolicy(a.policy) && Follows(a, d, b) && d.direction == Shrink
    ensures a.hard.Keys == b.hard.Keys && Total(b.hard, b.hard.Keys) < Total(a.hard, a.hard.Keys)
  {
    hide TargetFor, Quantize, HeadroomFor, Comparable, Gates, IsReason, RawTargetsOf, VerdictFor, UnitsIn;
    assert d.targets.Keys == Shrinking(a) != {};
    hide IsDecision, Shrinking, TargetsOf;
    forall res | res in d.targets
      ensures res in a.hard && 0 <= UnitsIn(res, b.hard[res]) < UnitsIn(res, a.hard[res])
    {
      MergedLimit(a, d, res);
    }
    var res :| res in d.targets;
    TotalFalls(a.hard, b.hard, a.hard.Keys);
  }

  /** With constant demand, shrinks in a row stop: there are no more of them than whole units to give up. */
  lemma {:induction false} ShrinksAreFinite(inputs: seq<Input>, decisions: seq<Decision>)
    requires Chain(inputs, decisions) && ValidPolicy(inputs[0].policy)
    requires forall i :: 0 <= i < |decisions| ==> decisions[i].direction == Shrink
    ensures ValidPolicy(inputs[|decisions|].policy)
    ensures Total(inputs[|decisions|].hard, inputs[|decisions|].hard.Keys) + |decisions|
              <= Total(inputs[0].hard, inputs[0].hard.Keys)
  {
    hide Follows, Total;
    var n := |decisions| - 1;
    if n >= 0 {
      ShrinksAreFinite(inputs[..n + 1], decisions[..n]);
      assert Follows(inputs[n], decisions[n], inputs[n + 1]);
      ShrinkLowersTotal(inputs[n], decisions[n], inputs[n + 1]);
      SamePolicy(inputs[n], decisions[n], inputs[n + 1]);
    }
  }

  lemma SamePolicy(a: Input, d: Decision, b: Input)
    requires Follows(a, d, b)
    ensures b.policy == a.policy
  {
  }
}
