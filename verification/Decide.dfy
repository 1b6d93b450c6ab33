/** The effective policy and its lookups (internal/sizing/policy.go). Fractions are exact. */
module Policies {
  import opened Options
  import opened Strings
  import opened Quantities

  datatype Policy = Policy(
    headroom: map<string, real>,
    minimum: map<string, int>,
    tolerance: real,
    windowDays: int,
    maxShrinkStep: real,
    shrinkCooldown: int,
    shrinkPRTTL: int,
    growCooldown: int,
    enabled: bool,
    shrinkEnabled: bool)

  /** The ranges that parsing guarantees. */
  predicate ValidPolicy(p: Policy)
  {
    && (forall k :: k in p.headroom ==> p.headroom[k] >= 0.0)
    && 0.0 <= p.tolerance < 1.0
    && p.windowDays > 0
    && 0.0 < p.maxShrinkStep < 1.0
    && p.shrinkCooldown >= 0 && p.shrinkPRTTL > 0 && p.growCooldown >= 0
  }

  /** The built-in defaults. */
  const DEFAULT_POLICY :=
    Policy(map["default" := 0.25], map[], 0.15, 14, 0.25, 7 * 86400, 7 * 86400, 3600, true, true)

  function FamilyOf(res: string): Option<string>
  {
    var name := MeasureOf(res);
    if Contains(name, "cpu") then Some("cpu")
    else if Contains(name, "memory") then Some("memory")
    else if Contains(name, "storage") then Some("storage")
    else None
  }

  function HeadroomFor(p: Policy, res: string): (h: real)
    ensures ValidPolicy(p) ==> h >= 0.0
  {
    var family := FamilyOf(res);
    if res in p.headroom then p.headroom[res]
    else if family.Some? && family.value in p.headroom then p.headroom[family.value]
    else if "default" in p.headroom then p.headroom["default"]
    else 0.25
  }

  function MinFor(p: Policy, res: string): Option<int>
  {
    var family := FamilyOf(res);
    if res in p.minimum then Some(p.minimum[res])
    else if family.Some? && family.value in p.minimum then Some(p.minimum[family.value])
    else None
  }
}

/** The sizing decision, as a rule on values (internal/sizing/decide.go). */
module DecisionRule {
  import opened Options
  import opened Strings
  import opened Clock
  import opened Quantities
  import opened Policies
  import opened WindowModel
  import opened SortedLines

  datatype Direction = NoChange | Grow | Shrink

  datatype Gate = GateEnabled | GateWindow | GateRecentGrow | GateCooldown

  datatype Driver = CurrentUsage | WindowPeak(days: int) | PendingShortage | UsageFloor | ConfiguredMinimum | StepCap

  datatype Input = Input(
    now: int,
    hard: map<Resource, int>,
    used: map<Resource, int>,
    deficits: map<Resource, int>,
    window: Snapshot,
    policy: Policy,
    lastGrow: Option<int>,
    lastShrink: Option<int>)

  datatype Decision = Decision(
    direction: Direction,
    targets: map<Resource, int>,
    shrinkPreview: map<Resource, int>,
    rawTargets: map<Resource, int>,
    reason: seq<string>,
    blockedBy: seq<Gate>)

  /** int64(float64(milli) * factor), in exact arithmetic. */
  function Scaled(milli: int, factor: real): int
  {
    (milli as real * factor).Floor
  }

  function TargetFor(inp: Input, res: Resource, used: int, headroom: real): (int, Driver)
  {
    var p := PeakOf(inp.window.days, res, Day(inp.now), inp.policy.windowDays);
    var (peak1, driver1) :=
      if p.Some? && p.value > used then (p.value, WindowPeak(inp.policy.windowDays)) else (used, CurrentUsage);
    var (peak2, driver2) :=
      if res in inp.deficits && inp.deficits[res] > 0 && used + inp.deficits[res] > peak1
      then (used + inp.deficits[res], PendingShortage) else (peak1, driver1);
    var target := Scaled(peak2, 1.0 + headroom);
    var floor := Scaled(used, 1.0 + headroom);
    var (target3, driver3) := if floor > target then (floor, UsageFloor) else (target, driver2);
    var min := MinFor(inp.policy, res);
    if min.Some? && min.value > target3 then (min.value, ConfiguredMinimum) else (target3, driver3)
  }

  /** A key whose limit and usage can be compared; a limit of zero is skipped. */
  predicate Comparable(inp: Input, res: Resource)
  {
    && res in inp.hard && Measurable(inp.hard[res]) && inp.hard[res] != 0
    && res in inp.used && Measurable(inp.used[res])
  }

  function RawTarget(inp: Input, res: Resource): int
    requires Comparable(inp, res)
  {
    TargetFor(inp, res, inp.used[res], HeadroomFor(inp.policy, res)).0
  }

  predicate AboveBand(target: int, hard: int, tolerance: real)
  {
    target as real > hard as real * (1.0 + tolerance)
  }

  predicate BelowBand(target: int, hard: int, tolerance: real)
  {
    (target as real) < (hard as real) * (1.0 - tolerance)
  }

  function Capped(hard: int, target: int, step: real): int
  {
    var cap := Scaled(hard, 1.0 - step);
    if cap > target then cap else target
  }

  /** What one resource asks for: the new value and what drove it. */
  datatype Verdict = Stay | Raise(qty: int, driver: Driver) | Lower(qty: int, driver: Driver)

  function VerdictOn(res: Resource, hard: int, target: int, driver: Driver, p: Policy): Verdict
  {
    if AboveBand(target, hard, p.tolerance) then
      var qty := Quantize(res, target);
      if qty <= hard then Stay else Raise(qty, driver)
    else if BelowBand(target, hard, p.tolerance) then
      var qty := Quantize(res, Capped(hard, target, p.maxShrinkStep));
      if qty >= hard then Stay
      else Lower(qty, if Scaled(hard, 1.0 - p.maxShrinkStep) > target then StepCap else driver)
    else Stay
  }

  function VerdictFor(inp: Input, res: Resource): Verdict
  {
    if !Comparable(inp, res) then Stay else
    var (target, driver) := TargetFor(inp, res, inp.used[res], HeadroomFor(inp.policy, res));
    VerdictOn(res, inp.hard[res], target, driver, inp.policy)
  }

  function Growing(inp: Input): set<Resource>
  {
    set res | res in inp.hard && VerdictFor(inp, res).Raise?
  }

  function Shrinking(inp: Input): set<Resource>
  {
    set res | res in inp.hard && VerdictFor(inp, res).Lower?
  }

  function TargetsOf(inp: Input, keys: set<Resource>): (m: map<Resource, int>)
    ensures m.Keys == keys
  {
    map res | res in keys :: if VerdictFor(inp, res).Stay? then 0 else VerdictFor(inp, res).qty
  }

  function RawTargetsOf(inp: Input, keys: set<Resource>): map<Resource, int>
  {
    map res | res in keys && Comparable(inp, res) :: Quantize(res, RawTarget(inp, res))
  }

  function Gates(inp: Input, targets: set<Resource>): seq<Gate>
  {
    var p := inp.policy;
    (if p.shrinkEnabled then [] else [GateEnabled])
    + (if forall res :: res in targets ==> Complete(inp.window.days, res, Day(inp.now), p.windowDays)
       then [] else [GateWindow])
    + (if inp.lastGrow.Some? && inp.now - inp.lastGrow.value < p.windowDays * 86400 then [GateRecentGrow] else [])
    + (if inp.lastShrink.Some? && inp.now - inp.lastShrink.value < p.shrinkCooldown then [GateCooldown] else [])
  }

  function DriverText(d: Driver): string
  {
    match d
    case CurrentUsage => "current usage"
    case WindowPeak(days) => Decimal(days) + "-day peak"
    case PendingShortage => "pending shortage"
    case UsageFloor => "current usage floor"
    case ConfiguredMinimum => "configured minimum"
    case StepCap => "step cap"
  }

  /** How a Quantity is printed is not part of this model: amounts are written in milli-units. */
  function Describe(inp: Input, res: Resource): string
  {
    var v := VerdictFor(inp, res);
    if v.Stay? || res !in inp.hard then ""
    else "- `" + res + "`: " + Decimal(inp.hard[res]) + "m -> " + Decimal(v.qty) + "m (driven by "
         + DriverText(v.driver) + ")"
  }

  ghost function Lines(inp: Input, keys: set<Resource>): multiset<string>
  {
    LinesOf(keys, res => Describe(inp, res))
  }

  /** The reason: the lines of the keys, sorted. */
  ghost predicate IsReason(reason: seq<string>, inp: Input, keys: set<Resource>)
  {
    Sorted(reason) && multiset(reason) == Lines(inp, keys)
  }

  /** The rule: growth anywhere wins, and a shrink needs every gate open. */
  ghost predicate IsDecision(d: Decision, inp: Input)
  {
    if !inp.policy.enabled then d == Decision(NoChange, map[], map[], map[], [], [])
    else
      && d.rawTargets == RawTargetsOf(inp, inp.hard.Keys)
      && (if Growing(inp) != {} then
            && d.direction == Grow && d.targets == TargetsOf(inp, Growing(inp))
            && d.shrinkPreview == map[] && d.blockedBy == [] && IsReason(d.reason, inp, Growing(inp))
          else if Shrinking(inp) == {} then
            d.direction == NoChange && d.targets == d.shrinkPreview == map[] && d.blockedBy == [] && d.reason == []
          else if Gates(inp, Shrinking(inp)) != [] then
            && d.direction == NoChange && d.targets == map[]
            && d.shrinkPreview == TargetsOf(inp, Shrinking(inp))
            && d.blockedBy == Gates(inp, Shrinking(inp)) && d.reason == []
          else
            && d.direction == Shrink && d.targets == d.shrinkPreview == TargetsOf(inp, Shrinking(inp))
            && d.blockedBy == [] && IsReason(d.reason, inp, Shrinking(inp)))
  }

  /** The decision does not depend on the order in which the maps are walked. */
  lemma DecisionUnique(a: Decision, b: Decision, inp: Input)
    requires IsDecision(a, inp) && IsDecision(b, inp)
    ensures a == b
  {
    if a.direction != NoChange {
      SortedUnique(a.reason, b.reason);
    }
  }
}

module Deciding {
  import opened Options
  import opened Clock
  import opened Quantities
  import opened Policies
  import opened WindowModel
  import opened SortedLines
  import opened DecisionRule

  method ShrinkGates(inp: Input, targets: map<Resource, int>) returns (blocked: seq<Gate>)
    ensures blocked == Gates(inp, targets.Keys)
  {
    blocked := [];
    if !inp.policy.shrinkEnabled {
      blocked := blocked + [GateEnabled];
    }
    var before := blocked;
    var todo := targets.Keys;
    while todo != {}
      invariant todo <= targets.Keys && blocked == before
      invariant forall res :: res in targets && res !in todo ==>
        Complete(inp.window.days, res, Day(inp.now), inp.policy.windowDays)
    {
      var res :| res in todo;
      todo := todo - {res};
      if !Complete(inp.window.days, res, Day(inp.now), inp.policy.windowDays) {
        blocked := blocked + [GateWindow];
        break;
      }
    }
    if inp.lastGrow.Some? && inp.now - inp.lastGrow.value < inp.policy.windowDays * 86400 {
      blocked := blocked + [GateRecentGrow];
    }
    if inp.lastShrink.Some? && inp.now - inp.lastShrink.value < inp.policy.shrinkCooldown {
      blocked := blocked + [GateCooldown];
    }
  }

  /** The body of the loop: what one resource asks for, and its target before cap and band. */
  method Evaluate(inp: Input, res: Resource) returns (raw: Option<int>, v: Verdict)
    requires res in inp.hard
    ensures v == VerdictFor(inp, res)
    ensures raw == if Comparable(inp, res) then Some(Quantize(res, RawTarget(inp, res))) else None
  {
    var hard := inp.hard[res];
    if !Measurable(hard) || hard == 0 || res !in inp.used || !Measurable(inp.used[res]) {
      return None, Stay;
    }
    var (target, driver) := TargetFor(inp, res, inp.used[res], HeadroomFor(inp.policy, res));
    raw, v := Some(Quantize(res, target)), Stay;
    if AboveBand(target, hard, inp.policy.tolerance) {
      var qty := Quantize(res, target);
      if qty > hard {
        v := Raise(qty, driver);
      }
    } else if BelowBand(target, hard, inp.policy.tolerance) {
      var cap := Scaled(hard, 1.0 - inp.policy.maxShrinkStep);
      if cap > target {
        target, driver := cap, StepCap;
      }
      var qty := Quantize(res, target);
      if qty < hard {
        v := Lower(qty, driver);
      }
    }
  }

  /** Walking past a key adds it to its group, or leaves the group alone. */
  lemma Walked(inp: Input, todo: set<Resource>, res: Resource, group: set<Resource>)
    requires res in todo
    ensures var done, next := group - todo, group - (todo - {res});
            if res !in group then next == done
            else
              && TargetsOf(inp, next) == TargetsOf(inp, done)[res := TargetsOf(inp, group)[res]]
              && Lines(inp, next) == Lines(inp, done) + multiset{Describe(inp, res)}
  {
    hide VerdictFor, Describe;
    var done, next := group - todo, group - (todo - {res});
    if res in group {
      assert next == done + {res};
      LinesOfInsert(done, r => Describe(inp, r), res);
    } else {
      assert next == done;
    }
  }

  lemma GroupsOf(inp: Input, res: Resource)
    requires res in inp.hard
    ensures res in Growing(inp) <==> VerdictFor(inp, res).Raise?
    ensures res in Shrinking(inp) <==> VerdictFor(inp, res).Lower?
    ensures VerdictFor(inp, res).Raise? ==> TargetsOf(inp, Growing(inp))[res] == VerdictFor(inp, res).qty
    ensures VerdictFor(inp, res).Lower? ==> TargetsOf(inp, Shrinking(inp))[res] == VerdictFor(inp, res).qty
  {
    hide VerdictFor;
  }

  lemma RawWalked(inp: Input, todo: set<Resource>, res: Resource)
    requires res in todo && todo <= inp.hard.Keys
    ensures var done, next := inp.hard.Keys - todo, inp.hard.Keys - (todo - {res});
            RawTargetsOf(inp, next) == if Comparable(inp, res)
                                       then RawTargetsOf(inp, done)[res := Quantize(res, RawTarget(inp, res))]
                                       else RawTargetsOf(inp, done)
  {
    hide RawTarget, Quantize;
  }

  lemma NothingWalked(inp: Input)
    ensures Growing(inp) - inp.hard.Keys == {} == Shrinking(inp) - inp.hard.Keys
    ensures TargetsOf(inp, {}) == RawTargetsOf(inp, {}) == map[] && Lines(inp, {}) == multiset{}
    ensures inp.hard.Keys - inp.hard.Keys == {}
  {
  }

  /** The loop over the limits of the quota, in any order. */
  method Walk(inp: Input)
    returns (grow: map<Resource, int>, shrink: map<Resource, int>, raw: map<Resource, int>,
             growReasons: seq<string>, shrinkReasons: seq<string>)
    ensures grow == TargetsOf(inp, Growing(inp)) && shrink == TargetsOf(inp, Shrinking(inp))
    ensures raw == RawTargetsOf(inp, inp.hard.Keys)
    ensures multiset(growReasons) == Lines(inp, Growing(inp))
    ensures multiset(shrinkReasons) == Lines(inp, Shrinking(inp))
  {
    hide VerdictFor, RawTarget, Describe, TargetsOf, RawTargetsOf, Growing, Shrinking, Comparable, Quantize;
    grow, shrink, raw, growReasons, shrinkReasons := map[], map[], map[], [], [];
    var todo := inp.hard.Keys;
    NothingWalked(inp);
    while todo != {}
      invariant todo <= inp.hard.Keys
      invariant grow == TargetsOf(inp, Growing(inp) - todo)
      invariant shrink == TargetsOf(inp, Shrinking(inp) - todo)
      invariant raw == RawTargetsOf(inp, inp.hard.Keys - todo)
      invariant multiset(growReasons) == Lines(inp, Growing(inp) - todo)
      invariant multiset(shrinkReasons) == Lines(inp, Shrinking(inp) - todo)
    {
      var res :| res in todo;
      GroupsOf(inp, res);
      RawWalked(inp, todo, res);
      Walked(inp, todo, res, Growing(inp));
      Walked(inp, todo, res, Shrinking(inp));
      todo := todo - {res};
      var target, v := Evaluate(inp, res);
      if target.Some? {
        raw := raw[res := target.value];
      }
      match v {
        case Raise(qty, _) =>
          grow, growReasons := grow[res := qty], growReasons + [Describe(inp, res)];
        case Lower(qty, _) =>
          shrink, shrinkReasons := shrink[res := qty], shrinkReasons + [Describe(inp, res)];
        case Stay =>
      }
    }
    assert Growing(inp) - todo == Growing(inp) && Shrinking(inp) - todo == Shrinking(inp);
    assert inp.hard.Keys - todo == inp.hard.Keys;
  }

  lemma SortedReason(lines: seq<string>, inp: Input, keys: set<Resource>)
    requires multiset(lines) == Lines(inp, keys)
    ensures IsReason(Sort(lines), inp, keys)
  {
    hide Lines;
    SortKeeps(lines);
  }

  /** Decide: the walk, then growth first, then the gates. */
  method Decide(inp: Input) returns (d: Decision)
    ensures IsDecision(d, inp)
  {
    hide VerdictFor, RawTarget, Describe, Lines, Growing, Shrinking, Gates, TargetsOf, RawTargetsOf, IsReason, Sort;
    if !inp.policy.enabled {
      return Decision(NoChange, map[], map[], map[], [], []);
    }
    var grow, shrink, raw, growReasons, shrinkReasons := Walk(inp);
    assert grow.Keys == Growing(inp) && shrink.Keys == Shrinking(inp);
    if grow != map[] {
      SortedReason(growReasons, inp, Growing(inp));
      d := Decision(Grow, grow, map[], raw, Sort(growReasons), []);
    } else if shrink == map[] {
      d := Decision(NoChange, map[], map[], raw, [], []);
    } else {
      var blocked := ShrinkGates(inp, shrink);
      if blocked != [] {
        d := Decision(NoChange, map[], shrink, raw, [], blocked);
      } else {
        SortedReason(shrinkReasons, inp, Shrinking(inp));
        d := Decision(Shrink, shrink, shrink, raw, Sort(shrinkReasons), []);
      }
    }
  }
}
