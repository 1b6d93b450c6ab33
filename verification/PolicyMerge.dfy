/** Merging namespace annotations onto the global policy (ParsePolicy in internal/sizing/policy.go).
    Go walks the annotations in any order; an order is a sequence of their names here. */
module PolicyMerge {
  import opened Options
  import opened Strings
  import opened Policies

  const PREFIX := "resizer.io/"

  /** The text of an annotation, and what Go's parsers make of it: as a float, as a float without a
      trailing percent sign, as an integer and as a quantity. */
  datatype Value = Value(
    text: string,
    number: Option<real>,
    trimmed: Option<real>,
    integer: Option<int>,
    quantity: Option<int>)

  datatype Kind = Headroom | Increment | Threshold | Scalar

  /** A headroom for a resource, in one of its three spellings. */
  datatype Source = Source(kind: Kind, res: string)

  datatype Warning = Rejected(name: string) | Deprecated(source: Source)

  /** What the loop over the annotations collects. */
  datatype Acc = Acc(given: map<Source, real>, policy: Policy, warnings: multiset<Warning>)

  function Name(key: string): string
    requires HasPrefix(key, PREFIX)
  {
    key[|PREFIX|..]
  }

  function KindOf(name: string): Kind
  {
    if HasSuffix(name, "headroom") then Headroom
    else if HasSuffix(name, "increment") then Increment
    else if HasSuffix(name, "threshold") then Threshold
    else Scalar
  }

  function TrimSuffix(s: string, suffix: string): string
  {
    if HasSuffix(s, suffix) then s[..|s| - |suffix|] else s
  }

  function SuffixKey(name: string): string
  {
    var suffix := match KindOf(name)
      case Headroom => "headroom"
      case Increment => "increment"
      case Threshold => "threshold"
      case Scalar => "";
    var trimmed := TrimSuffix(TrimSuffix(name, suffix), "-");
    if trimmed == "" then "default" else trimmed
  }

  function Fraction(v: Value): Option<real>
  {
    if HasSuffix(v.text, "%") then
      if v.trimmed.Some? then Some(v.trimmed.value / 100.0) else None
    else v.number
  }

  /** The headroom an annotation gives, if it is valid. */
  function Given(name: string, v: Value): Option<real>
  {
    match KindOf(name)
    case Threshold =>
      if v.number.Some? && 0.0 < v.number.value <= 100.0 then Some(100.0 / v.number.value - 1.0) else None
    case Scalar => None
    case _ => if Fraction(v).Some? && Fraction(v).value >= 0.0 then Fraction(v) else None
  }

  /* ---------- one annotation ---------- */

  function Lower(c: char): char
  {
    if 'A' <= c <= 'Z' then c - 'A' + 'a' else c
  }

  /** EqualFold, on ASCII. */
  predicate EqualFold(a: string, b: string)
  {
    |a| == |b| && forall i :: 0 <= i < |a| ==> Lower(a[i]) == Lower(b[i])
  }

  predicate FractionIn(v: Value, low: bool)
  {
    Fraction(v).Some? && Fraction(v).value < 1.0 && (Fraction(v).value > 0.0 || (low && Fraction(v).value == 0.0))
  }

  predicate IntegerFrom(v: Value, least: int)
  {
    v.integer.Some? && v.integer.value >= least
  }

  /** The field that a scalar annotation sets. */
  datatype Setting = SetMinimum(res: string) | SetTolerance | SetMaxShrinkStep | SetWindowDays | SetShrinkCooldown
    | SetShrinkPRTTL | SetGrowCooldown | SetEnabled | SetShrinkEnabled | Ignored

  function SettingOf(name: string): Setting
  {
    if HasSuffix(name, "-min") then SetMinimum(TrimSuffix(name, "-min"))
    else if name == "tolerance" then SetTolerance
    else if name == "max-shrink-step" then SetMaxShrinkStep
    else if name == "window-days" then SetWindowDays
    else if name == "shrink-cooldown-days" then SetShrinkCooldown
    else if name == "shrink-pr-ttl-days" then SetShrinkPRTTL
    else if name == "cooldown-minutes" then SetGrowCooldown
    else if name == "enabled" then SetEnabled
    else if name == "shrink-enabled" then SetShrinkEnabled
    else Ignored
  }

  /** A value that parseScalar accepts without a warning. */
  predicate ScalarValid(name: string, v: Value)
  {
    match SettingOf(name)
    case SetMinimum(_) => v.quantity.Some?
    case SetTolerance => FractionIn(v, true)
    case SetMaxShrinkStep => FractionIn(v, false)
    case SetWindowDays => IntegerFrom(v, 1)
    case SetShrinkCooldown => IntegerFrom(v, 0)
    case SetShrinkPRTTL => IntegerFrom(v, 1)
    case SetGrowCooldown => IntegerFrom(v, 0)
    case SetShrinkEnabled => EqualFold(v.text, "true") || EqualFold(v.text, "false")
    case _ => true
  }

  /** parseScalar; only the opt-out changes something on an invalid value. */
  function ApplyScalar(name: string, v: Value, p: Policy): Policy
  {
    if SettingOf(name) == SetShrinkEnabled then
      if EqualFold(v.text, "true") then p else p.(shrinkEnabled := false)
    else if !ScalarValid(name, v) then p
    else
      match SettingOf(name)
      case SetMinimum(res) => p.(minimum := p.minimum[res := v.quantity.value])
      case SetTolerance => p.(tolerance := Fraction(v).value)
      case SetMaxShrinkStep => p.(maxShrinkStep := Fraction(v).value)
      case SetWindowDays => p.(windowDays := v.integer.value)
      case SetShrinkCooldown => p.(shrinkCooldown := v.integer.value * 86400)
      case SetShrinkPRTTL => p.(shrinkPRTTL := v.integer.value * 86400)
      case SetGrowCooldown => p.(growCooldown := v.integer.value * 60)
      case SetEnabled => p.(enabled := v.text != "false")
      case _ => p
  }

  predicate Rejects(name: string, v: Value)
  {
    if KindOf(name) == Scalar then !ScalarValid(name, v) else Given(name, v).None?
  }

  function Step(acc: Acc, name: string, v: Value): Acc
  {
    var warned := acc.(warnings := acc.warnings + if Rejects(name, v) then multiset{Rejected(name)} else multiset{});
    if KindOf(name) == Scalar then warned.(policy := ApplyScalar(name, v, acc.policy))
    else if Given(name, v).Some? then
      warned.(given := acc.given[Source(KindOf(name), SuffixKey(name)) := Given(name, v).value])
    else warned
  }

  /** The annotations of this controller, by the rest of their names. */
  function Named(annotations: map<string, Value>): map<string, Value>
  {
    map name | name in (set key | key in annotations && HasPrefix(key, PREFIX) :: Name(key))
               && PREFIX + name in annotations :: annotations[PREFIX + name]
  }

  function Walk(order: seq<string>, named: map<string, Value>, base: Policy): Acc
    requires AllIn(order, named)
  {
    if order == [] then Acc(map[], base, multiset{})
    else
      var name := order[|order| - 1];
      Step(Walk(order[..|order| - 1], named, base), name, named[name])
  }

  /* ---------- precedence ---------- */

  /** Headroom wins over increment, and increment over threshold. */
  function Winner(given: map<Source, real>, res: string): Option<real>
  {
    if Source(Headroom, res) in given then Some(given[Source(Headroom, res)])
    else if Source(Increment, res) in given then Some(given[Source(Increment, res)])
    else if Source(Threshold, res) in given then Some(given[Source(Threshold, res)])
    else None
  }

  function HeadroomAfter(given: map<Source, real>, base: map<string, real>): map<string, real>
  {
    map res | res in base.Keys + (set s | s in given :: s.res) && (Winner(given, res).Some? || res in base) ::
      if Winner(given, res).Some? then Winner(given, res).value else base[res]
  }

  predicate Overridden(given: map<Source, real>, s: Source)
  {
    || s.kind == Headroom
    || Source(Headroom, s.res) in given
    || (s.kind == Threshold && Source(Increment, s.res) in given)
  }

  function Deprecations(given: map<Source, real>): set<Warning>
  {
    set s | s in given && !Overridden(given, s) :: Deprecated(s)
  }

  function Merged(order: seq<string>, named: map<string, Value>, base: Policy): (Policy, multiset<Warning>)
    requires AllIn(order, named)
  {
    var acc := Walk(order, named, base);
    (acc.policy.(headroom := HeadroomAfter(acc.given, base.headroom)),
     acc.warnings + multiset(Deprecations(acc.given)))
  }

  predicate Distinct(order: seq<string>)
  {
    forall i, j :: 0 <= i < j < |order| ==> order[i] != order[j]
  }

  predicate AllIn(order: seq<string>, named: map<string, Value>)
  {
    forall i :: 0 <= i < |order| ==> order[i] in named
  }

  /** Every annotation once. */
  predicate IsOrder(order: seq<string>, named: map<string, Value>)
  {
    AllIn(order, named) && Distinct(order) && forall name :: name in named ==> name in order
  }

  /* ---------- the scalar settings ---------- */

  predicate Effective(names: set<string>, named: map<string, Value>, name: string)
  {
    name in names && name in named && ScalarValid(name, named[name])
  }

  function MinimumAt(names: set<string>, named: map<string, Value>, base: map<string, int>, res: string): Option<int>
  {
    if Effective(names, named, res + "-min") && named[res + "-min"].quantity.Some?
    then Some(named[res + "-min"].quantity.value)
    else if res in base then Some(base[res]) else None
  }

  function MinimumOf(names: set<string>, named: map<string, Value>, base: map<string, int>): map<string, int>
  {
    map res | res in base.Keys + (set n | n in names :: TrimSuffix(n, "-min"))
              && MinimumAt(names, named, base, res).Some? :: MinimumAt(names, named, base, res).value
  }

  /** What a set of scalar annotations makes of a policy: each one sets its own field. */
  function ScalarsOf(names: set<string>, named: map<string, Value>, p: Policy): Policy
    requires names <= named.Keys
  {
    Policy(
      p.headroom,
      MinimumOf(names, named, p.minimum),
      if Effective(names, named, "tolerance") && Fraction(named["tolerance"]).Some?
      then Fraction(named["tolerance"]).value else p.tolerance,
      if Effective(names, named, "window-days") && named["window-days"].integer.Some?
      then named["window-days"].integer.value else p.windowDays,
      if Effective(names, named, "max-shrink-step") && Fraction(named["max-shrink-step"]).Some?
      then Fraction(named["max-shrink-step"]).value else p.maxShrinkStep,
      if Effective(names, named, "shrink-cooldown-days") && named["shrink-cooldown-days"].integer.Some?
      then named["shrink-cooldown-days"].integer.value * 86400 else p.shrinkCooldown,
      if Effective(names, named, "shrink-pr-ttl-days") && named["shrink-pr-ttl-days"].integer.Some?
      then named["shrink-pr-ttl-days"].integer.value * 86400 else p.shrinkPRTTL,
      if Effective(names, named, "cooldown-minutes") && named["cooldown-minutes"].integer.Some?
      then named["cooldown-minutes"].integer.value * 60 else p.growCooldown,
      if "enabled" in names then named["enabled"].text != "false" else p.enabled,
      p.shrinkEnabled && ("shrink-enabled" in names ==> EqualFold(named["shrink-enabled"].text, "true")))
  }

  lemma MinimumSuffix(res: string)
    ensures HasSuffix(res + "-min", "-min") && TrimSuffix(res + "-min", "-min") == res
  {
    assert (res + "-min")[|res|..] == "-min";
  }

  lemma SuffixEnds(name: string)
    ensures HasSuffix(name, "-min") ==> name == TrimSuffix(name, "-min") + "-min" && name[|name| - 1] == 'n'
  {
  }

  /** The last letter tells the fixed names from the minimums. */
  lemma NotMinimums(name: string)
    requires name in {"tolerance", "max-shrink-step", "window-days", "shrink-cooldown-days", "shrink-pr-ttl-days",
                      "cooldown-minutes", "enabled", "shrink-enabled"}
    ensures !HasSuffix(name, "-min")
  {
    SuffixEnds(name);
  }

  lemma MinimumIn(names: set<string>, named: map<string, Value>, base: map<string, int>, res: string)
    ensures res in MinimumOf(names, named, base) <==> MinimumAt(names, named, base, res).Some?
    ensures MinimumAt(names, named, base, res).Some? ==>
      MinimumOf(names, named, base)[res] == MinimumAt(names, named, base, res).value
  {
    MinimumSuffix(res);
    hide TrimSuffix, HasSuffix, ScalarValid;
    if Effective(names, named, res + "-min") { assert TrimSuffix(res + "-min", "-min") == res; }
  }

  lemma MinimumStep(names: set<string>, named: map<string, Value>, base: map<string, int>, name: string)
    requires name in named && name !in names
    ensures MinimumOf(names + {name}, named, base)
         == if HasSuffix(name, "-min") && named[name].quantity.Some?
            then MinimumOf(names, named, base)[TrimSuffix(name, "-min") := named[name].quantity.value]
            else MinimumOf(names, named, base)
  {
    hide MinimumOf, TrimSuffix, HasSuffix;
    SuffixEnds(name);
    forall res
      ensures MinimumAt(names + {name}, named, base, res)
           == if HasSuffix(name, "-min") && named[name].quantity.Some? && res == TrimSuffix(name, "-min")
              then named[name].quantity else MinimumAt(names, named, base, res)
    {
      MinimumSuffix(res);
    }
    hide MinimumAt;
    var a, b := MinimumOf(names, named, base), MinimumOf(names + {name}, named, base);
    forall res
      ensures res in a <==> MinimumAt(names, named, base, res).Some?
      ensures res in a ==> a[res] == MinimumAt(names, named, base, res).value
      ensures res in b <==> MinimumAt(names + {name}, named, base, res).Some?
      ensures res in b ==> b[res] == MinimumAt(names + {name}, named, base, res).value
    {
      MinimumIn(names, named, base, res);
      MinimumIn(names + {name}, named, base, res);
    }
  }

  lemma EffectiveStep(names: set<string>, named: map<string, Value>, name: string, n: string)
    requires name in named && name !in names
    ensures Effective(names + {name}, named, n)
         == if n == name then ScalarValid(n, named[n]) else Effective(names, named, n)
    ensures !Effective(names, named, name)
  {
    hide ScalarValid;
  }

  /** The names of the settings. */
  lemma SettingNames(name: string)
    ensures SettingOf(name) == SetTolerance <==> name == "tolerance"
    ensures SettingOf(name) == SetMaxShrinkStep <==> name == "max-shrink-step"
    ensures SettingOf(name) == SetWindowDays <==> name == "window-days"
    ensures SettingOf(name) == SetShrinkCooldown <==> name == "shrink-cooldown-days"
    ensures SettingOf(name) == SetShrinkPRTTL <==> name == "shrink-pr-ttl-days"
    ensures SettingOf(name) == SetGrowCooldown <==> name == "cooldown-minutes"
    ensures SettingOf(name) == SetEnabled <==> name == "enabled"
    ensures SettingOf(name) == SetShrinkEnabled <==> name == "shrink-enabled"
    ensures SettingOf(name).SetMinimum? <==> HasSuffix(name, "-min")
    ensures HasSuffix(name, "-min") ==> SettingOf(name) == SetMinimum(TrimSuffix(name, "-min"))
  {
    hide HasSuffix, TrimSuffix;
    NotMinimums("tolerance");
    NotMinimums("max-shrink-step");
    NotMinimums("window-days");
    NotMinimums("shrink-cooldown-days");
    NotMinimums("shrink-pr-ttl-days");
    NotMinimums("cooldown-minutes");
    NotMinimums("enabled");
    NotMinimums("shrink-enabled");
  }

  lemma ValidMeans(name: string, v: Value)
    ensures var valid, setting := ScalarValid(name, v), SettingOf(name);
            && (setting.SetMinimum? ==> (valid <==> v.quantity.Some?))
            && (valid && setting in {SetTolerance, SetMaxShrinkStep} ==> Fraction(v).Some?)
            && (valid && setting in {SetWindowDays, SetShrinkCooldown, SetShrinkPRTTL, SetGrowCooldown} ==>
                  v.integer.Some?)
            && (setting == SetEnabled ==> valid)
  {
  }

  /** A further scalar annotation sets its own field, whatever was set before. */
  lemma ScalarStep(names: set<string>, named: map<string, Value>, p: Policy, name: string)
    requires names <= named.Keys && name in named && name !in names
    ensures ScalarsOf(names + {name}, named, p) == ApplyScalar(name, named[name], ScalarsOf(names, named, p))
  {
    hide MinimumOf, Fraction, HasSuffix, EqualFold, TrimSuffix, Effective, SettingOf, ScalarValid;
    MinimumStep(names, named, p.minimum, name);
    SettingNames(name);
    ValidMeans(name, named[name]);
    EffectiveStep(names, named, name, "tolerance");
    EffectiveStep(names, named, name, "max-shrink-step");
    EffectiveStep(names, named, name, "window-days");
    EffectiveStep(names, named, name, "shrink-cooldown-days");
    EffectiveStep(names, named, name, "shrink-pr-ttl-days");
    EffectiveStep(names, named, name, "cooldown-minutes");
    EffectiveStep(names, named, name, "enabled");
    EffectiveStep(names, named, name, "shrink-enabled");
    var a, b := ScalarsOf(names + {name}, named, p), ApplyScalar(name, named[name], ScalarsOf(names, named, p));
    assert a.minimum == b.minimum;
    assert a.tolerance == b.tolerance && a.windowDays == b.windowDays && a.maxShrinkStep == b.maxShrinkStep;
    assert a.shrinkCooldown == b.shrinkCooldown && a.shrinkPRTTL == b.shrinkPRTTL && a.growCooldown == b.growCooldown;
    assert a.enabled == b.enabled && a.shrinkEnabled == b.shrinkEnabled;
  }

  /* ---------- any order ---------- */

  /** An annotation gives a source a value. */
  predicate Gives(named: map<string, Value>, name: string, s: Source, value: real)
  {
    && name in named && KindOf(name) != Scalar && s == Source(KindOf(name), SuffixKey(name))
    && Given(name, named[name]) == Some(value)
  }

  function ScalarsIn(order: seq<string>): set<string>
  {
    set name | name in order && KindOf(name) == Scalar
  }

  function RejectedIn(order: seq<string>, named: map<string, Value>): set<Warning>
  {
    set name | name in order && name in named && Rejects(name, named[name]) :: Rejected(name)
  }

  lemma {:induction false} WalkScalars(order: seq<string>, named: map<string, Value>, base: Policy)
    requires AllIn(order, named) && Distinct(order)
    ensures ScalarsIn(order) <= named.Keys
    ensures Walk(order, named, base).policy == ScalarsOf(ScalarsIn(order), named, base)
  {
    hide ScalarsOf, ApplyScalar, Rejects, Given;
    if order == [] {
      NoScalars(named, base);
      assert ScalarsIn(order) == {};
    } else {
      var front, name := order[..|order| - 1], order[|order| - 1];
      WalkScalars(front, named, base);
      assert order == front + [name] && name !in front;
      if KindOf(name) == Scalar {
        ScalarStep(ScalarsIn(front), named, base, name);
        assert ScalarsIn(order) == ScalarsIn(front) + {name};
      } else {
        assert ScalarsIn(order) == ScalarsIn(front);
      }
    }
  }

  lemma NoScalars(named: map<string, Value>, base: Policy)
    ensures ScalarsOf({}, named, base) == base
  {
    assert MinimumOf({}, named, base.minimum) == base.minimum;
  }

  lemma RejectedStep(front: seq<string>, named: map<string, Value>, name: string)
    requires name in named && name !in front
    ensures RejectedIn(front + [name], named)
         == RejectedIn(front, named) + if Rejects(name, named[name]) then {Rejected(name)} else {}
    ensures Rejected(name) !in RejectedIn(front, named)
  {
    hide Rejects;
    forall w | w in RejectedIn(front, named) ensures w in RejectedIn(front + [name], named) {
      assert w.name in front + [name];
    }
    assert name in front + [name];
  }

  lemma MultisetAdd(s: set<Warning>, w: Warning)
    requires w !in s
    ensures multiset(s + {w}) == multiset(s) + multiset{w} && multiset(s + {}) == multiset(s) + multiset{}
  {
    assert s + {} == s;
  }

  lemma {:induction false} WalkWarnings(order: seq<string>, named: map<string, Value>, base: Policy)
    requires AllIn(order, named) && Distinct(order)
    ensures Walk(order, named, base).warnings == multiset(RejectedIn(order, named))
  {
    hide Step, RejectedIn;
    if order == [] {
      NoneRejected(named);
    } else {
      var front, name := order[..|order| - 1], order[|order| - 1];
      WalkWarnings(front, named, base);
      assert order == front + [name] && name !in front;
      RejectedStep(front, named, name);
      StepWarns(Walk(front, named, base), name, named[name]);
      MultisetAdd(RejectedIn(front, named), Rejected(name));
    }
  }

  lemma StepWarns(acc: Acc, name: string, v: Value)
    ensures Step(acc, name, v).warnings
         == acc.warnings + if Rejects(name, v) then multiset{Rejected(name)} else multiset{}
  {
    hide ApplyScalar, Rejects, Given;
  }

  lemma NoneRejected(named: map<string, Value>)
    ensures RejectedIn([], named) == {}
  {
  }

  /** What is collected is given by some annotation, and every given source is collected. */
  lemma {:induction false} WalkGiven(order: seq<string>, named: map<string, Value>, base: Policy, s: Source)
    requires AllIn(order, named)
    ensures var given := Walk(order, named, base).given;
            && (s in given <==> exists name, v :: name in order && Gives(named, name, s, v))
            && (s in given ==> exists name :: name in order && Gives(named, name, s, given[s]))
            && (forall name, v :: order != [] && name == order[|order| - 1] && Gives(named, name, s, v) ==>
                  s in given && given[s] == v)
  {
    hide ApplyScalar, Rejects, SuffixKey, Given, KindOf;
    if order != [] {
      var front, name := order[..|order| - 1], order[|order| - 1];
      WalkGiven(front, named, base, s);
      var before, given := Walk(front, named, base).given, Walk(order, named, base).given;
      assert order == front + [name];
      if Source(KindOf(name), SuffixKey(name)) == s && KindOf(name) != Scalar && Given(name, named[name]).Some? {
        assert Gives(named, name, s, given[s]);
      } else {
        assert s in given <==> s in before;
        forall v ensures !Gives(named, name, s, v) {}
      }
    }
  }

  /** The spelling that decides a resource: nothing of a higher precedence gives it. */
  ghost predicate Decides(named: map<string, Value>, s: Source)
  {
    forall name, v, k :: Gives(named, name, Source(k, s.res), v) ==> k == s.kind || Below(k, s.kind)
  }

  predicate Below(a: Kind, b: Kind)
  {
    b == Headroom || (b == Increment && a == Threshold)
  }

  /** Two annotations spell the deciding source of a resource differently and disagree. */
  ghost predicate Ambiguous(named: map<string, Value>)
  {
    exists a, b, s, v, w :: Gives(named, a, s, v) && Gives(named, b, s, w) && v != w && Decides(named, s)
  }

  lemma SameSources(o1: seq<string>, o2: seq<string>, named: map<string, Value>, base: Policy)
    requires IsOrder(o1, named) && IsOrder(o2, named)
    ensures Walk(o1, named, base).given.Keys == Walk(o2, named, base).given.Keys
  {
    hide Gives, Walk;
    forall s ensures s in Walk(o1, named, base).given <==> s in Walk(o2, named, base).given {
      WalkGiven(o1, named, base, s);
      WalkGiven(o2, named, base, s);
      GivesNamed(named, s);
    }
  }

  lemma GivesNamed(named: map<string, Value>, s: Source)
    ensures forall name, v :: Gives(named, name, s, v) ==> name in named
  {
  }

  lemma SameNames(o1: seq<string>, o2: seq<string>, named: map<string, Value>)
    requires IsOrder(o1, named) && IsOrder(o2, named)
    ensures ScalarsIn(o1) == ScalarsIn(o2) && RejectedIn(o1, named) == RejectedIn(o2, named)
  {
    assert forall name :: name in o1 <==> name in o2;
  }

  /** The warnings, and all settings but the headrooms, never depend on the order. */
  lemma OrderSparesTheRest(o1: seq<string>, o2: seq<string>, named: map<string, Value>, base: Policy)
    requires IsOrder(o1, named) && IsOrder(o2, named)
    ensures Merged(o1, named, base).1 == Merged(o2, named, base).1
    ensures Merged(o1, named, base).0.(headroom := map[]) == Merged(o2, named, base).0.(headroom := map[])
  {
    hide Walk, ScalarsOf, RejectedIn, ScalarsIn;
    SameNames(o1, o2, named);
    WalkScalars(o1, named, base);
    WalkScalars(o2, named, base);
    WalkWarnings(o1, named, base);
    WalkWarnings(o2, named, base);
    SameSources(o1, o2, named, base);
    assert Deprecations(Walk(o1, named, base).given) == Deprecations(Walk(o2, named, base).given);
  }

  /** The value that wins comes from an annotation of the deciding spelling. */
  lemma WinnerGiven(order: seq<string>, named: map<string, Value>, base: Policy, res: string)
    returns (s: Source, name: string)
    requires IsOrder(order, named) && Winner(Walk(order, named, base).given, res).Some?
    ensures s.res == res && Decides(named, s)
    ensures Gives(named, name, s, Winner(Walk(order, named, base).given, res).value)
  {
    hide Gives, Walk;
    var given := Walk(order, named, base).given;
    var kind := if Source(Headroom, res) in given then Headroom
                else if Source(Increment, res) in given then Increment else Threshold;
    s := Source(kind, res);
    WalkGiven(order, named, base, s);
    name :| Gives(named, name, s, given[s]);
    forall n, v, k | Gives(named, n, Source(k, res), v)
      ensures k == s.kind || Below(k, s.kind)
    {
      WalkGiven(order, named, base, Source(k, res));
      GivesNamed(named, Source(k, res));
      NotScalar(named, n, Source(k, res), v);
    }
  }

  lemma NotScalar(named: map<string, Value>, name: string, s: Source, v: real)
    requires Gives(named, name, s, v)
    ensures s.kind != Scalar
  {
  }

  lemma SameDeciders(named: map<string, Value>, a: string, b: string, s: Source, t: Source, v: real, w: real)
    requires s.res == t.res && Decides(named, s) && Decides(named, t) && Gives(named, a, s, v) && Gives(named, b, t, w)
    ensures s == t
  {
    hide Gives;
    assert Gives(named, b, Source(t.kind, s.res), w) && Gives(named, a, Source(s.kind, t.res), v);
  }

  /** Every resource has the headroom that a deciding annotation gives it, or else the global one:
      headroom wins over increment, and increment over threshold. */
  lemma HeadroomFollowsPrecedence(order: seq<string>, named: map<string, Value>, base: Policy, res: string)
    requires IsOrder(order, named)
    ensures var h := Merged(order, named, base).0.headroom;
            if exists name, k, v :: Gives(named, name, Source(k, res), v)
            then
              res in h && exists name, s: Source :: s.res == res && Decides(named, s) && Gives(named, name, s, h[res])
            else (res in h <==> res in base.headroom) && (res in h ==> h[res] == base.headroom[res])
  {
    hide Gives, Walk, Decides;
    var given := Walk(order, named, base).given;
    if name, k, v :| Gives(named, name, Source(k, res), v) {
      WalkGiven(order, named, base, Source(k, res));
      GivesNamed(named, Source(k, res));
      NotScalar(named, name, Source(k, res), v);
      assert given[Source(k, res)] == given[Source(k, res)] && Winner(given, res).Some?;
      var s, n := WinnerGiven(order, named, base, res);
      assert Source(k, res) in given && res in Merged(order, named, base).0.headroom;
    } else {
      WalkGiven(order, named, base, Source(Headroom, res));
      WalkGiven(order, named, base, Source(Increment, res));
      WalkGiven(order, named, base, Source(Threshold, res));
    }
  }

  /** Unless two annotations disagree on the spelling that decides, the policy is the same in every order. */
  lemma UnambiguousIsOrderFree(o1: seq<string>, o2: seq<string>, named: map<string, Value>, base: Policy)
    requires IsOrder(o1, named) && IsOrder(o2, named) && !Ambiguous(named)
    ensures Merged(o1, named, base) == Merged(o2, named, base)
  {
    hide Gives, Walk, Decides;
    OrderSparesTheRest(o1, o2, named, base);
    SameSources(o1, o2, named, base);
    var g1, g2 := Walk(o1, named, base).given, Walk(o2, named, base).given;
    forall res ensures Winner(g1, res) == Winner(g2, res) {
      if Winner(g1, res).Some? {
        var s, a := WinnerGiven(o1, named, base, res);
        var t, b := WinnerGiven(o2, named, base, res);
        SameDeciders(named, a, b, s, t, Winner(g1, res).value, Winner(g2, res).value);
      }
    }
    hide Winner;
    assert HeadroomAfter(g1, base.headroom) == HeadroomAfter(g2, base.headroom);
  }

  /** An order that ends with a given name. */
  lemma {:induction false} OrderOf(names: set<string>) returns (order: seq<string>)
    ensures Distinct(order) && forall name :: name in order <==> name in names
  {
    if names == {} {
      order := [];
    } else {
      var x :| x in names;
      var rest := OrderOf(names - {x});
      order := rest + [x];
    }
  }

  lemma OrderEndingIn(named: map<string, Value>, last: string) returns (order: seq<string>)
    requires last in named
    ensures IsOrder(order, named) && order != [] && order[|order| - 1] == last
  {
    var front := OrderOf(named.Keys - {last});
    order := front + [last];
    assert forall i :: 0 <= i < |front| ==> front[i] in front;
  }

  lemma Wins(given: map<Source, real>, base: map<string, real>, s: Source)
    requires s in given && s.kind != Scalar
    requires Source(Headroom, s.res) in given ==> s.kind == Headroom
    requires Source(Increment, s.res) in given ==> s.kind == Headroom || s.kind == Increment
    ensures s.res in HeadroomAfter(given, base) && HeadroomAfter(given, base)[s.res] == given[s]
  {
    assert s == Source(s.kind, s.res);
  }

  lemma NothingAbove(order: seq<string>, named: map<string, Value>, base: Policy, s: Source, k: Kind)
    requires AllIn(order, named) && Decides(named, s) && Source(k, s.res) in Walk(order, named, base).given
    ensures k == s.kind || Below(k, s.kind)
  {
    hide Gives, Walk;
    WalkGiven(order, named, base, Source(k, s.res));
  }

  lemma LastWins(named: map<string, Value>, base: Policy, name: string, s: Source, v: real) returns (order: seq<string>)
    requires Gives(named, name, s, v) && Decides(named, s)
    ensures IsOrder(order, named)
    ensures var h := Merged(order, named, base).0.headroom; s.res in h && h[s.res] == v
  {
    hide Gives, Walk, Decides, HeadroomAfter;
    NotScalar(named, name, s, v);
    GivesNamed(named, s);
    order := OrderEndingIn(named, name);
    var given := Walk(order, named, base).given;
    WalkGiven(order, named, base, s);
    if Source(Headroom, s.res) in given { NothingAbove(order, named, base, s, Headroom); }
    if Source(Increment, s.res) in given { NothingAbove(order, named, base, s, Increment); }
    Wins(given, base.headroom, s);
  }

  /** And if two do disagree, some two orders give different policies. */
  lemma AmbiguousDependsOnOrder(named: map<string, Value>, base: Policy) returns (o1: seq<string>, o2: seq<string>)
    requires Ambiguous(named)
    ensures IsOrder(o1, named) && IsOrder(o2, named)
    ensures Merged(o1, named, base).0 != Merged(o2, named, base).0
  {
    hide Gives, Merged, Decides;
    var a, b, s, v, w :| Gives(named, a, s, v) && Gives(named, b, s, w) && v != w && Decides(named, s);
    o1 := LastWins(named, base, a, s, v);
    o2 := LastWins(named, base, b, s, w);
  }

  lemma AliasKey(name: string, stem: string)
    requires name == stem + "headroom" && (stem == "cpu" || stem == "cpu-")
    ensures KindOf(name) == Headroom && SuffixKey(name) == "cpu"
  {
    assert name[|stem|..] == "headroom" && name[..|stem|] == stem;
    assert "cpu-"[..3] == "cpu" && "cpu-"[3..] == "-";
    assert "cpu"[2..] != "-";
  }

  lemma AliasGives(named: map<string, Value>, name: string, stem: string, v: real)
    requires name == stem + "headroom" && (stem == "cpu" || stem == "cpu-")
    requires name in named && Given(name, named[name]) == Some(v)
    ensures Gives(named, name, Source(Headroom, "cpu"), v)
  {
    AliasKey(name, stem);
    hide SuffixKey, Given, KindOf;
  }

  /** Two names of one resource that differ only in the dash are such a pair. */
  lemma AliasIsAmbiguous(named: map<string, Value>, v: real, w: real)
    requires "cpuheadroom" in named && "cpu-headroom" in named && v != w
    requires Given("cpuheadroom", named["cpuheadroom"]) == Some(v)
    requires Given("cpu-headroom", named["cpu-headroom"]) == Some(w)
    ensures Ambiguous(named)
  {
    hide Gives, Decides, Given;
    AliasGives(named, "cpuheadroom", "cpu", v);
    AliasGives(named, "cpu-headroom", "cpu-", w);
    TopDecides(named, Source(Headroom, "cpu"));
  }

  lemma TopDecides(named: map<string, Value>, s: Source)
    requires s.kind == Headroom
    ensures Decides(named, s)
  {
    hide Gives;
    forall name, v, k | Gives(named, name, Source(k, s.res), v) ensures k == Headroom || Below(k, Headroom) {
      NotScalar(named, name, Source(k, s.res), v);
    }
  }

  /* ---------- ranges ---------- */

  predicate SameRanges(p: Policy, base: Policy)
  {
    && (ValidPolicy(base) ==> ValidPolicy(p))
    && (p.shrinkEnabled ==> base.shrinkEnabled)
  }

  lemma ScalarKeepsValid(name: string, v: Value, p: Policy)
    requires ValidPolicy(p)
    ensures ValidPolicy(ApplyScalar(name, v, p))
  {
    hide SettingOf, EqualFold, Fraction;
  }

  lemma ScalarKeepsRanges(name: string, v: Value, p: Policy)
    ensures SameRanges(ApplyScalar(name, v, p), p)
  {
    hide SettingOf, EqualFold, Fraction, ScalarValid, ValidPolicy;
    if ValidPolicy(p) { ScalarKeepsValid(name, v, p); }
  }

  lemma GivenNotNegative(name: string, v: Value)
    ensures Given(name, v).Some? ==> Given(name, v).value >= 0.0
  {
    if v.number.Some? && 0.0 < v.number.value <= 100.0 { assert 100.0 / v.number.value >= 1.0; }
  }

  lemma {:induction false} WalkKeepsRanges(order: seq<string>, named: map<string, Value>, base: Policy)
    requires AllIn(order, named)
    ensures SameRanges(Walk(order, named, base).policy, base)
    ensures forall s :: s in Walk(order, named, base).given ==> Walk(order, named, base).given[s] >= 0.0
  {
    hide ApplyScalar, Given, Rejects, KindOf, SuffixKey, ValidPolicy;
    if order != [] {
      var front, name := order[..|order| - 1], order[|order| - 1];
      WalkKeepsRanges(front, named, base);
      ScalarKeepsRanges(name, named[name], Walk(front, named, base).policy);
      GivenNotNegative(name, named[name]);
    }
  }

  /** Whatever a namespace writes, in whatever order it is read, a valid policy stays valid, and
      shrinking is never switched on. */
  lemma MergedKeepsRanges(order: seq<string>, named: map<string, Value>, base: Policy)
    requires AllIn(order, named)
    ensures SameRanges(Merged(order, named, base).0, base)
  {
    hide Walk;
    WalkKeepsRanges(order, named, base);
  }

  /* ---------- the loops ---------- */

  lemma WalkOne(order: seq<string>, named: map<string, Value>, base: Policy, name: string)
    requires AllIn(order, named) && name in named
    ensures AllIn(order + [name], named)
    ensures Walk(order + [name], named, base) == Step(Walk(order, named, base), name, named[name])
  {
    hide Step;
    assert (order + [name])[..|order|] == order;
  }

  lemma NamedAt(annotations: map<string, Value>, key: string)
    requires key in annotations && HasPrefix(key, PREFIX)
    ensures Name(key) in Named(annotations) && Named(annotations)[Name(key)] == annotations[key]
    ensures key == PREFIX + Name(key)
  {
    assert key == PREFIX + Name(key);
  }

  /** The keys that were read, as names. */
  predicate ReadSoFar(order: seq<string>, annotations: map<string, Value>, todo: set<string>)
  {
    && AllIn(order, Named(annotations)) && Distinct(order)
    && (forall name :: name in order ==> PREFIX + name in annotations && PREFIX + name !in todo)
    && (forall key :: key in annotations && key !in todo && HasPrefix(key, PREFIX) ==> Name(key) in order)
  }

  lemma ReadOne(order: seq<string>, annotations: map<string, Value>, todo: set<string>, key: string)
    requires key in todo && todo <= annotations.Keys && ReadSoFar(order, annotations, todo)
    ensures ReadSoFar(if HasPrefix(key, PREFIX) then order + [Name(key)] else order, annotations, todo - {key})
  {
    hide Named;
    if HasPrefix(key, PREFIX) {
      NamedAt(annotations, key);
      hide HasPrefix;
      assert Name(key) !in order;
      forall k | k in annotations && k !in todo - {key} && HasPrefix(k, PREFIX) ensures Name(k) in order + [Name(key)] {
        if k != key { assert Name(k) in order; }
      }
    }
  }

  lemma ReadAll(order: seq<string>, annotations: map<string, Value>)
    requires ReadSoFar(order, annotations, {})
    ensures IsOrder(order, Named(annotations))
  {
    forall name | name in Named(annotations) ensures name in order {
      assert HasPrefix(PREFIX + name, PREFIX) && Name(PREFIX + name) == name;
    }
  }

  /** The headroom of one resource after some of the sources were merged. */
  function MergedAt(given: map<Source, real>, base: map<string, real>, done: set<Source>, res: string): Option<real>
  {
    var top := Top(given, res);
    if top.Some? && top.value in done && top.value in given then Some(given[top.value])
    else if res in base then Some(base[res])
    else None
  }

  function PartlyMerged(given: map<Source, real>, base: map<string, real>, done: set<Source>): map<string, real>
  {
    map res | res in base.Keys + (set s | s in done :: s.res) && MergedAt(given, base, done, res).Some? ::
      MergedAt(given, base, done, res).value
  }

  function Top(given: map<Source, real>, res: string): Option<Source>
  {
    if Source(Headroom, res) in given then Some(Source(Headroom, res))
    else if Source(Increment, res) in given then Some(Source(Increment, res))
    else if Source(Threshold, res) in given then Some(Source(Threshold, res))
    else None
  }

  lemma MergeOneAt(given: map<Source, real>, base: map<string, real>, done: set<Source>, s: Source, res: string)
    requires s in given && s !in done && s.kind != Scalar
    ensures MergedAt(given, base, done + {s}, res)
         == if res != s.res || (s.kind != Headroom && Overridden(given, s)) then MergedAt(given, base, done, res)
            else Some(given[s])
  {
  }

  lemma MergedIn(given: map<Source, real>, base: map<string, real>, done: set<Source>, res: string)
    ensures res in PartlyMerged(given, base, done) <==> MergedAt(given, base, done, res).Some?
    ensures res in PartlyMerged(given, base, done) ==>
      PartlyMerged(given, base, done)[res] == MergedAt(given, base, done, res).value
  {
    assert Top(given, res).Some? && Top(given, res).value in done ==> Top(given, res).value.res == res;
  }

  lemma MergeOne(given: map<Source, real>, base: map<string, real>, done: set<Source>, s: Source)
    requires s in given && s !in done && s.kind != Scalar
    ensures PartlyMerged(given, base, done + {s})
         == if s.kind != Headroom && Overridden(given, s) then PartlyMerged(given, base, done)
            else PartlyMerged(given, base, done)[s.res := given[s]]
  {
    hide Overridden, PartlyMerged, MergedAt;
    var a, b := PartlyMerged(given, base, done), PartlyMerged(given, base, done + {s});
    var skip := s.kind != Headroom && Overridden(given, s);
    forall res
      ensures res in b <==> res in a || (res == s.res && !skip)
      ensures res in b ==> b[res] == if res == s.res && !skip then given[s] else a[res]
    {
      MergeOneAt(given, base, done, s, res);
      MergedIn(given, base, done, res);
      MergedIn(given, base, done + {s}, res);
    }
  }

  lemma WinnerIsTop(given: map<Source, real>, res: string)
    ensures Winner(given, res) == if Top(given, res).None? then None else Some(given[Top(given, res).value])
  {
  }

  lemma HeadroomIn(given: map<Source, real>, base: map<string, real>, res: string)
    ensures res in HeadroomAfter(given, base) <==> Winner(given, res).Some? || res in base
    ensures res in HeadroomAfter(given, base) ==>
      HeadroomAfter(given, base)[res] == if Winner(given, res).Some? then Winner(given, res).value else base[res]
  {
    WinnerIsTop(given, res);
    assert Top(given, res).Some? ==> Top(given, res).value in given && Top(given, res).value.res == res;
    hide Winner, Top;
  }

  lemma AllMergedAt(given: map<Source, real>, base: map<string, real>, res: string)
    ensures MergedAt(given, base, given.Keys, res)
         == if Winner(given, res).Some? then Winner(given, res) else if res in base then Some(base[res]) else None
    ensures MergedAt(given, base, {}, res) == if res in base then Some(base[res]) else None
  {
    WinnerIsTop(given, res);
    assert Top(given, res).Some? ==> Top(given, res).value in given;
    hide Winner, Top;
  }

  lemma AllMerged(given: map<Source, real>, base: map<string, real>)
    ensures PartlyMerged(given, base, given.Keys) == HeadroomAfter(given, base)
    ensures PartlyMerged(given, base, {}) == base
  {
    hide PartlyMerged, MergedAt, Winner, HeadroomAfter;
    var a, b, none := PartlyMerged(given, base, given.Keys), HeadroomAfter(given, base), PartlyMerged(given, base, {});
    forall res
      ensures (res in a <==> res in b) && (res in a ==> a[res] == b[res])
      ensures (res in none <==> res in base) && (res in none ==> none[res] == base[res])
    {
      MergedIn(given, base, given.Keys, res);
      MergedIn(given, base, {}, res);
      HeadroomIn(given, base, res);
      AllMergedAt(given, base, res);
    }
  }

  function OfKind(given: map<Source, real>, kind: Kind): set<Source>
  {
    set s | s in given && s.kind == kind
  }

  function DeprecationsIn(given: map<Source, real>, done: set<Source>): set<Warning>
  {
    set s | s in done && s in given && !Overridden(given, s) :: Deprecated(s)
  }

  lemma DeprecateOne(given: map<Source, real>, done: set<Source>, s: Source)
    requires s in given && s !in done
    ensures multiset(DeprecationsIn(given, done + {s}))
         == multiset(DeprecationsIn(given, done)) + if Overridden(given, s) then multiset{} else multiset{Deprecated(s)}
  {
    var a := DeprecationsIn(given, done);
    assert Deprecated(s) !in a;
    assert DeprecationsIn(given, done + {s}) == a + if Overridden(given, s) then {} else {Deprecated(s)};
  }

  /** One of the three loops that apply the precedence. */
  method MergeKind(given: map<Source, real>, kind: Kind, base: map<string, real>, headroom: map<string, real>,
                   ghost done: set<Source>)
    returns (out: map<string, real>, warnings: seq<Warning>)
    requires kind != Scalar && headroom == PartlyMerged(given, base, done) && done !! OfKind(given, kind)
    ensures out == PartlyMerged(given, base, done + OfKind(given, kind))
    ensures multiset(DeprecationsIn(given, done)) + multiset(warnings)
         == multiset(DeprecationsIn(given, done + OfKind(given, kind)))
  {
    hide PartlyMerged, DeprecationsIn;
    out, warnings := headroom, [];
    var all := set s | s in given && s.kind == kind;
    var todo := all;
    assert done + (all - todo) == done;
    while todo != {}
      invariant todo <= all == OfKind(given, kind)
      invariant out == PartlyMerged(given, base, done + (all - todo))
      invariant multiset(DeprecationsIn(given, done)) + multiset(warnings)
             == multiset(DeprecationsIn(given, done + (all - todo)))
    {
      var s :| s in todo;
      MergeOne(given, base, done + (all - todo), s);
      DeprecateOne(given, done + (all - todo), s);
      assert done + (all - (todo - {s})) == done + (all - todo) + {s};
      todo := todo - {s};
      if Source(Headroom, s.res) in given && s.kind != Headroom {
        continue;
      }
      if Source(Increment, s.res) in given && s.kind == Threshold {
        continue;
      }
      out := out[s.res := given[s]];
      if s.kind != Headroom {
        warnings := warnings + [Deprecated(s)];
      }
    }
    assert all - todo == all;
  }

  lemma NothingDeprecated(given: map<Source, real>)
    ensures DeprecationsIn(given, {}) == {} && DeprecationsIn(given, given.Keys) == Deprecations(given)
  {
  }

  lemma ThreeKinds(given: map<Source, real>)
    requires forall s :: s in given ==> s.kind != Scalar
    ensures {} + OfKind(given, Threshold) + OfKind(given, Increment) + OfKind(given, Headroom) == given.Keys
    ensures OfKind(given, Threshold) !! OfKind(given, Increment)
    ensures OfKind(given, Threshold) + OfKind(given, Increment) !! OfKind(given, Headroom)
  {
  }

  lemma GivenKinds(order: seq<string>, named: map<string, Value>, base: Policy, s: Source)
    requires AllIn(order, named) && s in Walk(order, named, base).given
    ensures s.kind != Scalar
  {
    hide Walk, Gives;
    WalkGiven(order, named, base, s);
    var name :| Gives(named, name, s, Walk(order, named, base).given[s]);
    NotScalar(named, name, s, Walk(order, named, base).given[s]);
  }

  /** ParsePolicy: the annotations in any order, then threshold, increment and headroom. */
  method ParsePolicy(annotations: map<string, Value>, base: Policy)
    returns (out: Policy, warnings: seq<Warning>, ghost order: seq<string>)
    ensures IsOrder(order, Named(annotations))
    ensures (out, multiset(warnings)) == Merged(order, Named(annotations), base)
  {
    hide Walk, Step, Named, HasPrefix, HeadroomAfter, Deprecations, PartlyMerged, DeprecationsIn, OfKind;
    var given: map<Source, real>;
    var policy, rejected;
    given, policy, rejected, order := Collect(annotations, base);
    forall s | s in given ensures s.kind != Scalar { GivenKinds(order, Named(annotations), base, s); }
    ThreeKinds(given);
    AllMerged(given, base.headroom);
    NothingDeprecated(given);
    assert {} !! OfKind(given, Threshold);
    var h1, w1 := MergeKind(given, Threshold, base.headroom, base.headroom, {});
    var h2, w2 := MergeKind(given, Increment, base.headroom, h1, {} + OfKind(given, Threshold));
    var h3, w3 := MergeKind(given, Headroom, base.headroom, h2,
                            {} + OfKind(given, Threshold) + OfKind(given, Increment));
    assert multiset(w1) + multiset(w2) + multiset(w3) == multiset(Deprecations(given));
    assert h3 == HeadroomAfter(given, base.headroom);
    out, warnings := policy.(headroom := h3), rejected + (w1 + w2 + w3);
    assert multiset(warnings) == multiset(rejected) + multiset(Deprecations(given));
  }

  /** The loop over the annotations. */
  method Collect(annotations: map<string, Value>, base: Policy)
    returns (given: map<Source, real>, out: Policy, warnings: seq<Warning>, ghost order: seq<string>)
    ensures IsOrder(order, Named(annotations))
    ensures Walk(order, Named(annotations), base) == Acc(given, out, multiset(warnings))
  {
    hide ApplyScalar, Given, Rejects, KindOf, SuffixKey, Named, HasPrefix, ReadSoFar;
    given, out, warnings, order := map[], base, [], [];
    var todo := annotations.Keys;
    NothingRead(annotations);
    while todo != {}
      invariant todo <= annotations.Keys && ReadSoFar(order, annotations, todo) && AllIn(order, Named(annotations))
      invariant Walk(order, Named(annotations), base) == Acc(given, out, multiset(warnings))
    {
      var key :| key in todo;
      ReadOne(order, annotations, todo, key);
      todo := todo - {key};
      if !HasPrefix(key, PREFIX) {
        continue;
      }
      NamedAt(annotations, key);
      var name, value := Name(key), annotations[key];
      WalkOne(order, Named(annotations), base, name);
      order := order + [name];
      if KindOf(name) == Scalar {
        out := ApplyScalar(name, value, out);
      } else {
        var v := Given(name, value);
        if v.Some? {
          given := given[Source(KindOf(name), SuffixKey(name)) := v.value];
        }
      }
      if Rejects(name, value) {
        warnings := warnings + [Rejected(name)];
      }
    }
    ReadAll(order, annotations);
  }

  lemma NothingRead(annotations: map<string, Value>)
    ensures ReadSoFar([], annotations, annotations.Keys)
  {
  }
}
