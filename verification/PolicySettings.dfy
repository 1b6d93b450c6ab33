/** What an annotation does, from its text to the target of a quota (internal/sizing/policy.go): which names spell
    which setting, what values they take, and the demand that a family's headroom scales. */
module PolicySettings {
  import opened Options
  import opened Strings
  import opened Policies
  import opened WindowModel
  import opened DecisionRule
  import opened PolicyMerge
  import opened QuotaKeys

  /** A fraction: "0.25", or "25%". */
  predicate Reads(v: Value, x: real)
  {
    if v.text != "" && v.text[|v.text| - 1] == '%' then v.trimmed == Some(100.0 * x) else v.number == Some(x)
  }

  lemma ReadsMeans(v: Value, x: real)
    ensures Fraction(v) == Some(x) <==> Reads(v, x)
  {
    assert HasSuffix(v.text, "%") <==> v.text != "" && v.text[|v.text| - 1] == '%';
  }

  /** The annotations of the controller are those with its prefix. */
  lemma OwnAnnotations(annotations: map<string, Value>, name: string)
    ensures name in Named(annotations) <==> "resizer.io/" + name in annotations
    ensures name in Named(annotations) ==> Named(annotations)[name] == annotations["resizer.io/" + name]
  {
    var key := "resizer.io/" + name;
    if key in annotations {
      assert key[11..] == name;
      NamedAt(annotations, key);
    }
  }

  /* ---------- the names of the headrooms ---------- */

  const WORDS := map[Headroom := "headroom", Increment := "increment", Threshold := "threshold"]

  /** The stem and the word, with a dash or without. */
  predicate Joins(name: string, stem: string, word: string)
  {
    name == stem + "-" + word || (name == stem + word && (stem == "" || stem[|stem| - 1] != '-'))
  }

  /** A bare word means the default. */
  predicate Spells(name: string, res: string, word: string)
  {
    (res != "" && Joins(name, res, word)) || (res == "default" && Joins(name, "", word))
  }

  lemma EndsIn(name: string, word: string)
    ensures HasSuffix(name, word) <==> exists stem :: name == stem + word
    ensures HasSuffix(name, word) ==> name == TrimSuffix(name, word) + word
    ensures TrimSuffix(name + word, word) == name
  {
    if HasSuffix(name, word) { assert name == name[..|name| - |word|] + word; }
    assert (name + word)[|name|..] == word && (name + word)[..|name|] == name;
    if stem :| name == stem + word { assert name[|stem|..] == word; }
  }

  lemma WordDecidesKind(name: string, kind: Kind)
    requires kind in WORDS
    ensures KindOf(name) == kind <==> HasSuffix(name, WORDS[kind])
  {
    if HasSuffix(name, WORDS[kind]) {
      assert name[|name| - 1] == WORDS[kind][|WORDS[kind]| - 1];
    }
  }

  lemma SpellingMeans(name: string, kind: Kind, res: string)
    requires kind in WORDS
    ensures KindOf(name) == kind && SuffixKey(name) == res <==> Spells(name, res, WORDS[kind])
  {
    WordDecidesKind(name, kind);
    var word := WORDS[kind];
    EndsIn(name, word);
    hide KindOf;
    if HasSuffix(name, word) {
      StemMeans(TrimSuffix(name, word), word, res);
    } else {
      assert "" + "-" + word == "-" + word;
    }
  }

  lemma StemMeans(stem: string, word: string, res: string)
    ensures var key := TrimSuffix(stem, "-");
            (if key == "" then "default" else key) == res <==> Spells(stem + word, res, word)
  {
    EndsIn(stem, "-");
    assert HasSuffix(stem, "-") <==> stem != "" && stem[|stem| - 1] == '-';
    Cancel(stem, word, res);
    Cancel(stem, word, res + "-");
    Cancel(stem, word, "");
    Cancel(stem, word, "-");
    EndsIn(res, "-");
    assert "" + "-" + word == "-" + word;
  }

  lemma Cancel(a: string, word: string, b: string)
    ensures a + word == b + word <==> a == b
  {
    if a + word == b + word {
      assert a == (a + word)[..|a|] && b == (b + word)[..|b|];
    }
  }

  /* ---------- their values ---------- */

  /** A threshold is the percentage of the limit that usage may reach; the others are the headroom itself. */
  predicate Grants(v: Value, kind: Kind, x: real)
  {
    if kind == Threshold then
      v.number.Some? && 0.0 < v.number.value <= 100.0 && (1.0 + x) * v.number.value == 100.0
    else Reads(v, x) && x >= 0.0
  }

  lemma Quotient(n: real, x: real)
    requires n > 0.0
    ensures x == 100.0 / n - 1.0 <==> (1.0 + x) * n == 100.0
  {
    var q := 100.0 / n;
    assert q * n == 100.0;
    if (1.0 + x) * n == 100.0 {
      assert (1.0 + x - q) * n == 0.0;
    }
  }

  lemma GivenMeans(name: string, v: Value, x: real)
    requires KindOf(name) in WORDS
    ensures Given(name, v) == Some(x) <==> Grants(v, KindOf(name), x)
  {
    hide Fraction, Reads, KindOf;
    ReadsMeans(v, x);
    if v.number.Some? && v.number.value > 0.0 { Quotient(v.number.value, x); }
  }

  /** Which annotations give a resource a headroom in which spelling, and what value. */
  lemma AnnotationGives(named: map<string, Value>, name: string, res: string, kind: Kind, x: real)
    requires kind in WORDS
    ensures Gives(named, name, Source(kind, res), x) <==>
            name in named && Spells(name, res, WORDS[kind]) && Grants(named[name], kind, x)
  {
    hide KindOf, SuffixKey, Given, Grants, Spells;
    SpellingMeans(name, kind, res);
    if name in named && KindOf(name) == kind { GivenMeans(name, named[name], x); }
  }

  /* ---------- from an annotation to a target ---------- */

  /** No annotation spells a headroom of the resource itself. */
  predicate Unnamed(named: map<string, Value>, res: string)
  {
    forall name, kind :: name in named && kind in WORDS ==> !Spells(name, res, WORDS[kind])
  }

  lemma UnnamedKeepsBase(order: seq<string>, named: map<string, Value>, base: Policy, res: string)
    requires IsOrder(order, named) && Unnamed(named, res)
    ensures var h := Merged(order, named, base).0.headroom;
            (res in h <==> res in base.headroom) && (res in h ==> h[res] == base.headroom[res])
  {
    hide Merged, Gives, Spells, Decides;
    HeadroomFollowsPrecedence(order, named, base, res);
    forall name, k, v ensures !Gives(named, name, Source(k, res), v) {
      if k in WORDS { AnnotationGives(named, name, res, k, v); } else { NoScalarGives(named, name, res, v, k); }
    }
  }

  lemma NoScalarGives(named: map<string, Value>, name: string, res: string, v: real, k: Kind)
    requires k !in WORDS
    ensures !Gives(named, name, Source(k, res), v)
  {
  }

  /** An annotation with a headroom of a resource wins over its other spellings, unless another one disagrees. */
  lemma NamedWins(order: seq<string>, named: map<string, Value>, base: Policy, name: string, res: string, x: real)
    requires IsOrder(order, named) && name in named
    requires Spells(name, res, "headroom") && Reads(named[name], x) && x >= 0.0
    requires forall other :: other in named && Spells(other, res, "headroom") ==> Reads(named[other], x)
    ensures res in Merged(order, named, base).0.headroom && Merged(order, named, base).0.headroom[res] == x
  {
    hide Merged, Gives, Spells, Decides, Reads;
    AnnotationGives(named, name, res, Headroom, x);
    HeadroomFollowsPrecedence(order, named, base, res);
    var h := Merged(order, named, base).0.headroom;
    var other, s: Source :| s.res == res && Decides(named, s) && Gives(named, other, s, h[res]);
    TopIsHeadroom(named, name, other, s, x, h[res]);
    AnnotationGives(named, other, res, Headroom, h[res]);
    ReadsOnce(named[other], x, h[res]);
  }

  lemma TopIsHeadroom(named: map<string, Value>, name: string, other: string, s: Source, x: real, y: real)
    requires Gives(named, name, Source(Headroom, s.res), x) && Decides(named, s) && Gives(named, other, s, y)
    ensures s == Source(Headroom, s.res)
  {
    hide Gives;
  }

  lemma ReadsOnce(v: Value, x: real, y: real)
    requires Reads(v, x) && Reads(v, y)
    ensures x == y
  {
  }

  /** A headroom for a family of resources scales the demand of each key of the family that has no headroom of
      its own, whatever order the annotations are read in. */
  lemma FamilyHeadroomScales(order: seq<string>, named: map<string, Value>, base: Policy, name: string, x: real,
                             inp: Input, res: string, key: string)
    requires IsOrder(order, named) && ValidPolicy(base) && inp.policy == Merged(order, named, base).0
    requires Comparable(inp, res) && Spelled(res, key) && key in CPU_KEYS + MEMORY_KEYS + STORAGE_KEYS
    requires var family := if key in CPU_KEYS then "cpu" else if key in MEMORY_KEYS then "memory" else "storage";
             && (res != family ==> Unnamed(named, res) && res !in base.headroom)
             && name in named && Spells(name, family, "headroom") && Reads(named[name], x) && x >= 0.0
             && forall other :: other in named && Spells(other, family, "headroom") ==> Reads(named[other], x)
    ensures var family := if key in CPU_KEYS then "cpu" else if key in MEMORY_KEYS then "memory" else "storage";
            Demands(inp, res, x, FirstOf(inp.policy.minimum, [res] + [family]))
  {
    hide Merged, Spells, Reads, Unnamed, Comparable, Demands, FirstOf, ValidPolicy, Spelled,
         CPU_KEYS, MEMORY_KEYS, STORAGE_KEYS;
    var family := if key in CPU_KEYS then "cpu" else if key in MEMORY_KEYS then "memory" else "storage";
    OrderIsIn(order, named);
    MergedKeepsRanges(order, named, base);
    NamedWins(order, named, base, name, family, x);
    if res != family { UnnamedKeepsBase(order, named, base, res); }
    Lookups(inp.policy.headroom, res, family, "default");
    TargetOfKey(inp, res, key);
  }

  lemma OrderIsIn(order: seq<string>, named: map<string, Value>)
    requires IsOrder(order, named)
    ensures AllIn(order, named)
  {
  }

  /* ---------- the other settings ---------- */

  /** A fraction that an annotation sets, if it lies in the range, and otherwise what it was before. */
  predicate FractionSet(named: map<string, Value>, name: string, x: real, inRange: bool, before: real, after: real)
  {
    if name !in named then after == before
    else
      && (Reads(named[name], x) ==> after == if inRange then x else before)
      && (named[name].number.None? && named[name].trimmed.None? ==> after == before)
  }

  /** A number of units that an annotation sets, unless it is too small. */
  predicate NumberSet(named: map<string, Value>, name: string, least: int, unit: int, before: int, after: int)
  {
    after == if name in named && named[name].integer.Some? && named[name].integer.value >= least
             then named[name].integer.value * unit else before
  }

  lemma ScalarKinds(res: string)
    ensures KindOf("tolerance") == KindOf("max-shrink-step") == KindOf("window-days") == KindOf("shrink-cooldown-days")
         == KindOf("shrink-pr-ttl-days") == KindOf("cooldown-minutes") == KindOf("enabled") == KindOf("shrink-enabled")
         == KindOf(res + "-min") == Scalar
  {
    assert (res + "-min")[|res| + 3] == 'n';
  }

  lemma SetBy(order: seq<string>, named: map<string, Value>, name: string)
    requires IsOrder(order, named) && KindOf(name) == Scalar
    ensures name in ScalarsIn(order) <==> name in named
    ensures Effective(ScalarsIn(order), named, name) <==> name in named && ScalarValid(name, named[name])
  {
    hide KindOf, ScalarValid;
  }

  lemma MergedScalars(order: seq<string>, named: map<string, Value>, base: Policy)
    requires IsOrder(order, named)
    ensures ScalarsIn(order) <= named.Keys
    ensures Merged(order, named, base).0.(headroom := base.headroom) == ScalarsOf(ScalarsIn(order), named, base)
  {
    hide Walk, ScalarsOf, ScalarsIn;
    WalkScalars(order, named, base);
    ScalarsSpareHeadroom(ScalarsIn(order), named, base);
  }

  lemma ScalarsSpareHeadroom(names: set<string>, named: map<string, Value>, p: Policy)
    requires names <= named.Keys
    ensures ScalarsOf(names, named, p).headroom == p.headroom
  {
    hide MinimumOf, Effective, Fraction, EqualFold;
  }

  lemma FractionIs(named: map<string, Value>, name: string, x: real)
    requires name in {"tolerance", "max-shrink-step"} && name in named
    ensures Reads(named[name], x) ==>
      && Fraction(named[name]) == Some(x)
      && (ScalarValid(name, named[name]) <==> x < 1.0 && (if name == "tolerance" then x >= 0.0 else x > 0.0))
    ensures named[name].number.None? && named[name].trimmed.None? ==> !ScalarValid(name, named[name])
  {
    hide HasSuffix, TrimSuffix, EqualFold;
    ReadsMeans(named[name], x);
    SettingNames(name);
  }

  lemma NumberIs(named: map<string, Value>, name: string)
    requires name in {"window-days", "shrink-cooldown-days", "shrink-pr-ttl-days", "cooldown-minutes"} && name in named
    ensures ScalarValid(name, named[name]) <==>
      && named[name].integer.Some?
      && named[name].integer.value >= if name in {"window-days", "shrink-pr-ttl-days"} then 1 else 0
  {
    hide HasSuffix, TrimSuffix, EqualFold;
    SettingNames(name);
  }

  /** The numbers: the band and the step are fractions below one, the window and the time to live are positive days,
      and the two cooldowns are days and minutes. */
  lemma NumbersAreSet(order: seq<string>, named: map<string, Value>, base: Policy, x: real)
    requires IsOrder(order, named)
    ensures var p := Merged(order, named, base).0;
            && FractionSet(named, "tolerance", x, 0.0 <= x < 1.0, base.tolerance, p.tolerance)
            && FractionSet(named, "max-shrink-step", x, 0.0 < x < 1.0, base.maxShrinkStep, p.maxShrinkStep)
            && NumberSet(named, "window-days", 1, 1, base.windowDays, p.windowDays)
            && NumberSet(named, "shrink-cooldown-days", 0, 24 * 60 * 60, base.shrinkCooldown, p.shrinkCooldown)
            && NumberSet(named, "shrink-pr-ttl-days", 1, 24 * 60 * 60, base.shrinkPRTTL, p.shrinkPRTTL)
            && NumberSet(named, "cooldown-minutes", 0, 60, base.growCooldown, p.growCooldown)
  {
    hide Merged, MinimumOf, EqualFold, ScalarsIn, Effective, Reads, Fraction, KindOf, ScalarValid;
    MergedScalars(order, named, base);
    ScalarKinds("");
    SetBy(order, named, "tolerance");
    SetBy(order, named, "max-shrink-step");
    SetBy(order, named, "window-days");
    SetBy(order, named, "shrink-cooldown-days");
    SetBy(order, named, "shrink-pr-ttl-days");
    SetBy(order, named, "cooldown-minutes");
    if "tolerance" in named { FractionIs(named, "tolerance", x); }
    if "max-shrink-step" in named { FractionIs(named, "max-shrink-step", x); }
    if "window-days" in named { NumberIs(named, "window-days"); }
    if "shrink-cooldown-days" in named { NumberIs(named, "shrink-cooldown-days"); }
    if "shrink-pr-ttl-days" in named { NumberIs(named, "shrink-pr-ttl-days"); }
    if "cooldown-minutes" in named { NumberIs(named, "cooldown-minutes"); }
  }

  /** The switches and the minimums: only the text "false" opts a namespace out, only the text "true", in any case,
      keeps shrinking on, and a quantity sets the minimum of its resource. */
  lemma SwitchesAreSet(order: seq<string>, named: map<string, Value>, base: Policy, res: string)
    requires IsOrder(order, named)
    ensures var p := Merged(order, named, base).0;
            && p.enabled == (if "enabled" in named then named["enabled"].text != "false" else base.enabled)
            && p.shrinkEnabled ==
                 (base.shrinkEnabled && ("shrink-enabled" in named ==> IsTrue(named["shrink-enabled"].text)))
            && var given := res + "-min" in named && named[res + "-min"].quantity.Some?;
            && (res in p.minimum <==> given || res in base.minimum)
            && (res in p.minimum ==>
                  p.minimum[res] == if given then named[res + "-min"].quantity.value else base.minimum[res])
  {
    hide Merged, MinimumOf, ScalarsIn, Effective, Fraction, KindOf, ScalarValid;
    MergedScalars(order, named, base);
    ScalarKinds(res);
    SetBy(order, named, "enabled");
    SetBy(order, named, "shrink-enabled");
    SetBy(order, named, res + "-min");
    MinimumIn(ScalarsIn(order), named, base.minimum, res);
    MinimumSuffix(res);
    SettingNames(res + "-min");
    if "shrink-enabled" in named { TrueFolds(named["shrink-enabled"].text); }
    if res + "-min" in named { ValidMeans(res + "-min", named[res + "-min"]); }
  }

  predicate IsTrue(s: string)
  {
    |s| == 4 && s[0] in "tT" && s[1] in "rR" && s[2] in "uU" && s[3] in "eE"
  }

  lemma TrueFolds(s: string)
    ensures EqualFold(s, "true") <==> IsTrue(s)
  {
    if EqualFold(s, "true") {
      assert PolicyMerge.Lower(s[0]) == 't' && PolicyMerge.Lower(s[1]) == 'r';
      assert PolicyMerge.Lower(s[2]) == 'u' && PolicyMerge.Lower(s[3]) == 'e';
    }
  }

  /** And a minimum for a family bounds the target of each of its keys that has no minimum of its own. */
  lemma FamilyMinimumHolds(order: seq<string>, named: map<string, Value>, base: Policy, least: int, inp: Input,
                           res: string, key: string)
    requires IsOrder(order, named) && ValidPolicy(base) && inp.policy == Merged(order, named, base).0
    requires Comparable(inp, res) && Spelled(res, key) && key in CPU_KEYS + MEMORY_KEYS + STORAGE_KEYS
    requires var family := if key in CPU_KEYS then "cpu" else if key in MEMORY_KEYS then "memory" else "storage";
             && (res != family ==> res + "-min" !in named && res !in base.minimum)
             && family + "-min" in named && named[family + "-min"].quantity == Some(least)
    ensures RawTarget(inp, res) >= least
  {
    hide Merged, Comparable, RawTarget, FirstOf, ValidPolicy, Spelled, CPU_KEYS, MEMORY_KEYS, STORAGE_KEYS;
    var family := if key in CPU_KEYS then "cpu" else if key in MEMORY_KEYS then "memory" else "storage";
    OrderIsIn(order, named);
    MergedKeepsRanges(order, named, base);
    SwitchesAreSet(order, named, base, family);
    SwitchesAreSet(order, named, base, res);
    Lookups(inp.policy.minimum, res, family, "");
    TargetOfKey(inp, res, key);
  }

  /* ---------- warnings ---------- */

  predicate EndsWith(name: string, word: string)
  {
    |word| <= |name| && name[|name| - |word|..] == word
  }

  predicate IsFalse(s: string)
  {
    |s| == 5 && s[0] in "fF" && s[1] in "aA" && s[2] in "lL" && s[3] in "sS" && s[4] in "eE"
  }

  lemma FalseFolds(s: string)
    ensures EqualFold(s, "false") <==> IsFalse(s)
  {
    if EqualFold(s, "false") {
      assert PolicyMerge.Lower(s[0]) == 'f' && PolicyMerge.Lower(s[1]) == 'a' && PolicyMerge.Lower(s[2]) == 'l';
      assert PolicyMerge.Lower(s[3]) == 's' && PolicyMerge.Lower(s[4]) == 'e';
    }
  }

  /** No fraction that lies in this range, zero counting only when it may. */
  ghost predicate NoFraction(v: Value, zero: bool, belowOne: bool)
  {
    forall x :: Reads(v, x) ==> !(x > 0.0 || (zero && x == 0.0)) || (belowOne && x >= 1.0)
  }

  predicate NoNumber(v: Value, least: int)
  {
    v.integer.None? || v.integer.value < least
  }

  /** The annotations that are ignored, because their value makes no sense. */
  ghost predicate Senseless(name: string, v: Value)
  {
    if EndsWith(name, "headroom") || EndsWith(name, "increment") then NoFraction(v, true, false)
    else if EndsWith(name, "threshold") then v.number.None? || v.number.value <= 0.0 || v.number.value > 100.0
    else if EndsWith(name, "-min") then v.quantity.None?
    else if name == "tolerance" then NoFraction(v, true, true)
    else if name == "max-shrink-step" then NoFraction(v, false, true)
    else if name == "window-days" || name == "shrink-pr-ttl-days" then NoNumber(v, 1)
    else if name == "shrink-cooldown-days" || name == "cooldown-minutes" then NoNumber(v, 0)
    else name == "shrink-enabled" && !IsTrue(v.text) && !IsFalse(v.text)
  }

  lemma NoFractionMeans(v: Value, zero: bool, belowOne: bool)
    ensures NoFraction(v, zero, belowOne) <==>
            Fraction(v).None? || !(Fraction(v).value > 0.0 || (zero && Fraction(v).value == 0.0))
            || (belowOne && Fraction(v).value >= 1.0)
  {
    hide Fraction, Reads;
    forall x ensures Reads(v, x) <==> Fraction(v) == Some(x) { ReadsMeans(v, x); }
  }

  lemma WordsAre(name: string)
    ensures EndsWith(name, "headroom") <==> KindOf(name) == Headroom
    ensures EndsWith(name, "increment") <==> KindOf(name) == Increment
    ensures EndsWith(name, "threshold") <==> KindOf(name) == Threshold
    ensures EndsWith(name, "-min") <==> SettingOf(name).SetMinimum?
  {
    WordDecidesKind(name, Headroom);
    WordDecidesKind(name, Increment);
    WordDecidesKind(name, Threshold);
    hide KindOf;
    SettingNames(name);
  }

  lemma ScalarSense(name: string, v: Value)
    requires KindOf(name) == Scalar
    ensures ScalarValid(name, v) <==> !Senseless(name, v)
  {
    hide Fraction, NoFraction, IsTrue, IsFalse, EqualFold, HasSuffix, TrimSuffix, SettingOf, KindOf, EndsWith;
    NoFractionMeans(v, true, true);
    NoFractionMeans(v, false, true);
    TrueFolds(v.text);
    FalseFolds(v.text);
    SettingNames(name);
    WordsAre(name);
  }

  lemma HeadroomSense(name: string, v: Value)
    requires KindOf(name) != Scalar
    ensures Given(name, v).None? <==> Senseless(name, v)
  {
    hide Fraction, NoFraction, KindOf, EndsWith, SettingOf;
    NoFractionMeans(v, true, false);
    WordsAre(name);
  }

  lemma SenselessIsRejected(name: string, v: Value)
    ensures Rejects(name, v) <==> Senseless(name, v)
  {
    hide Senseless, ScalarValid, Given;
    if KindOf(name) == Scalar { ScalarSense(name, v); } else { HeadroomSense(name, v); }
  }

  /** An annotation is reported as rejected exactly when its value makes no sense. */
  lemma RejectionsAreTold(order: seq<string>, named: map<string, Value>, base: Policy, name: string)
    requires IsOrder(order, named)
    ensures Rejected(name) in Merged(order, named, base).1 <==> name in named && Senseless(name, named[name])
  {
    hide Walk, Senseless, Rejects, HeadroomAfter;
    WalkWarnings(order, named, base);
    if name in named { SenselessIsRejected(name, named[name]); }
  }

  /** Some annotation gives a resource a headroom in this spelling. */
  ghost predicate Used(named: map<string, Value>, res: string, kind: Kind)
    requires kind in WORDS
  {
    exists name, x :: name in named && Spells(name, res, WORDS[kind]) && Grants(named[name], kind, x)
  }

  lemma UsedMeans(order: seq<string>, named: map<string, Value>, base: Policy, res: string, kind: Kind)
    requires IsOrder(order, named) && kind in WORDS
    ensures Source(kind, res) in Walk(order, named, base).given <==> Used(named, res, kind)
  {
    hide Walk, Gives, Spells, Grants;
    WalkGiven(order, named, base, Source(kind, res));
    forall name, x
      ensures Gives(named, name, Source(kind, res), x) <==>
              name in named && Spells(name, res, WORDS[kind]) && Grants(named[name], kind, x)
    {
      AnnotationGives(named, name, res, kind, x);
    }
  }

  /** An old spelling is reported as deprecated exactly when it is used and nothing overrides it; and nothing is
      reported twice. */
  lemma DeprecationsAreTold(order: seq<string>, named: map<string, Value>, base: Policy, res: string, w: Warning)
    requires IsOrder(order, named)
    ensures var told := Merged(order, named, base).1;
            && (Deprecated(Source(Headroom, res)) !in told)
            && (Deprecated(Source(Increment, res)) in told <==>
                  Used(named, res, Increment) && !Used(named, res, Headroom))
            && (Deprecated(Source(Threshold, res)) in told <==>
                  Used(named, res, Threshold) && !Used(named, res, Increment) && !Used(named, res, Headroom))
            && told[w] <= 1
  {
    hide Walk, Used, HeadroomAfter, Rejects;
    WalkWarnings(order, named, base);
    UsedMeans(order, named, base, res, Headroom);
    UsedMeans(order, named, base, res, Increment);
    UsedMeans(order, named, base, res, Threshold);
  }
}
