/** Which setting and which unit a quota key gets (internal/sizing/policy.go, internal/sizing/quantity.go): the
    lookups, told by the keys that Kubernetes knows and by what a key mentions. */
module QuotaKeys {
  import opened Options
  import opened Strings
  import opened Clock
  import opened Quantities
  import opened Policies
  import opened WindowModel
  import opened DecisionRule
  import opened DecisionProperties

  /** The part stands at this place in the text. */
  predicate At(s: string, part: string, i: int)
  {
    0 <= i <= |s| - |part| && s[i..i + |part|] == part
  }

  ghost predicate Mentions(s: string, part: string)
  {
    exists i :: At(s, part, i)
  }

  lemma AtShifts(s: string, part: string, i: int)
    requires s != [] && i >= 0
    ensures At(s[1..], part, i) <==> At(s, part, i + 1)
  {
    if i + 1 <= |s| - |part| { assert s[i + 1..i + 1 + |part|] == s[1..][i..i + |part|]; }
  }

  lemma AtStart(s: string, part: string)
    ensures At(s, part, 0) <==> part <= s
  {
    if |part| <= |s| { assert s[0..|part|] == s[..|part|]; }
  }

  lemma {:induction false} ContainsIsMention(s: string, part: string)
    ensures Contains(s, part) <==> Mentions(s, part)
  {
    hide At;
    AtStart(s, part);
    AtInside(s, part);
    if s != [] {
      ContainsIsMention(s[1..], part);
      AtInside(s[1..], part);
      forall i | i >= 0 ensures At(s[1..], part, i) <==> At(s, part, i + 1) { AtShifts(s, part, i); }
      if i :| At(s[1..], part, i) { assert At(s, part, i + 1); }
      if i :| At(s, part, i) && i > 0 { assert At(s[1..], part, i - 1); }
    }
  }

  lemma AtInside(s: string, part: string)
    ensures forall i :: At(s, part, i) ==> i >= 0 && (s == [] ==> i == 0)
  {
  }

  /** The part of a key that names what it limits: all of an object count, otherwise what follows the last
      slash. */
  predicate Measures(res: string, name: string)
  {
    if "count/" <= res then name == res
    else '/' !in name && (res == name || (|res| > |name| && res[|res| - |name| - 1..] == "/" + name))
  }

  lemma {:induction false} AfterSlash(res: string, name: string)
    requires '/' !in name
    requires res == name || (|res| > |name| && res[|res| - |name| - 1..] == "/" + name)
    ensures AfterLast(res, '/') == name
  {
    if name != [] {
      var front, last := name[..|name| - 1], name[|name| - 1];
      assert name == front + [last] && last in name;
      assert res[|res| - 1] == last by {
        if res != name { assert res[|res| - |name| - 1..][|name|] == last; }
      }
      var short := res[..|res| - 1];
      if res != name {
        assert short[|short| - |front| - 1..] == ("/" + name)[..|name|] == "/" + front;
      }
      AfterSlash(short, front);
    } else if res != [] {
      assert res[|res| - 1..][0] == '/';
    }
  }

  lemma MeasureIs(res: string, name: string)
    requires Measures(res, name)
    ensures MeasureOf(res) == name
  {
    if !("count/" <= res) { AfterSlash(res, name); }
  }

  /** The key itself, or the key behind the scope of a storage class. */
  predicate Spelled(res: string, key: string)
  {
    res == key || (!("count/" <= res) && |res| > |key| && res[|res| - |key| - 1..] == "/" + key)
  }

  const CPU_KEYS := {"cpu", "requests.cpu", "limits.cpu"}
  const MEMORY_KEYS := {"memory", "requests.memory", "limits.memory"}
  const STORAGE_KEYS := {"storage", "requests.storage", "ephemeral-storage", "requests.ephemeral-storage",
                         "limits.ephemeral-storage"}
  const OBJECT_KEYS := {"pods", "services", "replicationcontrollers", "resourcequotas", "secrets", "configmaps",
                        "persistentvolumeclaims", "services.nodeports", "services.loadbalancers"}

  lemma KeyMeasures(res: string, key: string)
    requires Spelled(res, key) && Lacks(key, '/')
    ensures Measures(res, key) && !("count/" <= res)
  {
    assert '/' !in key;
    forall s: string | "count/" <= s ensures '/' in s { assert s[5] == '/'; }
  }

  predicate Lacks(s: string, c: char)
  {
    forall i :: 0 <= i < |s| ==> s[i] != c
  }

  lemma AtMeans(s: string, part: string, i: int, k: int)
    requires 0 <= k < |part|
    ensures At(s, part, i) ==> s[i + k] == part[k]
  {
    if At(s, part, i) { assert s[i..i + |part|][k] == s[i + k]; }
  }

  /** A letter of the part that the text does not have. */
  lemma Absent(s: string, part: string, k: nat)
    requires k < |part| && Lacks(s, part[k])
    ensures !Mentions(s, part)
  {
    forall i ensures !At(s, part, i) { AtMeans(s, part, i, k); }
  }

  lemma Ends(key: string, part: string)
    requires |part| <= |key| && key[|key| - |part|..] == part
    ensures Mentions(key, part)
  {
    assert At(key, part, |key| - |part|);
  }

  lemma JoinedMentions(prefix: string, base: string, part: string)
    requires |part| <= |base| && base[|base| - |part|..] == part
    ensures Mentions(prefix + base, part)
  {
    var key := prefix + base;
    assert key[|key| - |part|..] == part;
    Ends(key, part);
  }

  lemma JoinedLacks(prefix: string, base: string, c: char)
    requires Lacks(prefix, c) && Lacks(base, c)
    ensures Lacks(prefix + base, c)
  {
  }

  /** The three ways a quota limits what a container asks for. */
  predicate IsUse(prefix: string)
  {
    prefix in {"", "requests.", "limits."}
  }

  lemma UseLacks(prefix: string)
    requires IsUse(prefix)
    ensures Lacks(prefix, '/') && Lacks(prefix, 'c') && Lacks(prefix, 'y') && Lacks(prefix, 'g')
  {
  }

  lemma CpuMentions(key: string)
    requires key in CPU_KEYS
    ensures Lacks(key, '/') && Mentions(key, "cpu") && !Mentions(key, "memory") && !Mentions(key, "storage")
  {
    hide Mentions, Lacks;
    if key == "cpu" {
      CpuUse("");
      assert "" + "cpu" == key;
    } else if key == "requests.cpu" {
      CpuUse("requests.");
      assert "requests." + "cpu" == key;
    } else {
      CpuUse("limits.");
      assert "limits." + "cpu" == key;
    }
  }

  lemma CpuUse(prefix: string)
    requires IsUse(prefix)
    ensures var key := prefix + "cpu";
            Lacks(key, '/') && Mentions(key, "cpu") && !Mentions(key, "memory") && !Mentions(key, "storage")
  {
    hide Mentions, IsUse;
    UseLacks(prefix);
    assert Lacks("cpu", '/') && Lacks("cpu", 'y') && Lacks("cpu", 'g');
    hide Lacks;
    JoinedLacks(prefix, "cpu", '/');
    JoinedLacks(prefix, "cpu", 'y');
    JoinedLacks(prefix, "cpu", 'g');
    JoinedMentions(prefix, "cpu", "cpu");
    Absent(prefix + "cpu", "memory", 5);
    Absent(prefix + "cpu", "storage", 5);
  }

  lemma MemoryMentions(key: string)
    requires key in MEMORY_KEYS
    ensures Lacks(key, '/') && Mentions(key, "memory") && !Mentions(key, "cpu")
  {
    hide Mentions, Lacks;
    if key == "memory" {
      MemoryUse("");
      assert "" + "memory" == key;
    } else if key == "requests.memory" {
      MemoryUse("requests.");
      assert "requests." + "memory" == key;
    } else {
      MemoryUse("limits.");
      assert "limits." + "memory" == key;
    }
  }

  lemma MemoryUse(prefix: string)
    requires IsUse(prefix)
    ensures var key := prefix + "memory"; Lacks(key, '/') && Mentions(key, "memory") && !Mentions(key, "cpu")
  {
    hide Mentions, IsUse;
    UseLacks(prefix);
    assert Lacks("memory", '/') && Lacks("memory", 'c');
    hide Lacks;
    JoinedLacks(prefix, "memory", '/');
    JoinedLacks(prefix, "memory", 'c');
    JoinedMentions(prefix, "memory", "memory");
    Absent(prefix + "memory", "cpu", 0);
  }

  lemma StorageMentions(key: string)
    requires key in STORAGE_KEYS
    ensures Lacks(key, '/') && Mentions(key, "storage") && !Mentions(key, "cpu") && !Mentions(key, "memory")
  {
    hide Mentions, Lacks;
    if key == "storage" {
      StorageUse("", "");
      assert "" + ("" + "storage") == key;
    } else if key == "requests.storage" {
      StorageUse("requests.", "");
      assert "requests." + ("" + "storage") == key;
    } else if key == "ephemeral-storage" {
      StorageUse("", "ephemeral-");
      assert "" + ("ephemeral-" + "storage") == key;
    } else if key == "requests.ephemeral-storage" {
      StorageUse("requests.", "ephemeral-");
      assert "requests." + ("ephemeral-" + "storage") == key;
    } else {
      StorageUse("limits.", "ephemeral-");
      assert "limits." + ("ephemeral-" + "storage") == key;
    }
  }

  lemma StorageUse(prefix: string, kind: string)
    requires IsUse(prefix) && kind in {"", "ephemeral-"}
    ensures var key := prefix + (kind + "storage");
            Lacks(key, '/') && Mentions(key, "storage") && !Mentions(key, "cpu") && !Mentions(key, "memory")
  {
    hide Mentions, IsUse;
    UseLacks(prefix);
    assert Lacks(kind + "storage", '/') && Lacks(kind + "storage", 'c') && Lacks(kind + "storage", 'y');
    hide Lacks;
    JoinedLacks(prefix, kind + "storage", '/');
    JoinedLacks(prefix, kind + "storage", 'c');
    JoinedLacks(prefix, kind + "storage", 'y');
    assert (kind + "storage")[|kind|..] == "storage";
    JoinedMentions(prefix, kind + "storage", "storage");
    Absent(prefix + (kind + "storage"), "cpu", 0);
    Absent(prefix + (kind + "storage"), "memory", 5);
  }

  lemma ObjectsMention(key: string)
    requires key in OBJECT_KEYS
    ensures Lacks(key, '/') && !Mentions(key, "cpu") && !Mentions(key, "memory") && !Mentions(key, "storage")
  {
    hide Mentions;
    if key in {"services.nodeports", "replicationcontrollers", "configmaps"} {
      WithoutU(key);
    } else if key == "persistentvolumeclaims" {
      ClaimsMentionNoCpu();
      Absent(key, "memory", 5);
      Absent(key, "storage", 5);
    } else {
      WithoutP(key);
    }
  }

  lemma WithoutU(key: string)
    requires key in {"services.nodeports", "replicationcontrollers", "configmaps"}
    ensures Lacks(key, '/') && !Mentions(key, "cpu") && !Mentions(key, "memory") && !Mentions(key, "storage")
  {
    hide Mentions;
    ObjectMentions(key, 2, if key == "configmaps" then 1 else 5);
  }

  lemma WithoutP(key: string)
    requires key in {"pods", "services", "services.loadbalancers", "resourcequotas", "secrets"}
    ensures Lacks(key, '/') && !Mentions(key, "cpu") && !Mentions(key, "memory") && !Mentions(key, "storage")
  {
    hide Mentions;
    ObjectMentions(key, if key == "pods" then 0 else 1, 5);
  }

  lemma ObjectMentions(key: string, c: nat, g: nat)
    requires c < 3 && Lacks(key, "cpu"[c]) && g < 7 && Lacks(key, "storage"[g]) && Lacks(key, 'y')
    ensures !Mentions(key, "cpu") && !Mentions(key, "memory") && !Mentions(key, "storage")
  {
    Absent(key, "cpu", c);
    Absent(key, "memory", 5);
    Absent(key, "storage", g);
  }

  /** The only p of this key is its first letter. */
  lemma ClaimsMentionNoCpu()
    ensures !Mentions("persistentvolumeclaims", "cpu")
  {
    var key := "persistentvolumeclaims";
    assert forall j :: 1 <= j < |key| ==> key[j] != 'p';
    forall i ensures !At(key, "cpu", i) { AtMeans(key, "cpu", i, 1); }
  }

  /* ---------- the unit of a key ---------- */

  /** The least multiple of the unit that is not below the amount. */
  predicate RoundedUp(q: int, milli: int, unit: int)
    requires unit > 0
  {
    q % unit == 0 && milli <= q < milli + unit
  }

  lemma KeyFacts(res: string, key: string)
    requires Spelled(res, key) && key in CPU_KEYS + MEMORY_KEYS + STORAGE_KEYS + OBJECT_KEYS
    ensures Measures(res, key) && MeasureOf(res) == key && !("count/" <= res)
    ensures key in CPU_KEYS ==> Mentions(key, "cpu") && !Mentions(key, "memory") && !Mentions(key, "storage")
    ensures key in MEMORY_KEYS ==> Mentions(key, "memory") && !Mentions(key, "cpu")
    ensures key in STORAGE_KEYS ==> Mentions(key, "storage") && !Mentions(key, "cpu") && !Mentions(key, "memory")
    ensures key in OBJECT_KEYS ==> !Mentions(key, "cpu") && !Mentions(key, "memory") && !Mentions(key, "storage")
  {
    hide Mentions, Lacks, CPU_KEYS, MEMORY_KEYS, STORAGE_KEYS, OBJECT_KEYS, MeasureOf;
    if key in CPU_KEYS { CpuMentions(key); }
    if key in MEMORY_KEYS { MemoryMentions(key); }
    if key in STORAGE_KEYS { StorageMentions(key); }
    if key in OBJECT_KEYS { ObjectsMention(key); }
    KeyMeasures(res, key);
    MeasureIs(res, key);
  }

  lemma ObjectsAreCounted(res: string)
    ensures IsCountable(res) <==> "count/" <= res || MeasureOf(res) in OBJECT_KEYS
  {
    hide MeasureOf;
  }

  /** Whatever scope stands before them: objects are counted in whole ones, memory and storage in whole Mi, and
      processors are not rounded. */
  lemma UnitsOfKeys(res: string, key: string, milli: int)
    requires Spelled(res, key)
    ensures key in OBJECT_KEYS ==> RoundedUp(Quantize(res, milli), milli, 1000)
    ensures key in MEMORY_KEYS + STORAGE_KEYS ==> RoundedUp(Quantize(res, milli), milli, 1024 * 1024 * 1000)
    ensures key in CPU_KEYS ==> Quantize(res, milli) == milli
  {
    hide RoundedUp, Spelled, Mentions, MeasureOf, Contains, Quantize, CPU_KEYS, MEMORY_KEYS, STORAGE_KEYS, OBJECT_KEYS,
         IsCountable;
    if key in CPU_KEYS + MEMORY_KEYS + STORAGE_KEYS + OBJECT_KEYS {
      KeyFacts(res, key);
      ObjectsAreCounted(res);
      UnitByMention(res, key, milli);
    }
  }

  /** Any key: what is counted in whole objects, else what mentions memory or storage in whole Mi. */
  lemma UnitByMention(res: string, name: string, milli: int)
    requires Measures(res, name)
    ensures var objects, bytes := "count/" <= res || name in OBJECT_KEYS,
                                  Mentions(name, "memory") || Mentions(name, "storage");
            if objects then RoundedUp(Quantize(res, milli), milli, 1000)
            else if bytes then RoundedUp(Quantize(res, milli), milli, 1024 * 1024 * 1000)
            else Quantize(res, milli) == milli
  {
    hide Mentions, MeasureOf, Contains, Quantize, OBJECT_KEYS, IsCountable;
    MeasureIs(res, name);
    ObjectsAreCounted(res);
    ContainsIsMention(name, "memory");
    ContainsIsMention(name, "storage");
    QuantizeIsLeast(res, milli, 0);
  }

  /* ---------- the headroom and the minimum of a key ---------- */

  /** The entry of the first of these names that has one. */
  function FirstOf<T>(m: map<string, T>, names: seq<string>): Option<T>
  {
    if names == [] then None else if names[0] in m then Some(m[names[0]]) else FirstOf(m, names[1..])
  }

  lemma Lookups<T>(m: map<string, T>, a: string, b: string, c: string)
    ensures FirstOf(m, [a]) == if a in m then Some(m[a]) else None
    ensures FirstOf(m, [a] + [b]) == if a in m then Some(m[a]) else if b in m then Some(m[b]) else None
    ensures FirstOf(m, [a] + [b] + [c]) == if a in m then Some(m[a]) else if b in m then Some(m[b])
                                           else if c in m then Some(m[c]) else None
  {
    assert ([a] + [b])[1..] == [b] && ([a] + [b] + [c])[1..] == [b] + [c] && ([b] + [c])[1..] == [c];
    assert [a][1..] == [b][1..] == [c][1..] == [];
    assert FirstOf(m, [b] + [c]) == if b in m then Some(m[b]) else FirstOf(m, [c]);
  }

  /** The target is the demand with this headroom, or the minimum if that is more. */
  ghost predicate Demands(inp: Input, res: Resource, headroom: real, least: Option<int>)
    requires Comparable(inp, res)
  {
    var used := inp.used[res];
    var peak := PeakOf(inp.window.days, res, Day(inp.now), inp.policy.windowDays);
    var short := if res in inp.deficits && inp.deficits[res] > 0 then used + inp.deficits[res] else used;
    var demand := Larger(short, if peak.Some? then Larger(peak.value, used) else used);
    var scaled := (demand as real * (1.0 + headroom)).Floor;
    RawTarget(inp, res) == if least.Some? then Larger(scaled, least.value) else scaled
  }

  function Larger(a: int, b: int): int
  {
    if a < b then b else a
  }

  /** Any key: an entry for the key itself wins over one for what it mentions, processors before memory before
      storage; for the headroom, the default comes next, and at last a quarter. */
  lemma TargetByMention(inp: Input, res: Resource, name: string)
    requires ValidPolicy(inp.policy) && Comparable(inp, res) && Measures(res, name)
    ensures var family := if Mentions(name, "cpu") then ["cpu"] else if Mentions(name, "memory") then ["memory"]
                          else if Mentions(name, "storage") then ["storage"] else [];
            var h := FirstOf(inp.policy.headroom, [res] + family + ["default"]);
            Demands(inp, res, if h.Some? then h.value else 0.25, FirstOf(inp.policy.minimum, [res] + family))
  {
    hide Comparable, RawTarget, Demands, Mentions, Contains, PeakOf, ValidPolicy, FirstOf, MeasureOf;
    var p := inp.policy;
    assert [res] + [] == [res];
    Lookups(p.headroom, res, "default", "");
    Lookups(p.headroom, res, "cpu", "default");
    Lookups(p.headroom, res, "memory", "default");
    Lookups(p.headroom, res, "storage", "default");
    Lookups(p.minimum, res, "cpu", "");
    Lookups(p.minimum, res, "memory", "");
    Lookups(p.minimum, res, "storage", "");
    MeasureIs(res, name);
    ContainsIsMention(name, "cpu");
    ContainsIsMention(name, "memory");
    ContainsIsMention(name, "storage");
    TargetDemands(inp, res);
  }

  lemma TargetDemands(inp: Input, res: Resource)
    requires ValidPolicy(inp.policy) && Comparable(inp, res)
    ensures Demands(inp, res, HeadroomFor(inp.policy, res), MinFor(inp.policy, res))
  {
    hide PeakOf, HeadroomFor, MinFor, Measurable, Scaled;
    var used, factor := inp.used[res], 1.0 + HeadroomFor(inp.policy, res);
    var peak := PeakOf(inp.window.days, res, Day(inp.now), inp.policy.windowDays);
    var short := if res in inp.deficits && inp.deficits[res] > 0 then used + inp.deficits[res] else used;
    var demand := Larger(short, if peak.Some? then Larger(peak.value, used) else used);
    ScaledMonotone(used, demand, factor);
    ScaledIs(demand, factor);
  }

  lemma ScaledIs(milli: int, factor: real)
    ensures Scaled(milli, factor) == (milli as real * factor).Floor
  {
  }

  /** The keys that Kubernetes knows, whatever scope stands before them. */
  lemma TargetOfKey(inp: Input, res: Resource, key: string)
    requires ValidPolicy(inp.policy) && Comparable(inp, res) && Spelled(res, key)
    requires key in CPU_KEYS + MEMORY_KEYS + STORAGE_KEYS + OBJECT_KEYS
    ensures var p := inp.policy;
            var family := if key in CPU_KEYS then ["cpu"] else if key in MEMORY_KEYS then ["memory"]
                          else if key in STORAGE_KEYS then ["storage"] else [];
            var h := FirstOf(p.headroom, [res] + family + ["default"]);
            Demands(inp, res, if h.Some? then h.value else 0.25, FirstOf(p.minimum, [res] + family))
  {
    hide Comparable, Demands, Mentions, ValidPolicy, FirstOf, Spelled, CPU_KEYS, MEMORY_KEYS, STORAGE_KEYS, OBJECT_KEYS;
    KeyFacts(res, key);
    TargetByMention(inp, res, key);
  }
}
