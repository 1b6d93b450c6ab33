/** Which limit a shortage counts for (resolveQuotaKey and collectDeficits in
    internal/controller/resourcequota_controller.go), told by the names that Kubernetes uses. */
module DeficitNames {
  import opened Options
  import opened SortedLines
  import opened WindowModel
  import opened Deficits

  /** The short and the long name of one resource. */
  const TWINS := map["cpu" := "requests.cpu", "requests.cpu" := "cpu",
                     "memory" := "requests.memory", "requests.memory" := "memory",
                     "storage" := "requests.storage", "requests.storage" := "storage"]

  /** The names whose amounts count for a limit: its own, and its twin unless that is limited itself. */
  function NamesOf(hard: set<Resource>, key: Resource): set<Resource>
  {
    {key} + if key in TWINS && TWINS[key] !in hard then {TWINS[key]} else {}
  }

  lemma ResolveMeans(hard: set<Resource>, res: Resource, key: Resource)
    ensures Resolve(hard, res) == Some(key) <==> key in hard && res in NamesOf(hard, key)
  {
  }

  /** Some event that counts reports an amount under this name. */
  ghost predicate Reported(events: seq<Event>, now: int, since: Option<int>, res: Resource)
  {
    exists e :: e in events && Counts(e, now, since) && res in e.amounts
  }

  /** A warning of the last hour, not older than the last change, that a workload which is still alive could not be
      created for lack of this quota. */
  predicate Counts(e: Event, now: int, since: Option<int>)
  {
    && now - e.at <= 60 * 60 && (since == None || since.value <= e.at)
    && e.warning && e.failedCreate && e.namesQuota && e.parses && e.alive
  }

  lemma CountsMeans(events: seq<Event>, now: int, since: Option<int>, res: Resource)
    ensures res in Resources(Relevant(events, now, since)) <==> Reported(events, now, since, res)
  {
    hide Relevant;
    forall e ensures e in Relevant(events, now, since) <==> e in events && Counts(e, now, since) {
      RelevantIn(events, now, since, e);
    }
    hide Counts, Counted;
    if e :| e in Relevant(events, now, since) && res in e.amounts {}
    if e :| e in events && Counts(e, now, since) && res in e.amounts {}
  }

  lemma NothingLacks(events: seq<Event>, res: Resource)
    requires res !in Resources(events)
    ensures Lacking(events, res) == 0
  {
    forall w ensures Most(events, res, w) == 0 {
      MostIsAsked(events, res, w);
      assert forall e :: e in events && res in e.amounts ==> res in Resources(events);
    }
    SumSupport({}, Workloads(events), w => 0, w => Most(events, res, w));
  }

  /** A limit has a shortage when something was reported under its own name, or under its twin's when that is not
      limited; and it is what all workloads together lack under these names. */
  lemma ShortageOf(d: map<Resource, int>, events: seq<Event>, hard: set<Resource>, now: int, since: Option<int>,
                   key: Resource)
    requires Collected(d, events, hard, now, since)
    ensures key in d <==> key in hard && exists res :: res in NamesOf(hard, key) && Reported(events, now, since, res)
    ensures key in d ==> d[key] == Sum(NamesOf(hard, key), res => Lacking(Relevant(events, now, since), res))
  {
    hide Lacking, Resolve, NamesOf, Reported, Resources, Relevant;
    var relevant := Relevant(events, now, since);
    forall res ensures Resolve(hard, res) == Some(key) <==> key in hard && res in NamesOf(hard, key) {
      ResolveMeans(hard, res, key);
    }
    forall res ensures res in Resources(relevant) <==> Reported(events, now, since, res) {
      CountsMeans(events, now, since, res);
    }
    forall res | res !in Resources(relevant) ensures Lacking(relevant, res) == 0 { NothingLacks(relevant, res); }
    var names := NamesFor(hard, Resources(relevant), key);
    if res :| res in NamesOf(hard, key) && Reported(events, now, since, res) {
      assert key in hard ==> res in names;
    }
    if key in d {
      assert key in hard by { var res :| res in names; }
      SumSupport(names, NamesOf(hard, key), res => Lacking(relevant, res), res => Lacking(relevant, res));
    }
  }

  lemma SumOfPair(a: string, b: string, f: string -> int)
    ensures Sum({a}, f) == f(a)
    ensures a != b ==> Sum({a} + {b}, f) == f(a) + f(b)
  {
    SumInsert({}, f, a);
    assert {} + {a} == {a};
    if a != b { SumInsert({a}, f, b); }
  }

  /** The short and the long name, in either order. */
  predicate Twins(a: Resource, b: Resource)
  {
    var pairs := {("cpu", "requests.cpu"), ("memory", "requests.memory"), ("storage", "requests.storage")};
    (a, b) in pairs || (b, a) in pairs
  }

  /** Where only one of two names of a resource is limited, amounts under both count for it. */
  lemma TwinCounts(d: map<Resource, int>, events: seq<Event>, hard: set<Resource>, now: int, since: Option<int>,
                   key: Resource, other: Resource)
    requires Collected(d, events, hard, now, since) && Twins(key, other) && key in hard && other !in hard
    ensures key in d <==> Reported(events, now, since, key) || Reported(events, now, since, other)
    ensures var relevant := Relevant(events, now, since);
            key in d ==> d[key] == Lacking(relevant, key) + Lacking(relevant, other)
    ensures other !in d
  {
    hide Lacking, Relevant, Reported, Collected;
    ShortageOf(d, events, hard, now, since, key);
    ShortageOf(d, events, hard, now, since, other);
    SumOfPair(key, other, res => Lacking(Relevant(events, now, since), res));
  }

  /** Where both are, and for every name that has no twin, an amount counts for its own name alone. */
  lemma OwnNameCounts(d: map<Resource, int>, events: seq<Event>, hard: set<Resource>, now: int, since: Option<int>,
                      key: Resource)
    requires Collected(d, events, hard, now, since)
    requires forall other :: Twins(key, other) ==> other in hard
    ensures key in d <==> key in hard && Reported(events, now, since, key)
    ensures key in d ==> d[key] == Lacking(Relevant(events, now, since), key)
  {
    hide Lacking, Relevant, Reported, Collected, Twins;
    ShortageOf(d, events, hard, now, since, key);
    SumOfPair(key, key, res => Lacking(Relevant(events, now, since), res));
    TwinsAre(key);
  }

  lemma TwinsAre(key: Resource)
    ensures key in TWINS ==> Twins(key, TWINS[key])
  {
  }

  /* ---------- one and two events ---------- */

  function Positive(e: Event, res: Resource): int
  {
    if res in e.amounts && e.amounts[res] > 0 then e.amounts[res] else 0
  }

  lemma LackingOne(e: Event, res: Resource)
    ensures Lacking([e], res) == Positive(e, res)
  {
    assert Workloads([e]) == {e.workload};
    assert [e][..0] == [] && Most([e], res, e.workload) == Positive(e, res);
    SumOfPair(e.workload, e.workload, w => Most([e], res, w));
  }

  lemma RelevantOne(e: Event, now: int, since: Option<int>)
    ensures Relevant([e], now, since) == if Counts(e, now, since) then [e] else []
  {
  }

  /** One event: nothing if it does not count; otherwise each limit gets what the event reports under its name, and
      under its twin's when that is not limited. */
  lemma OneEvent(d: map<Resource, int>, e: Event, hard: set<Resource>, now: int, since: Option<int>, key: Resource)
    requires Collected(d, [e], hard, now, since)
    ensures !Counts(e, now, since) ==> d == map[]
    ensures var twin := key in TWINS && TWINS[key] !in hard;
            Counts(e, now, since) ==>
              && (key in d <==> key in hard && (key in e.amounts || (twin && TWINS[key] in e.amounts)))
              && (key in d ==> d[key] == Positive(e, key) + if twin then Positive(e, TWINS[key]) else 0)
  {
    hide Lacking, Relevant, Counts, Positive, Collected;
    RelevantOne(e, now, since);
    if Counts(e, now, since) {
      ShortageOf(d, [e], hard, now, since, key);
      OneReported(e, now, since);
      LackingOne(e, key);
      if key in TWINS {
        LackingOne(e, TWINS[key]);
        SumOfPair(key, TWINS[key], res => Lacking([e], res));
      }
      SumOfPair(key, key, res => Lacking([e], res));
    } else {
      forall k ensures k !in d {
        ShortageOf(d, [e], hard, now, since, k);
        OneReported(e, now, since);
      }
    }
  }

  lemma OneReported(e: Event, now: int, since: Option<int>)
    ensures forall res :: Reported([e], now, since, res) <==> Counts(e, now, since) && res in e.amounts
  {
    hide Counts;
    assert e in [e];
  }

  /** A processor that a workload lacks is one of its requests, although its limits are limited too. */
  lemma ProcessorsAreRequested(d: map<Resource, int>, e: Event, milli: nat, now: int, since: Option<int>)
    requires Counts(e, now, since) && e.amounts == map["cpu" := milli]
    requires Collected(d, [e], {"requests.cpu", "limits.cpu"}, now, since)
    ensures d == map["requests.cpu" := milli]
  {
    hide Counts, Collected;
    forall key ensures key in d <==> key == "requests.cpu" {
      OneEvent(d, e, {"requests.cpu", "limits.cpu"}, now, since, key);
    }
    OneEvent(d, e, {"requests.cpu", "limits.cpu"}, now, since, "requests.cpu");
  }

  /** Two reports of one workload are one shortage, the larger; those of two workloads add up. */
  lemma TwoEvents(d: map<Resource, int>, e: Event, f: Event, key: Resource, x: nat, y: nat, hard: set<Resource>,
                  now: int, since: Option<int>)
    requires Counts(e, now, since) && e.amounts == map[key := x] && Counts(f, now, since) && f.amounts == map[key := y]
    requires Collected(d, [e, f], hard, now, since) && key in hard
    ensures d == map[key := if e.workload != f.workload then x + y else if x < y then y else x]
  {
    hide Counts, Collected, Lacking, Relevant;
    RelevantTwo(e, f, now, since);
    forall k ensures k in d <==> k == key {
      ShortageOf(d, [e, f], hard, now, since, k);
      TwoReported(e, f, key, now, since);
      assert key in NamesOf(hard, key);
    }
    ShortageOf(d, [e, f], hard, now, since, key);
    LackingTwo(e, f, key);
    if key in TWINS { NothingLacks([e, f], TWINS[key]); }
    SumOfPair(key, key, res => Lacking([e, f], res));
    if key in TWINS { SumOfPair(key, TWINS[key], res => Lacking([e, f], res)); }
  }

  lemma TwoReported(e: Event, f: Event, key: Resource, now: int, since: Option<int>)
    requires Counts(e, now, since) && Counts(f, now, since) && e.amounts.Keys == f.amounts.Keys == {key}
    ensures forall res :: Reported([e, f], now, since, res) <==> res == key
  {
    hide Counts;
    assert e in [e, f];
  }

  lemma RelevantTwo(e: Event, f: Event, now: int, since: Option<int>)
    requires Counts(e, now, since) && Counts(f, now, since)
    ensures Relevant([e, f], now, since) == [e, f]
  {
    assert [e, f][..1] == [e];
    RelevantOne(e, now, since);
    assert Relevant([e, f], now, since) == Relevant([e], now, since) + [f];
  }

  lemma LackingTwo(e: Event, f: Event, key: Resource)
    requires key in e.amounts && key in f.amounts
    ensures var x, y := Positive(e, key), Positive(f, key);
            Lacking([e, f], key) == if e.workload != f.workload then x + y else if x < y then y else x
  {
    assert [e, f] == [e] + [f];
    MostOfOne([e], f, key, e.workload);
    MostOfOne([e], f, key, f.workload);
    forall w ensures Most([e], key, w) == if w == e.workload then Positive(e, key) else 0 {}
    assert Workloads([e, f]) == {e.workload} + {f.workload};
    assert e.workload == f.workload ==> {e.workload} + {f.workload} == {e.workload};
    SumOfPair(e.workload, f.workload, w => Most([e, f], key, w));
  }
}
