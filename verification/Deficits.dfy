/** The shortages that blocked workloads reported (collectDeficits in
    internal/controller/resourcequota_controller.go). Amounts are milli-units. */
module Deficits {
  import opened Options
  import opened SortedLines
  import opened WindowModel
  import opened Policies
  import opened DecisionRule
  import opened DecisionProperties

  /** An event and what is read from it: whether it names the quota and parses, whether its object is
      still alive, and what the workload it belongs to asks for. */
  datatype Event = Event(
    at: int,
    warning: bool,
    failedCreate: bool,
    namesQuota: bool,
    parses: bool,
    alive: bool,
    workload: string,
    amounts: map<Resource, int>)

  /** Recent, not older than the last change, about this quota and about something alive. */
  predicate Counted(e: Event, now: int, since: Option<int>)
  {
    && e.at >= now - 3600 && (since.Some? ==> e.at >= since.value)
    && e.warning && e.failedCreate && e.namesQuota && e.parses && e.alive
  }

  /** The key under which the quota limits a resource: its own name, or the other of short and long. */
  function Resolve(hard: set<Resource>, res: Resource): (key: Option<Resource>)
    ensures key.Some? ==> key.value in hard
  {
    var other :=
      if res == "cpu" then "requests.cpu" else if res == "memory" then "requests.memory"
      else if res == "storage" then "requests.storage" else if res == "requests.cpu" then "cpu"
      else if res == "requests.memory" then "memory" else if res == "requests.storage" then "storage" else "";
    if res in hard then Some(res)
    else if other != "" && other in hard then Some(other)
    else None
  }

  /* ---------- the specification ---------- */

  /** The events that count. */
  function Relevant(events: seq<Event>, now: int, since: Option<int>): seq<Event>
  {
    if events == [] then []
    else
      var e := events[|events| - 1];
      Relevant(events[..|events| - 1], now, since) + (if Counted(e, now, since) then [e] else [])
  }

  /** The largest amount a workload asked for, or zero. */
  function Most(events: seq<Event>, res: Resource, workload: string): (m: int)
    ensures m >= 0
  {
    if events == [] then 0
    else
      var e, m := events[|events| - 1], Most(events[..|events| - 1], res, workload);
      if e.workload == workload && res in e.amounts && e.amounts[res] > m then e.amounts[res] else m
  }

  function Resources(events: seq<Event>): set<Resource>
  {
    set e, res | e in events && res in e.amounts :: res
  }

  function Workloads(events: seq<Event>): set<string>
  {
    set e | e in events :: e.workload
  }

  ghost function Sum(keys: set<string>, f: string -> int): int
  {
    if keys == {} then 0 else f(Pick(keys)) + Sum(keys - {Pick(keys)}, f)
  }

  /** What all workloads together lack of a resource. */
  ghost function Lacking(events: seq<Event>, res: Resource): int
  {
    Sum(Workloads(events), w => Most(events, res, w))
  }

  function NamesFor(hard: set<Resource>, names: set<Resource>, key: Resource): set<Resource>
  {
    set res | res in names && Resolve(hard, res) == Some(key)
  }

  /** The shortage of a quota key. */
  ghost function Deficit(events: seq<Event>, hard: set<Resource>, key: Resource): int
  {
    Sum(NamesFor(hard, Resources(events), key), res => Lacking(events, res))
  }

  /* ---------- sums ---------- */

  lemma {:induction false} SumWithout(keys: set<string>, f: string -> int, k: string)
    requires k in keys
    ensures Sum(keys, f) == f(k) + Sum(keys - {k}, f)
  {
    var p := Pick(keys);
    if p != k {
      SumWithout(keys - {p}, f, k);
      SumWithout(keys - {k}, f, p);
      assert (keys - {p}) - {k} == (keys - {k}) - {p};
    }
  }

  lemma SumInsert(keys: set<string>, f: string -> int, k: string)
    requires k !in keys
    ensures Sum(keys + {k}, f) == Sum(keys, f) + f(k)
  {
    SumWithout(keys + {k}, f, k);
    assert keys + {k} - {k} == keys;
  }

  lemma {:induction false} SumMonotone(a: set<string>, b: set<string>, f: string -> int, g: string -> int)
    requires a <= b && (forall k :: k in a ==> f(k) <= g(k)) && (forall k :: k in b ==> g(k) >= 0)
    ensures Sum(a, f) <= Sum(b, g)
    decreases |b|
  {
    if b != {} {
      var p := Pick(b);
      if p in a { SumWithout(a, f, p); }
      assert p !in a ==> a - {p} == a;
      SumMonotone(a - {p}, b - {p}, f, g);
    }
  }

  /* ---------- order, repetition, additional events ---------- */

  lemma {:induction false} MostBounds(events: seq<Event>, res: Resource, workload: string, e: Event)
    requires e in events && e.workload == workload && res in e.amounts
    ensures e.amounts[res] <= Most(events, res, workload)
  {
    var front, last := events[..|events| - 1], events[|events| - 1];
    if e != last {
      assert e in front;
      MostBounds(front, res, workload, e);
    }
  }

  lemma {:induction false} MostIsAsked(events: seq<Event>, res: Resource, workload: string)
    ensures var m := Most(events, res, workload);
            m > 0 ==> exists e :: e in events && e.workload == workload && res in e.amounts && e.amounts[res] == m
  {
    if events != [] {
      var front, last := events[..|events| - 1], events[|events| - 1];
      MostIsAsked(front, res, workload);
      var m := Most(events, res, workload);
      if m > 0 {
        if m == Most(front, res, workload) {
          var e :| e in front && e.workload == workload && res in e.amounts && e.amounts[res] == m;
          assert e in events;
        } else {
          assert last in events;
        }
      }
    }
  }

  predicate Includes(more: seq<Event>, less: seq<Event>)
  {
    forall e :: e in less ==> e in more
  }

  lemma MostMonotone(less: seq<Event>, more: seq<Event>, res: Resource, workload: string)
    requires Includes(more, less)
    ensures Most(less, res, workload) <= Most(more, res, workload)
  {
    MostIsAsked(less, res, workload);
    if Most(less, res, workload) > 0 {
      var e :| e in less && e.workload == workload && res in e.amounts && e.amounts[res] == Most(less, res, workload);
      MostBounds(more, res, workload, e);
    }
  }

  lemma {:induction false} SumNotNegative(keys: set<string>, f: string -> int)
    requires forall k :: k in keys ==> f(k) >= 0
    ensures Sum(keys, f) >= 0
  {
    if keys != {} { SumNotNegative(keys - {Pick(keys)}, f); }
  }

  lemma LackingMonotone(less: seq<Event>, more: seq<Event>, res: Resource)
    requires Includes(more, less)
    ensures 0 <= Lacking(less, res) <= Lacking(more, res)
  {
    forall w ensures Most(less, res, w) <= Most(more, res, w) { MostMonotone(less, more, res, w); }
    SumNotNegative(Workloads(less), w => Most(less, res, w));
    SumMonotone(Workloads(less), Workloads(more), w => Most(less, res, w), w => Most(more, res, w));
  }

  /** A shortage never drops when events are added, whatever their order; so neither order nor
      repetition of the events matters. */
  lemma DeficitMonotone(less: seq<Event>, more: seq<Event>, hard: set<Resource>, key: Resource)
    requires Includes(more, less)
    ensures Deficit(less, hard, key) <= Deficit(more, hard, key)
    ensures Includes(less, more) ==> Deficit(less, hard, key) == Deficit(more, hard, key)
  {
    DeficitGrows(less, more, hard, key);
    if Includes(less, more) { DeficitGrows(more, less, hard, key); }
  }

  /** The events that count are those of the list that are counted, in any order. */
  lemma {:induction false} RelevantIn(events: seq<Event>, now: int, since: Option<int>, e: Event)
    ensures e in Relevant(events, now, since) <==> e in events && Counted(e, now, since)
  {
    hide Counted;
    if events != [] {
      RelevantIn(events[..|events| - 1], now, since, e);
      assert events == events[..|events| - 1] + [events[|events| - 1]];
    }
  }

  lemma RelevantIncludes(less: seq<Event>, more: seq<Event>, now: int, since: Option<int>)
    requires Includes(more, less)
    ensures Includes(Relevant(more, now, since), Relevant(less, now, since))
  {
    forall e | e in Relevant(less, now, since) ensures e in Relevant(more, now, since) {
      RelevantIn(less, now, since, e);
      RelevantIn(more, now, since, e);
    }
  }

  lemma DeficitGrows(less: seq<Event>, more: seq<Event>, hard: set<Resource>, key: Resource)
    requires Includes(more, less)
    ensures Deficit(less, hard, key) <= Deficit(more, hard, key)
  {
    hide Lacking, Resolve;
    forall res ensures Lacking(less, res) <= Lacking(more, res) && Lacking(more, res) >= 0 {
      LackingMonotone(less, more, res);
    }
    SumMonotone(NamesFor(hard, Resources(less), key), NamesFor(hard, Resources(more), key),
                res => Lacking(less, res), res => Lacking(more, res));
  }

  /* ---------- the loops ---------- */

  /** The table of maxima, by resource and workload, without the zeros. */
  ghost predicate IsRow(row: map<string, int>, events: seq<Event>, res: Resource)
  {
    forall w :: (w in row <==> Most(events, res, w) > 0) && (w in row ==> row[w] == Most(events, res, w))
  }

  ghost predicate IsTable(t: map<Resource, map<string, int>>, events: seq<Event>)
  {
    t.Keys == Resources(events) && forall res :: res in t ==> IsRow(t[res], events, res)
  }

  /** An event with some of its amounts. */
  function Part(e: Event, done: set<Resource>): Event
  {
    e.(amounts := map res | res in e.amounts && res in done :: e.amounts[res])
  }

  lemma MostOfOne(events: seq<Event>, e: Event, res: Resource, w: string)
    ensures Most(events + [e], res, w)
         == if e.workload == w && res in e.amounts && e.amounts[res] > Most(events, res, w) then e.amounts[res]
            else Most(events, res, w)
  {
    assert (events + [e])[..|events|] == events;
  }

  lemma ResourcesOfOne(events: seq<Event>, e: Event)
    ensures Resources(events + [e]) == Resources(events) + e.amounts.Keys
  {
    forall res | res in Resources(events) ensures res in Resources(events + [e]) {
      var x :| x in events && res in x.amounts;
      assert x in events + [e];
    }
    assert e in events + [e];
  }

  lemma RowKept(row: map<string, int>, events: seq<Event>, e: Event, res: Resource, done: set<Resource>,
                done': set<Resource>)
    requires IsRow(row, events + [Part(e, done)], res) && (res in done <==> res in done')
    ensures IsRow(row, events + [Part(e, done')], res)
  {
    forall w ensures Most(events + [Part(e, done)], res, w) == Most(events + [Part(e, done')], res, w) {
      MostOfOne(events, Part(e, done), res, w);
      MostOfOne(events, Part(e, done'), res, w);
    }
  }

  lemma NoPart(t: map<Resource, map<string, int>>, events: seq<Event>, e: Event)
    requires IsTable(t, events)
    ensures IsTable(t, events + [Part(e, {})])
  {
    ResourcesOfOne(events, Part(e, {}));
    forall res, w ensures Most(events + [Part(e, {})], res, w) == Most(events, res, w) {
      MostOfOne(events, Part(e, {}), res, w);
    }
  }

  /** One amount of an event. */
  function RowAfter(row: map<string, int>, w: string, value: int): map<string, int>
  {
    if value > (if w in row then row[w] else 0) then row[w := value] else row
  }

  lemma RowChanged(row: map<string, int>, events: seq<Event>, e: Event, res: Resource, done: set<Resource>)
    requires res in e.amounts && res !in done && IsRow(row, events + [Part(e, done)], res)
    ensures IsRow(RowAfter(row, e.workload, e.amounts[res]), events + [Part(e, done + {res})], res)
  {
    forall w
      ensures Most(events + [Part(e, done)], res, w) == Most(events, res, w)
      ensures Most(events + [Part(e, done + {res})], res, w)
           == if e.workload == w && e.amounts[res] > Most(events, res, w) then e.amounts[res] else Most(events, res, w)
    {
      MostOfOne(events, Part(e, done), res, w);
      MostOfOne(events, Part(e, done + {res}), res, w);
    }
  }

  lemma NoRow(events: seq<Event>, res: Resource)
    requires res !in Resources(events)
    ensures IsRow(map[], events, res)
  {
    assert forall e :: e in events && res in e.amounts ==> res in Resources(events);
    forall w ensures Most(events, res, w) == 0 { MostIsAsked(events, res, w); }
  }

  lemma PartKeys(e: Event, done: set<Resource>)
    requires done <= e.amounts.Keys
    ensures Part(e, done).amounts.Keys == done
  {
  }

  lemma TableStep(t: map<Resource, map<string, int>>, events: seq<Event>, e: Event, res: Resource, done: set<Resource>)
    requires res in e.amounts && res !in done && done <= e.amounts.Keys && IsTable(t, events + [Part(e, done)])
    ensures var row := if res in t then t[res] else map[];
            IsTable(t[res := RowAfter(row, e.workload, e.amounts[res])], events + [Part(e, done + {res})])
  {
    hide IsRow, RowAfter, Most, Resources, Part;
    var row := if res in t then t[res] else map[];
    if res !in t { NoRow(events + [Part(e, done)], res); }
    RowChanged(row, events, e, res, done);
    ResourcesOfOne(events, Part(e, done));
    ResourcesOfOne(events, Part(e, done + {res}));
    PartKeys(e, done);
    PartKeys(e, done + {res});
    forall r | r in t && r != res ensures IsRow(t[r], events + [Part(e, done + {res})], r) {
      RowKept(t[r], events, e, r, done, done + {res});
    }
  }

  /** The amounts of one event, in any order. */
  method AddEvent(t: map<Resource, map<string, int>>, e: Event, ghost events: seq<Event>)
    returns (r: map<Resource, map<string, int>>)
    requires IsTable(t, events)
    ensures IsTable(r, events + [e])
  {
    hide IsTable;
    r := t;
    var todo := e.amounts.Keys;
    NoPart(t, events, e);
    assert e.amounts.Keys - todo == {};
    while todo != {}
      invariant todo <= e.amounts.Keys
      invariant IsTable(r, events + [Part(e, e.amounts.Keys - todo)])
    {
      var res :| res in todo;
      TableStep(r, events, e, res, e.amounts.Keys - todo);
      assert e.amounts.Keys - todo + {res} == e.amounts.Keys - (todo - {res});
      todo := todo - {res};
      ghost var before, row := r, if res in r then r[res] else map[];
      if res !in r {
        r := r[res := map[]];
      }
      if e.amounts[res] > if e.workload in r[res] then r[res][e.workload] else 0 {
        r := r[res := r[res][e.workload := e.amounts[res]]];
      }
      assert r == before[res := RowAfter(row, e.workload, e.amounts[res])];
    }
    assert Part(e, e.amounts.Keys - todo) == e;
  }

  lemma RelevantStep(events: seq<Event>, i: nat, now: int, since: Option<int>)
    requires i < |events|
    ensures Relevant(events[..i + 1], now, since)
         == if Counted(events[i], now, since) then Relevant(events[..i], now, since) + [events[i]]
            else Relevant(events[..i], now, since)
  {
    assert events[..i + 1][..i] == events[..i];
  }

  /** The events in order; those that do not count are skipped. */
  method PerWorkload(events: seq<Event>, now: int, since: Option<int>) returns (t: map<Resource, map<string, int>>)
    ensures IsTable(t, Relevant(events, now, since))
  {
    t := map[];
    assert IsTable(t, []);
    hide IsTable, Counted;
    for i := 0 to |events|
      invariant IsTable(t, Relevant(events[..i], now, since))
    {
      RelevantStep(events, i, now, since);
      if Counted(events[i], now, since) {
        t := AddEvent(t, events[i], Relevant(events[..i], now, since));
      }
    }
    assert events[..|events|] == events;
  }

  function At(m: map<string, int>, k: string): int
  {
    if k in m then m[k] else 0
  }

  method SumOf(m: map<string, int>) returns (total: int)
    ensures total == Sum(m.Keys, k => At(m, k))
  {
    total := 0;
    var todo := m.Keys;
    assert m.Keys - todo == {};
    while todo != {}
      invariant todo <= m.Keys && total == Sum(m.Keys - todo, k => At(m, k))
    {
      var k :| k in todo;
      SumInsert(m.Keys - todo, x => At(m, x), k);
      assert m.Keys - (todo - {k}) == m.Keys - todo + {k};
      todo, total := todo - {k}, total + m[k];
    }
    assert m.Keys - todo == m.Keys;
  }

  lemma {:induction false} SumSupport(a: set<string>, b: set<string>, f: string -> int, g: string -> int)
    requires a <= b && (forall k :: k in a ==> f(k) == g(k)) && (forall k :: k in b - a ==> g(k) == 0)
    ensures Sum(a, f) == Sum(b, g)
    decreases |b|
  {
    if b != {} {
      var p := Pick(b);
      if p in a { SumWithout(a, f, p); }
      assert p !in a ==> a - {p} == a;
      SumSupport(a - {p}, b - {p}, f, g);
    }
  }

  /** The sum over the row is what the workloads lack. */
  lemma RowSum(row: map<string, int>, events: seq<Event>, res: Resource)
    requires IsRow(row, events, res)
    ensures Sum(row.Keys, k => At(row, k)) == Lacking(events, res)
  {
    forall w | w in row ensures w in Workloads(events) {
      MostIsAsked(events, res, w);
      var e :| e in events && e.workload == w;
    }
    SumSupport(row.Keys, Workloads(events), k => At(row, k), w => Most(events, res, w));
  }

  /** The shortages that a set of resource names adds up to. */
  ghost predicate IsTotal(d: map<Resource, int>, hard: set<Resource>, events: seq<Event>, names: set<Resource>)
  {
    && (forall key :: key in d <==> NamesFor(hard, names, key) != {})
    && (forall key :: key in d ==> d[key] == Sum(NamesFor(hard, names, key), res => Lacking(events, res)))
  }

  lemma TotalStep(d: map<Resource, int>, hard: set<Resource>, events: seq<Event>, names: set<Resource>, res: Resource)
    requires IsTotal(d, hard, events, names) && res !in names
    ensures var key := Resolve(hard, res);
            IsTotal(if key.None? then d else d[key.value := At(d, key.value) + Lacking(events, res)],
                    hard, events, names + {res})
  {
    hide Lacking, Resolve;
    var key := Resolve(hard, res);
    forall k | key != Some(k) ensures NamesFor(hard, names + {res}, k) == NamesFor(hard, names, k) {}
    if key.Some? {
      assert NamesFor(hard, names + {res}, key.value) == NamesFor(hard, names, key.value) + {res};
      SumInsert(NamesFor(hard, names, key.value), r => Lacking(events, r), res);
    }
  }

  /** collectDeficits: per quota key, the sum over its resource names and over the workloads of the
      largest amount any event reports. */
  method CollectDeficits(events: seq<Event>, hard: set<Resource>, now: int, since: Option<int>)
    returns (deficits: map<Resource, int>)
    ensures IsTotal(deficits, hard, Relevant(events, now, since), Resources(Relevant(events, now, since)))
    ensures forall key :: key in deficits ==> deficits[key] == Deficit(Relevant(events, now, since), hard, key)
    ensures forall key :: key in deficits <==> NamesFor(hard, Resources(Relevant(events, now, since)), key) != {}
  {
    hide Lacking, Resolve, IsRow, IsTotal, NamesFor, Resources, Deficit, Relevant;
    var t := PerWorkload(events, now, since);
    ghost var relevant := Relevant(events, now, since);
    deficits := map[];
    NoTotal(hard, relevant);
    var todo := t.Keys;
    assert t.Keys - todo == {};
    while todo != {}
      invariant todo <= t.Keys && IsTotal(deficits, hard, relevant, t.Keys - todo)
    {
      var res :| res in todo;
      var total := SumOf(t[res]);
      RowSum(t[res], relevant, res);
      TotalStep(deficits, hard, relevant, t.Keys - todo, res);
      assert t.Keys - (todo - {res}) == t.Keys - todo + {res};
      todo := todo - {res};
      var key := Resolve(hard, res);
      if key.Some? {
        deficits := deficits[key.value := At(deficits, key.value) + total];
      }
    }
    assert t.Keys - todo == Resources(relevant);
    TotalMeans(deficits, hard, relevant);
  }

  lemma NoTotal(hard: set<Resource>, events: seq<Event>)
    ensures IsTotal(map[], hard, events, {})
  {
  }

  lemma TotalMeans(d: map<Resource, int>, hard: set<Resource>, events: seq<Event>)
    requires IsTotal(d, hard, events, Resources(events))
    ensures forall key :: key in d ==> d[key] == Deficit(events, hard, key)
    ensures forall key :: key in d <==> NamesFor(hard, Resources(events), key) != {}
  {
    hide Lacking, NamesFor, Resources;
  }

  /** What a scan of the raw event list collects. */
  ghost predicate Collected(d: map<Resource, int>, events: seq<Event>, hard: set<Resource>, now: int,
                            since: Option<int>)
  {
    IsTotal(d, hard, Relevant(events, now, since), Resources(Relevant(events, now, since)))
  }

  /** A scan that finds more events collects at least the same shortages; two scans that find the same
      events, in any order and however often, collect the same. */
  lemma MoreEventsAreNoSmaller(less: seq<Event>, more: seq<Event>, hard: set<Resource>, now: int, since: Option<int>,
                               a: map<Resource, int>, b: map<Resource, int>)
    requires Includes(more, less) && Collected(a, less, hard, now, since) && Collected(b, more, hard, now, since)
    ensures NoSmaller(b, a)
    ensures Includes(less, more) ==> a == b
  {
    hide Lacking, Resolve, Most, Relevant;
    var l, m := Relevant(less, now, since), Relevant(more, now, since);
    RelevantIncludes(less, more, now, since);
    forall key | key in a && a[key] > 0 ensures key in b && b[key] >= a[key] {
      DeficitMonotone(l, m, hard, key);
      assert key in b || NamesFor(hard, Resources(m), key) == {};
    }
    if Includes(less, more) {
      RelevantIncludes(more, less, now, since);
      assert Resources(l) == Resources(m);
      forall key | key in a ensures a[key] == b[key] { DeficitMonotone(l, m, hard, key); }
      assert a.Keys == b.Keys;
    }
  }

  /** Down to the decision: with more events a grow stays a grow, a shrink only loses resources, and no
      value is lowered. */
  lemma MoreEventsNeverProposeLess(less: seq<Event>, more: seq<Event>, since: Option<int>, inp: Input,
                                   b: map<Resource, int>, d: Decision, d': Decision, res: Resource)
    requires ValidPolicy(inp.policy) && inp.policy.enabled && Includes(more, less)
    requires Collected(inp.deficits, less, inp.hard.Keys, inp.now, since)
    requires Collected(b, more, inp.hard.Keys, inp.now, since)
    requires IsDecision(d, inp) && IsDecision(d', inp.(deficits := b))
    ensures d.direction == Grow ==> d'.direction == Grow && (res in d.targets ==> res in d'.targets)
    ensures d'.direction == Shrink ==> d.direction != Grow && (res in d'.targets ==> Recedes(inp, res))
    ensures d'.direction == d.direction && res in d.targets && res in d'.targets ==> d.targets[res] <= d'.targets[res]
  {
    hide IsDecision, Recedes, Collected, ValidPolicy;
    MoreEventsAreNoSmaller(less, more, inp.hard.Keys, inp.now, since, inp.deficits, b);
    MoreShortage(inp, b, d, d', res);
  }
}
