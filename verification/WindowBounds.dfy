/** How large the window gets, and that what it remembers of a day never shrinks. */
module WindowBounds {
  import opened Options
  import opened Clock
  import opened WindowModel
  import opened ObserverModel
  import opened CoverageRuns

  predicate AllInWindow(days: seq<Bucket>, today: int, windowDays: int)
  {
    forall i :: 0 <= i < |days| ==> InWindow(days[i].date, today, windowDays)
  }

  /** Increasing dates within a window are at most as many as its days. */
  lemma {:induction false} FewDates(days: seq<Bucket>, low: int, high: int)
    requires Increasing(days) && low <= high + 1 && forall i :: 0 <= i < |days| ==> low <= days[i].date <= high
    ensures |days| <= high - low + 1
  {
    if days != [] { FewDates(days[..|days| - 1], low, days[|days| - 1].date - 1); }
  }

  /** Pruning and opening keep the dates distinct and increasing and bring them into the window, whatever
      the clock says: a bucket from the future is dropped like one that is too old. */
  lemma OpenedIsBounded(days: seq<Bucket>, now: int, windowDays: int)
    requires Increasing(days) && windowDays >= 0
    ensures Increasing(Opened(days, now, windowDays))
    ensures AllInWindow(Opened(days, now, windowDays), Day(now), windowDays)
  {
    hide IndexAt, Surviving;
    SurvivingIncreases(days, Day(now), windowDays);
    var kept := Surviving(days, Day(now), windowDays);
    assert forall i :: 0 <= i < |kept| ==> kept[i] in kept;
    if IndexAt(kept, Day(now)) < 0 { AppendedDate(kept, NewBucket(now)); }
  }

  lemma ObservedIsBounded(w: Snapshot, s: Sample, windowDays: int)
    requires Increasing(w.days) && windowDays >= 0
    ensures var days := Observed(w, s, windowDays).days;
            Increasing(days) && AllInWindow(days, Day(s.now), windowDays) && |days| <= windowDays + 1
  {
    hide IndexAt, Opened, Fold;
    var base := Base(w, s.uid).days;
    var r, days := Opened(base, s.now, windowDays), Observed(w, s, windowDays).days;
    OpenedIsBounded(base, s.now, windowDays);
    SameDates(r, days, IndexAt(r, Day(s.now)), s, Base(w, s.uid).lastSample);
    FewDates(days, Day(s.now) - windowDays, Day(s.now));
  }

  lemma SameDates(days: seq<Bucket>, days': seq<Bucket>, i: int, s: Sample, lastSample: Option<int>)
    requires 0 <= i < |days| && days' == FoldedDays(days, i, s, lastSample)
    ensures |days'| == |days| && forall j :: 0 <= j < |days| ==> days'[j].date == days[j].date
  {
  }

  /* ---------- every run, with any clock, any quota object and any failure ---------- */

  /** Dates are distinct and increasing and within so many days of the last sample. */
  predicate Bounded(w: Snapshot, n: int)
  {
    && Increasing(w.days)
    && (w.days != [] ==> w.lastSample.Some? && AllInWindow(w.days, Day(w.lastSample.value), n))
  }

  predicate StoreBounded(st: Store, n: int)
  {
    (st.cache.Some? ==> Bounded(st.cache.value, n)) && (st.raw.Encoded? ==> Bounded(st.raw.view, n))
  }

  lemma SharedKeepsDates(w: Snapshot, s: Sample, windowDays: int, n: int)
    requires Bounded(w, n)
    ensures Bounded(w.(days := SharedAfter(w, s, windowDays)), n)
  {
    hide Fold, IndexAt, Surviving, OpeningChanges;
    DatesOfFold(w.days, s, w.lastSample);
  }

  lemma DatesOfFold(days: seq<Bucket>, s: Sample, lastSample: Option<int>)
    ensures forall j :: 0 <= j < |days| ==> Fold(days[j], s, lastSample).date == days[j].date
  {
  }

  lemma LoadedIsBounded(st: Store, n: int)
    requires StoreBounded(st, n)
    ensures Increasing(Loaded(st).days)
  {
    hide AllInWindow, DuplicateDates;
  }

  lemma StepKeepsBounded(st: Store, s: Sample, windowDays: int, fault: Fault, n: int)
    requires StoreBounded(st, n) && 0 <= windowDays <= n
    ensures StoreBounded(Step(st, s, windowDays, fault), n)
  {
    hide Loaded, Observed, SharedAfter, Changed, Increasing;
    LoadedIsBounded(st, n);
    ObservedIsBounded(Loaded(st), s, windowDays);
    ObservedSample(Loaded(st), s, windowDays);
    if st.cache.Some? { SharedKeepsDates(st.cache.value, s, windowDays, n); }
  }

  lemma ObservedSample(w: Snapshot, s: Sample, windowDays: int)
    ensures Observed(w, s, windowDays).lastSample == Some(s.now)
  {
    hide Opened, IndexAt;
  }

  lemma {:induction false} RunIsBounded(events: seq<Event>, n: int)
    requires forall i :: 0 <= i < |events| && events[i].Observe? ==> 0 <= events[i].windowDays <= n
    ensures StoreBounded(After(events).store, n)
  {
    hide Step, Bounded;
    if events != [] {
      var e := events[|events| - 1];
      RunIsBounded(events[..|events| - 1], n);
      if e.Observe? { StepKeepsBounded(After(events[..|events| - 1]).store, e.s, e.windowDays, e.fault, n); }
    }
  }

  /** In every run, with a clock that may run backwards, quotas that may be recreated, restarts and failures
      of every kind, the cached and the persisted window have distinct, increasing dates within the window of
      their last sample, so at most one more than the largest window has days. */
  lemma WindowIsBounded(events: seq<Event>, w: Snapshot, n: int)
    requires forall i :: 0 <= i < |events| && events[i].Observe? ==> 0 <= events[i].windowDays <= n
    requires After(events).store.cache == Some(w) || w == Decode(After(events).store.raw)
    ensures Increasing(w.days) && (n >= 0 ==> |w.days| <= n + 1)
    ensures w.days != [] ==> w.lastSample.Some? && AllInWindow(w.days, Day(w.lastSample.value), n)
  {
    hide DuplicateDates, After;
    RunIsBounded(events, n);
    if w.days != [] && n >= 0 { FewDates(w.days, Day(w.lastSample.value) - n, Day(w.lastSample.value)); }
  }

  /** And a call that succeeds leaves the cached window within the window of its own sample. */
  lemma ObserveIsBounded(events: seq<Event>, s: Sample, windowDays: int, fault: Fault)
    requires forall i :: 0 <= i < |events| && events[i].Observe? ==> 0 <= events[i].windowDays
    requires 0 <= windowDays && !Errs(After(events).store, s, windowDays, fault)
    ensures var w := Step(After(events).store, s, windowDays, fault).cache;
            w.Some? && Increasing(w.value.days) && AllInWindow(w.value.days, Day(s.now), windowDays)
            && |w.value.days| <= windowDays + 1
  {
    hide Observed, Changed, Loaded, AllInWindow, SharedAfter, Increasing, After;
    var n := Largest(events);
    RunIsBounded(events, n);
    LoadedIsBounded(After(events).store, n);
    ObservedIsBounded(Loaded(After(events).store), s, windowDays);
  }

  lemma {:induction false} Largest(events: seq<Event>) returns (n: int)
    ensures forall i :: 0 <= i < |events| && events[i].Observe? ==> events[i].windowDays <= n
  {
    if events == [] {
      n := 0;
    } else {
      n := Largest(events[..|events| - 1]);
      var e := events[|events| - 1];
      if e.Observe? && e.windowDays > n { n := e.windowDays; }
    }
  }

  /* ---------- what is remembered of a day ---------- */

  /** A stored amount is not lost or lowered. */
  predicate NoLess(p: map<Resource, Peak>, q: map<Resource, Peak>, res: Resource)
  {
    res in p && p[res].Amount? ==> res in q && q[res].Amount? && q[res].milli >= p[res].milli
  }

  /** A gap is not lowered, and one that cannot be read stays so. */
  predicate NoShorter(a: Gap, b: Gap)
  {
    if a.UnreadableGap? then b.UnreadableGap? else b.Gap? && b.seconds >= a.seconds
  }

  lemma OpenedKeeps(days: seq<Bucket>, now: int, windowDays: int, date: int)
    requires IndexAt(days, date) >= 0 && InWindow(date, Day(now), windowDays)
    ensures var r := Opened(days, now, windowDays);
            IndexAt(r, date) >= 0 && r[IndexAt(r, date)] == days[IndexAt(days, date)]
  {
    var kept := Surviving(days, Day(now), windowDays);
    SurvivorAt(days, Day(now), windowDays, date);
    SurvivingAt(days, Day(now), windowDays, IndexAt(kept, date));
    hide Surviving, Survivors;
    IndexAppended(kept, NewBucket(now), date);
  }

  lemma FoldOnlyGrows(b: Bucket, s: Sample, lastSample: Option<int>, res: Resource)
    ensures var f := Fold(b, s, lastSample);
            f.first == b.first && NoLess(b.peaks, f.peaks, res) && NoShorter(b.maxGap, f.maxGap)
  {
  }

  /** As long as a day stays in the window, its peaks and its largest gap never fall, and its first
      sample is not forgotten. */
  lemma DaysOnlyGrow(w: Snapshot, s: Sample, windowDays: int, date: int, res: Resource)
    requires Base(w, s.uid) == w && IndexAt(w.days, date) >= 0
    requires windowDays >= 0 && InWindow(date, Day(s.now), windowDays)
    ensures var r := Observed(w, s, windowDays).days;
            var i, j := IndexAt(w.days, date), IndexAt(r, date);
            && j >= 0 && r[j].first == w.days[i].first
            && NoLess(w.days[i].peaks, r[j].peaks, res) && NoShorter(w.days[i].maxGap, r[j].maxGap)
  {
    hide Opened, Fold, NoLess, NoShorter;
    var days := Opened(w.days, s.now, windowDays);
    OpenedKeeps(w.days, s.now, windowDays, date);
    FoldOnlyGrows(days[IndexAt(days, date)], s, w.lastSample, res);
    SameDates(days, Observed(w, s, windowDays).days, IndexAt(days, Day(s.now)), s, w.lastSample);
    SameIndex(days, Observed(w, s, windowDays).days, date);
    hide IndexAt;
    Unchanged(days[IndexAt(days, date)], res);
  }

  lemma Unchanged(b: Bucket, res: Resource)
    ensures NoLess(b.peaks, b.peaks, res) && NoShorter(b.maxGap, b.maxGap)
  {
  }

  lemma IndexAppended(days: seq<Bucket>, b: Bucket, date: int)
    requires IndexAt(days, date) >= 0
    ensures IndexAt(days + [b], date) == IndexAt(days, date)
  {
    assert (days + [b])[..|days|] == days;
  }

  lemma {:induction false} SameIndex(a: seq<Bucket>, b: seq<Bucket>, date: int)
    requires |a| == |b| && forall i :: 0 <= i < |a| ==> a[i].date == b[i].date
    ensures IndexAt(a, date) == IndexAt(b, date)
  {
    if a != [] { SameIndex(a[..|a| - 1], b[..|b| - 1], date); }
  }
}
