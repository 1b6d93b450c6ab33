/** Runs in which every Lease write that is attempted succeeds: restarts, failed reads and recreated quotas are
    still possible at any point. Then the window's peaks are exactly the maxima of the samples of its object. */
module PeakRuns {
  import opened Options
  import opened Clock
  import opened WindowModel
  import opened ObserverModel
  import opened CoverageRuns

  predicate Reliable(events: seq<Event>)
  {
    forall i :: 0 <= i < |events| && events[i].Observe? ==> events[i].fault in {Works, ReadFails}
  }

  predicate OnDay(s: Sample, date: int, res: Resource)
  {
    Day(s.now) == date && res in s.used
  }

  predicate BoundsDay(milli: int, h: seq<Sample>, date: int, res: Resource)
  {
    forall i :: 0 <= i < |h| && OnDay(h[i], date, res) ==> h[i].used[res] <= milli
  }

  predicate TakenOnDay(milli: int, h: seq<Sample>, date: int, res: Resource)
  {
    exists i :: 0 <= i < |h| && OnDay(h[i], date, res) && h[i].used[res] == milli
  }

  /** A bucket's peaks are the maxima of all samples of its day, and of those only. */
  ghost predicate Exact(date: int, peaks: map<Resource, Peak>, h: seq<Sample>)
  {
    && (forall i, res :: 0 <= i < |h| && OnDay(h[i], date, res) ==> res in peaks)
    && (forall res :: res in peaks ==>
          && peaks[res].Amount?
          && BoundsDay(peaks[res].milli, h, date, res)
          && TakenOnDay(peaks[res].milli, h, date, res))
  }

  ghost predicate PeaksExact(days: seq<Bucket>, h: seq<Sample>)
  {
    forall i :: 0 <= i < |days| ==> Exact(days[i].date, days[i].peaks, h)
  }

  predicate Agree(a: seq<Bucket>, b: seq<Bucket>)
  {
    |a| == |b| && forall i :: 0 <= i < |a| ==> a[i].date == b[i].date && a[i].peaks == b[i].peaks
  }

  lemma ExactFolded(date: int, peaks: map<Resource, Peak>, h: seq<Sample>, s: Sample)
    requires Exact(date, peaks, h) && date == Day(s.now)
    ensures Exact(date, PeaksAfter(peaks, s.used), h + [s])
  {
    var h', peaks' := h + [s], PeaksAfter(peaks, s.used);
    assert h'[|h|] == s;
    forall res | res in peaks'
      ensures peaks'[res].Amount? && BoundsDay(peaks'[res].milli, h', date, res)
      ensures TakenOnDay(peaks'[res].milli, h', date, res)
    {
      if res in s.used && RaisesOne(peaks, res, s.used[res]) {
        assert OnDay(h'[|h|], date, res);
        assert res in peaks ==> BoundsDay(peaks[res].milli, h, date, res);
      } else {
        var i :| 0 <= i < |h| && OnDay(h[i], date, res) && h[i].used[res] == peaks[res].milli;
        assert h'[i] == h[i];
      }
    }
  }

  lemma ExactKept(date: int, peaks: map<Resource, Peak>, h: seq<Sample>, s: Sample)
    requires Exact(date, peaks, h) && date != Day(s.now)
    ensures Exact(date, peaks, h + [s])
  {
    var h' := h + [s];
    forall res | res in peaks
      ensures BoundsDay(peaks[res].milli, h', date, res) && TakenOnDay(peaks[res].milli, h', date, res)
    {
      var i :| 0 <= i < |h| && OnDay(h[i], date, res) && h[i].used[res] == peaks[res].milli;
      assert h'[i] == h[i];
    }
  }

  /** What is known of the peaks before a sample is folded. */
  ghost predicate ExactUpTo(w: Snapshot, h: seq<Sample>, s: Sample)
  {
    && PeaksExact(w.days, h) && Ordered(h) && DatesUpTo(w.days, Day(s.now))
    && (h != [] ==> IndexAt(w.days, Day(h[|h| - 1].now)) >= 0 && h[|h| - 1].now <= s.now)
    && Base(w, s.uid) == w
  }

  lemma NothingToday(w: Snapshot, h: seq<Sample>, s: Sample)
    requires ExactUpTo(w, h, s) && IndexAt(w.days, Day(s.now)) < 0
    ensures Exact(Day(s.now), map[], h)
  {
    forall i | 0 <= i < |h| ensures Day(h[i].now) != Day(s.now) {
      assert h[i].now <= h[|h| - 1].now;
    }
  }

  lemma ObservedExact(w: Snapshot, h: seq<Sample>, s: Sample, windowDays: int)
    requires ExactUpTo(w, h, s) && windowDays > 0
    ensures PeaksExact(Observed(w, s, windowDays).days, h + [s])
    ensures IndexAt(Observed(w, s, windowDays).days, Day(s.now)) >= 0
  {
    var r := Opened(w.days, s.now, windowDays);
    var i, r' := IndexAt(r, Day(s.now)), Observed(w, s, windowDays).days;
    hide Exact, IndexAt, Opened, Increasing;
    OpenedDates(w.days, s, windowDays);
    DatesKept(r, r', Day(s.now), Day(s.now));
    forall j | 0 <= j < |r|
      ensures Exact(r'[j].date, r'[j].peaks, h + [s])
    {
      if j != i {
        ExactKept(r[j].date, r[j].peaks, h, s);
      } else {
        if IndexAt(w.days, Day(s.now)) < 0 { NothingToday(w, h, s); }
        ExactFolded(r[i].date, r[i].peaks, h, s);
      }
    }
  }

  lemma OpenedUnchanged(days: seq<Bucket>, now: nat, windowDays: int)
    requires !OpeningChanges(days, now, windowDays)
    ensures Opened(days, now, windowDays) == days
  {
    hide IndexAt;
    SurvivingAll(days, Day(now), windowDays);
  }

  lemma PeaksUnchanged(peaks: map<Resource, Peak>, used: map<Resource, int>)
    requires !Raises(peaks, used)
    ensures PeaksAfter(peaks, used) == peaks
  {
    assert forall res :: res in used ==> !RaisesOne(peaks, res, used[res]);
  }

  /** A sample that changes nothing worth persisting leaves dates and peaks as they were. */
  lemma UnchangedAgrees(w: Snapshot, s: Sample, windowDays: int)
    requires !Changed(w, s, windowDays)
    ensures Base(w, s.uid) == w && Agree(Observed(w, s, windowDays).days, w.days)
  {
    hide Opened, OpeningChanges, IndexAt, Raises, PeaksAfter;
    NothingKnown(s.now, windowDays);
    OpenedUnchanged(w.days, s.now, windowDays);
    PeaksUnchanged(w.days[IndexAt(w.days, Day(s.now))].peaks, s.used);
  }

  ghost predicate PeakInv(w: World)
  {
    && (w.store.raw.Absent? ==> w.store.cache.None?)
    && (!w.store.raw.Absent? ==>
          && w.store.raw.Encoded? && w.persisted != []
          && var h, v := w.persisted, w.store.raw.view;
          && PeaksExact(v.days, h) && IndexAt(v.days, Day(h[|h| - 1].now)) >= 0
          && (w.store.cache.Some? ==>
                && w.cached == h && w.store.cache.value.uid == v.uid
                && Agree(w.store.cache.value.days, v.days)
                && v.lastWrite.Some? && w.store.cache.value.lastWrite == v.lastWrite
                && h[|h| - 1].now - v.lastWrite.value < 3600))
  }

  lemma AgreeKeepsExact(a: seq<Bucket>, b: seq<Bucket>, h: seq<Sample>, date: int)
    requires Agree(a, b) && PeaksExact(b, h)
    ensures PeaksExact(a, h) && (IndexAt(a, date) >= 0 <==> IndexAt(b, date) >= 0)
  {
    hide Exact;
    DatesKept(a, b, date, date);
  }

  lemma OwnExact(view: Snapshot, h: seq<Sample>, s: Sample)
    requires Rests(view, h) && EndsBy(h, s.now) && view.uid == s.uid
    requires PeaksExact(view.days, h) && h != [] && IndexAt(view.days, Day(h[|h| - 1].now)) >= 0
    ensures ExactUpTo(view, h, s)
  {
    hide Exact, BucketsSound, IndexAt, Increasing;
  }

  lemma NothingExact(s: Sample)
    ensures ExactUpTo(EMPTY, [], s)
  {
  }

  lemma LoadedExact(w: World, s: Sample)
    requires Inv(w) && PeakInv(w) && s.uid != "" && EndsBy(w.cached, s.now) && EndsBy(w.persisted, s.now)
    ensures ExactUpTo(Base(Loaded(w.store), s.uid), Basis(w, s.uid), s)
  {
    hide PeaksExact, Rests, IndexAt, ExactUpTo, EndsBy, Agree;
    LoadedUid(w);
    NothingExact(s);
    var h := w.persisted;
    if Loaded(w.store).uid == s.uid && w.store.raw.Encoded? {
      if w.store.cache.Some? {
        AgreeKeepsExact(w.store.cache.value.days, w.store.raw.view.days, h, Day(h[|h| - 1].now));
        OwnExact(w.store.cache.value, h, s);
      } else {
        OwnExact(w.store.raw.view, h, s);
        LoadedView(w);
      }
    } else if w.store.cache.None? {
      LoadedView(w);
    }
  }

  lemma LoadedView(w: World)
    requires Inv(w) && w.store.cache.None?
    ensures Loaded(w.store) == if w.store.raw.Encoded? then w.store.raw.view else EMPTY
  {
    hide BucketsSound, IndexAt, Increasing;
    if w.store.raw.Encoded? { NoDuplicates(w.store.raw.view.days); }
  }

  /** Without a write, the persisted window falls behind in nothing but stamps and gaps. */
  lemma SilentKeepsPeakInv(w: World, s: Sample, windowDays: int)
    requires Inv(w) && PeakInv(w) && s.uid != "" && windowDays > 0
    requires EndsBy(w.cached, s.now) && EndsBy(w.persisted, s.now) && !Writes(w.store, s, windowDays)
    ensures Basis(w, s.uid) == w.persisted != [] && w.store.raw.Encoded? && w.store.raw.view.uid == s.uid
    ensures var h := w.persisted + [s];
            PeakInv(World(w.store.(cache := Some(Observed(Loaded(w.store), s, windowDays))), h, h))
  {
    hide Exact, IndexAt, Opened, BucketsSound, Increasing, Extended;
    var h', loaded, observed := w.persisted + [s], Loaded(w.store), Observed(Loaded(w.store), s, windowDays);
    assert h'[|w.persisted|] == s;
    LoadedReady(w, s, windowDays);
    LoadedExact(w, s);
    UnchangedAgrees(loaded, s, windowDays);
    if w.store.raw.Encoded? { NoDuplicates(w.store.raw.view.days); }
    assert Basis(w, s.uid) == w.persisted;
    ObservedExact(loaded, w.persisted, s, windowDays);
    var v := w.store.raw.view;
    assert Agree(loaded.days, v.days) && loaded.lastWrite == v.lastWrite;
    AgreeKeepsExact(v.days, observed.days, h', Day(s.now));
  }

  /** The three ways in which a call without a failed write can end. */
  lemma NextStore(w: World, s: Sample, windowDays: int, fault: Fault)
    requires fault in {Works, ReadFails}
    ensures var observed := Observed(Loaded(w.store), s, windowDays);
            var stamped := observed.(lastWrite := Some(s.now));
            var h := Basis(w, s.uid) + [s];
            var store := if Writes(w.store, s, windowDays) then Store(Encode(stamped), Some(stamped))
                         else w.store.(cache := Some(observed));
            Next(w, Observe(s, windowDays, fault)) ==
              if w.store.cache.None? && fault == ReadFails then w
              else World(store, h, PersistedNext(w, s, windowDays, fault))
  {
    hide Observed, Changed, SharedAfter, Loaded, Basis, PersistedNext;
  }

  lemma WrittenKeepsPeakInv(h: seq<Sample>, observed: Snapshot, s: Sample)
    requires PeaksExact(observed.days, h + [s]) && IndexAt(observed.days, Day(s.now)) >= 0
    ensures var stamped := observed.(lastWrite := Some(s.now));
            PeakInv(World(Store(Encode(stamped), Some(stamped)), h + [s], h + [s]))
  {
    hide PeaksExact, IndexAt;
    assert (h + [s])[|h|] == s;
  }

  lemma PersistedOf(w: World, s: Sample, windowDays: int, fault: Fault)
    requires fault in {Works, ReadFails}
    ensures PersistedNext(w, s, windowDays, fault)
         == if Writes(w.store, s, windowDays) then Basis(w, s.uid) + [s]
            else if w.store.raw.Encoded? then Extended(w.store.raw.view, w.persisted, s) else []
  {
    hide Writes, Basis;
  }

  lemma SameBase(w: Snapshot, s: Sample, windowDays: int)
    ensures Observed(Base(w, s.uid), s, windowDays) == Observed(w, s, windowDays)
  {
    hide Opened, IndexAt, FoldedDays;
  }

  lemma NextKeepsPeakInv(w: World, s: Sample, windowDays: int, fault: Fault)
    requires Inv(w) && PeakInv(w) && fault in {Works, ReadFails} && s.uid != "" && windowDays > 0
    requires EndsBy(w.cached, s.now) && EndsBy(w.persisted, s.now)
    ensures PeakInv(Next(w, Observe(s, windowDays, fault)))
  {
    hide PeakInv, PeaksExact, IndexAt, Observed, Writes, Inv, Loaded, Next, ExactUpTo, Basis, PersistedNext, Base;
    NextStore(w, s, windowDays, fault);
    PersistedOf(w, s, windowDays, fault);
    LoadedExact(w, s);
    ObservedExact(Base(Loaded(w.store), s.uid), Basis(w, s.uid), s, windowDays);
    SameBase(Loaded(w.store), s, windowDays);
    if Writes(w.store, s, windowDays) {
      WrittenKeepsPeakInv(Basis(w, s.uid), Observed(Loaded(w.store), s, windowDays), s);
    } else {
      SilentKeepsPeakInv(w, s, windowDays);
    }
  }

  lemma RestartKeepsPeakInv(w: World)
    requires PeakInv(w)
    ensures PeakInv(Next(w, Restart))
  {
    hide PeaksExact, IndexAt, Agree;
  }

  lemma {:induction false} RunKeepsPeakInv(events: seq<Event>)
    requires Admissible(events) && Reliable(events)
    ensures PeakInv(After(events))
  {
    hide PeakInv, Next, Inv;
    if events == [] {
      InitKeepsPeakInv();
    } else {
      var front, e := events[..|events| - 1], events[|events| - 1];
      RunKeepsPeakInv(front);
      RunKeepsInv(front);
      if e.Observe? {
        HistoryBound(front, e.s.now);
        NextKeepsPeakInv(After(front), e.s, e.windowDays, e.fault);
      } else {
        RestartKeepsPeakInv(After(front));
      }
    }
  }

  lemma InitKeepsPeakInv()
    ensures PeakInv(INIT)
  {
  }

  /* ---------- nothing is missing when no write fails ---------- */

  /** The Lease holds a window of the object that was sampled last, which rests on all its samples. */
  predicate RestsOnAll(w: World, all: seq<Sample>)
  {
    && (all == [] <==> w.store.raw.Absent?)
    && (all != [] ==> w.store.raw.Encoded? && w.store.raw.view.uid == all[|all| - 1].uid && w.persisted == Stretch(all))
  }

  lemma LoadedUid(w: World)
    requires Inv(w) && PeakInv(w)
    ensures w.store.raw.Encoded? ==> Loaded(w.store).uid == w.store.raw.view.uid != ""
    ensures w.store.raw.Absent? ==> Loaded(w.store).uid == ""
    ensures w.store.cache.Some? ==> w.cached == w.persisted
  {
    hide Exact, BucketsSound, IndexAt, Increasing, Agree, PeaksExact;
    if w.store.raw.Encoded? { NoDuplicates(w.store.raw.view.days); }
  }

  lemma ObservedUid(w: Snapshot, s: Sample, windowDays: int)
    ensures Observed(w, s, windowDays).uid == s.uid
  {
    hide Opened, IndexAt, FoldedDays;
  }

  lemma NextRestsOnAll(w: World, s: Sample, windowDays: int, fault: Fault, all: seq<Sample>)
    requires Inv(w) && PeakInv(w) && RestsOnAll(w, all) && fault in {Works, ReadFails} && s.uid != "" && windowDays > 0
    requires EndsBy(w.cached, s.now) && EndsBy(w.persisted, s.now) && !(w.store.cache.None? && fault == ReadFails)
    ensures RestsOnAll(Next(w, Observe(s, windowDays, fault)), all + [s])
  {
    hide PeakInv, Inv, Observed, Writes, Loaded, Next, PersistedNext, Stretch;
    NextStore(w, s, windowDays, fault);
    PersistedOf(w, s, windowDays, fault);
    LoadedUid(w);
    ObservedUid(Loaded(w.store), s, windowDays);
    StretchStep(all, s);
    assert [] + [s] == [s];
    if !Writes(w.store, s, windowDays) { SilentKeepsPeakInv(w, s, windowDays); }
  }

  /** So it rests on every sample since the UID changed. */
  lemma {:induction false} RunRestsOnAll(events: seq<Event>)
    requires Admissible(events) && Reliable(events)
    ensures RestsOnAll(After(events), Folded(events))
  {
    hide PeakInv, Next, Inv, After, RestsOnAll, Folds;
    if events == [] {
      InitRests();
    } else {
      var front, e := events[..|events| - 1], events[|events| - 1];
      AfterLast(events);
      RunRestsOnAll(front);
      if Folds(After(front), e) {
        FoldsObserve(After(front), e);
        RunKeepsPeakInv(front);
        RunKeepsInv(front);
        HistoryBound(front, e.s.now);
        NextRestsOnAll(After(front), e.s, e.windowDays, e.fault, Folded(front));
      } else {
        QuietRests(After(front), e, Folded(front));
        assert Folded(events) == Folded(front);
      }
    }
  }

  lemma InitRests()
    ensures RestsOnAll(After([]), Folded([]))
  {
  }

  lemma QuietRests(w: World, e: Event, all: seq<Sample>)
    requires RestsOnAll(w, all) && !Folds(w, e)
    ensures RestsOnAll(Next(w, e), all)
  {
    hide Stretch, Observed, Changed, Tainted;
  }

  /** Every amount reported for a resource could be converted to milli-units. */
  predicate AllMeasurable(h: seq<Sample>, res: Resource)
  {
    forall j :: 0 <= j < |h| && res in h[j].used ==> Measurable(h[j].used[res])
  }

  lemma ExactPeakBounds(days: seq<Bucket>, h: seq<Sample>, res: Resource, today: int, windowDays: int, i: nat)
    requires PeaksExact(days, h) && AllMeasurable(h, res)
    requires i < |h| && today - windowDays <= Day(h[i].now) < today && res in h[i].used
    requires DayComplete(days, res, Day(h[i].now))
    ensures var p := PeakOf(days, res, today, windowDays); p.Some? && h[i].used[res] <= p.value
  {
    var k := LastIndexOf(days, Day(h[i].now));
    var b := days[k];
    assert Exact(b.date, b.peaks, h) && OnDay(h[i], b.date, res);
    hide Exact;
    assert TakenOnDay(b.peaks[res].milli, h, b.date, res) && BoundsDay(b.peaks[res].milli, h, b.date, res);
    var j :| 0 <= j < |h| && OnDay(h[j], b.date, res) && h[j].used[res] == b.peaks[res].milli;
    assert Counts(days[k], res, today, windowDays);
  }

  /** In a complete window, no sample of its object since the UID changed, on a completed day, exceeds the
      peak. */
  lemma PeakCoversHistory(events: seq<Event>, w: Snapshot, res: Resource, today: int, windowDays: int, i: nat)
    requires Admissible(events) && Reliable(events) && AllMeasurable(Stretch(Folded(events)), res)
    requires After(events).store.cache == Some(w) && Complete(w.days, res, today, windowDays)
    requires var h := Stretch(Folded(events));
             i < |h| && today - windowDays <= Day(h[i].now) < today && res in h[i].used
    ensures var p := PeakOf(w.days, res, today, windowDays);
            p.Some? && Stretch(Folded(events))[i].used[res] <= p.value
  {
    hide PeaksExact, AllMeasurable, Agree, DayComplete, Stretch, Folded, After, PeakOf;
    var h := Stretch(Folded(events));
    RunKeepsPeakInv(events);
    RunRestsOnAll(events);
    AgreeKeepsExact(w.days, After(events).store.raw.view.days, h, today);
    ExactPeakBounds(w.days, h, res, today, windowDays, i);
  }

  /** The cache and the Lease agree on object, dates and peaks, and the Lease lags by less than an hour. */
  lemma LeaseFollowsCache(events: seq<Event>)
    requires Admissible(events) && Reliable(events) && After(events).store.cache.Some?
    ensures var w := After(events);
            var persisted, cached := Decode(w.store.raw), w.store.cache.value;
            && Agree(cached.days, persisted.days) && cached.uid == persisted.uid
            && persisted.lastWrite.Some? && cached.lastWrite == persisted.lastWrite
            && w.cached == w.persisted == Stretch(Folded(events)) != []
            && w.cached[|w.cached| - 1].now - persisted.lastWrite.value < 3600
  {
    hide PeaksExact, IndexAt, Agree, Stretch, Folded, After, Rests;
    RunKeepsInv(events);
    RunKeepsPeakInv(events);
    RunRestsOnAll(events);
    var w := After(events);
    LoadedView(w.(store := w.store.(cache := None)));
    if Folded(events) != [] { StretchIsEnd(Folded(events)); }
  }
}
