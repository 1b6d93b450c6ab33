/** Nothing of a deleted quota stays behind: over all runs, whatever fails, what a window holds was sampled
    from its own object since the window was started. */
module OwnSamples {
  import opened Options
  import opened Clock
  import opened WindowModel
  import opened ObserverModel
  import opened CoverageRuns
  import opened PeakRuns

  /** Every peak of a bucket is the amount of a sample of its day. */
  predicate PeaksTaken(b: Bucket, h: seq<Sample>)
  {
    forall res :: res in b.peaks ==> b.peaks[res].Amount? && TakenOnDay(b.peaks[res].milli, h, b.date, res)
  }

  predicate AllTaken(days: seq<Bucket>, h: seq<Sample>)
  {
    forall i :: 0 <= i < |days| ==> PeaksTaken(days[i], h)
  }

  ghost predicate TakenInv(w: World)
  {
    && (w.store.raw.Encoded? ==> AllTaken(w.store.raw.view.days, w.persisted))
    && (w.store.cache.Some? ==> AllTaken(w.store.cache.value.days, w.cached))
  }

  lemma TakenLater(milli: int, h: seq<Sample>, s: Sample, date: int, res: Resource)
    requires TakenOnDay(milli, h, date, res)
    ensures TakenOnDay(milli, h + [s], date, res)
  {
    var i :| 0 <= i < |h| && OnDay(h[i], date, res) && h[i].used[res] == milli;
    assert (h + [s])[i] == h[i];
  }

  lemma BucketTakenLater(b: Bucket, h: seq<Sample>, s: Sample)
    requires PeaksTaken(b, h)
    ensures PeaksTaken(b, h + [s])
  {
    hide TakenOnDay;
    forall res | res in b.peaks ensures TakenOnDay(b.peaks[res].milli, h + [s], b.date, res) {
      TakenLater(b.peaks[res].milli, h, s, b.date, res);
    }
  }

  lemma AllTakenLater(days: seq<Bucket>, h: seq<Sample>, s: Sample)
    requires AllTaken(days, h)
    ensures AllTaken(days, h + [s])
  {
    hide PeaksTaken;
    forall i | 0 <= i < |days| ensures PeaksTaken(days[i], h + [s]) { BucketTakenLater(days[i], h, s); }
  }

  lemma RaisedTaken(b: Bucket, h: seq<Sample>, s: Sample)
    requires PeaksTaken(b, h) && b.date == Day(s.now)
    ensures PeaksTaken(b.(peaks := PeaksAfter(b.peaks, s.used)), h + [s])
  {
    var h', peaks := h + [s], PeaksAfter(b.peaks, s.used);
    assert h'[|h|] == s;
    forall res | res in peaks ensures peaks[res].Amount? && TakenOnDay(peaks[res].milli, h', b.date, res) {
      if res in s.used && RaisesOne(b.peaks, res, s.used[res]) {
        assert OnDay(h'[|h|], b.date, res);
      } else {
        TakenLater(b.peaks[res].milli, h, s, b.date, res);
      }
    }
  }

  lemma SamePeaks(a: Bucket, b: Bucket, h: seq<Sample>)
    requires PeaksTaken(a, h) && a.date == b.date && a.peaks == b.peaks
    ensures PeaksTaken(b, h)
  {
  }

  lemma {:induction false} SurvivorsTaken(days: seq<Bucket>, h: seq<Sample>, today: int, windowDays: int)
    requires AllTaken(days, h)
    ensures AllTaken(Surviving(days, today, windowDays), h)
  {
    hide PeaksTaken;
    if days != [] { SurvivorsTaken(days[..|days| - 1], h, today, windowDays); }
  }

  lemma NewTaken(now: int, h: seq<Sample>)
    ensures PeaksTaken(NewBucket(now), h)
  {
  }

  lemma ObservedTaken(w: Snapshot, h: seq<Sample>, s: Sample, windowDays: int)
    requires AllTaken(Base(w, s.uid).days, h)
    ensures AllTaken(Observed(w, s, windowDays).days, h + [s])
  {
    hide PeaksTaken, IndexAt, Surviving, PeaksAfter;
    var base := Base(w, s.uid).days;
    var r := Opened(base, s.now, windowDays);
    SurvivorsTaken(base, h, Day(s.now), windowDays);
    NewTaken(s.now, h);
    assert AllTaken(r, h);
    AllTakenLater(r, h, s);
    var i := IndexAt(r, Day(s.now));
    RaisedTaken(r[i], h, s);
    SamePeaks(r[i].(peaks := PeaksAfter(r[i].peaks, s.used)), Fold(r[i], s, Base(w, s.uid).lastSample), h + [s]);
  }

  /** What a failed call leaves in the buckets that the cache shares. */
  lemma SharedTaken(view: Snapshot, h: seq<Sample>, s: Sample, windowDays: int)
    requires AllTaken(view.days, h) && view.uid != "" && s.uid != ""
    ensures AllTaken(SharedAfter(view, s, windowDays), Extended(view, h, s))
  {
    hide PeaksTaken, IndexAt, Surviving, PeaksAfter, OpeningChanges;
    if view.uid == s.uid {
      AllTakenLater(view.days, h, s);
      var j := SharedSlot(view.days, s.now, windowDays);
      if j >= 0 {
        var b := view.days[j];
        RaisedTaken(b, h, s);
        SamePeaks(b.(peaks := PeaksAfter(b.peaks, s.used)), Fold(b, s, view.lastSample), h + [s]);
      }
    }
  }

  lemma LoadedTaken(w: World, uid: string)
    requires Inv(w) && TakenInv(w) && uid != ""
    ensures AllTaken(Base(Loaded(w.store), uid).days, Basis(w, uid))
  {
    hide PeaksTaken, Sound, DuplicateDates;
  }

  lemma AloneTaken(view: Snapshot, h: seq<Sample>, s: Sample)
    requires AllTaken(view.days, h)
    ensures AllTaken(view.days, Extended(view, h, s))
  {
    hide AllTaken;
    if view.uid == s.uid { AllTakenLater(view.days, h, s); }
  }

  lemma ObserveKeepsTaken(w: World, s: Sample, windowDays: int, fault: Fault)
    requires Inv(w) && TakenInv(w) && s.uid != ""
    ensures TakenInv(Next(w, Observe(s, windowDays, fault)))
  {
    hide AllTaken, Observed, SharedAfter, Changed, Loaded, Basis, Extended, Sound;
    LoadedTaken(w, s.uid);
    ObservedTaken(Loaded(w.store), Basis(w, s.uid), s, windowDays);
    if w.store.raw.Encoded? { AloneTaken(w.store.raw.view, w.persisted, s); }
    if w.store.cache.Some? { SharedTaken(w.store.cache.value, w.cached, s, windowDays); }
  }

  lemma RestartKeepsTaken(w: World)
    requires TakenInv(w)
    ensures TakenInv(Next(w, Restart))
  {
  }

  lemma {:induction false} RunKeepsTaken(events: seq<Event>)
    requires Admissible(events)
    ensures TakenInv(After(events))
  {
    hide Next, Inv, AllTaken;
    if events != [] {
      var front, e := events[..|events| - 1], events[|events| - 1];
      RunKeepsTaken(front);
      RunKeepsInv(front);
      if e.Observe? {
        ObserveKeepsTaken(After(front), e.s, e.windowDays, e.fault);
      } else {
        RestartKeepsTaken(After(front));
      }
    }
  }

  /** Something of a bucket: a minute at which it was sampled. */
  predicate SampledAt(h: seq<Sample>, date: int, minute: Option<int>)
  {
    minute.Some? && exists i :: 0 <= i < |h| && Day(h[i].now) == date && Minute(h[i].now) == minute.value
  }

  /** In every run, whatever objects follow one another and whatever fails: the first and the last sample and
      every peak of every bucket, cached or persisted, are those of samples of the window's own object, and these
      are the last that were folded of it. Of the object that was sampled last they are the last since the UID
      changed, or they reach back beyond a change that was never stored. */
  lemma BucketsHoldOwnSamples(events: seq<Event>, view: Snapshot, h: seq<Sample>, i: nat)
    requires Admissible(events) && CoverageRuns.Holds(After(events), view, h) && i < |view.days|
    ensures forall k :: 0 <= k < |h| ==> h[k].uid == view.uid
    ensures SampledAt(h, view.days[i].date, view.days[i].first) && SampledAt(h, view.days[i].date, view.days[i].last)
    ensures forall res :: res in view.days[i].peaks ==>
      && view.days[i].peaks[res].Amount?
      && exists k :: 0 <= k < |h| && Day(h[k].now) == view.days[i].date && res in h[k].used
                     && h[k].used[res] == view.days[i].peaks[res].milli
    ensures var own := Own(Folded(events), view.uid); |h| <= |own| && own[|own| - |h|..] == h
    ensures var all := Folded(events);
            all != [] && view.uid == all[|all| - 1].uid ==> Fits(h, all)
  {
    hide After, Folded, Fits, Own, Admissible, Rests, PeaksTaken, SampledAt, CoverageRuns.Holds, TakenInv;
    HeldRests(events, view, h);
    RunKeepsTaken(events);
    HeldTaken(events, view, h);
    SoundIsSampled(view, h, i);
    TakenMeans(view.days[i], h);
  }

  lemma SoundIsSampled(view: Snapshot, h: seq<Sample>, i: nat)
    requires Rests(view, h) && i < |view.days|
    ensures forall k :: 0 <= k < |h| ==> h[k].uid == view.uid
    ensures SampledAt(h, view.days[i].date, view.days[i].first) && SampledAt(h, view.days[i].date, view.days[i].last)
  {
    hide IndexAt, Increasing, GapsUpTo, Ordered, Day, Minute;
    var b := view.days[i];
    assert BucketSound(b, h, view.lastSample.value);
    var k :| AccountsUpTo(b, h, k, view.lastSample.value);
  }

  lemma TakenMeans(b: Bucket, h: seq<Sample>)
    requires PeaksTaken(b, h)
    ensures forall res :: res in b.peaks ==>
      && b.peaks[res].Amount?
      && exists k :: 0 <= k < |h| && Day(h[k].now) == b.date && res in h[k].used
                     && h[k].used[res] == b.peaks[res].milli
  {
    forall res | res in b.peaks
      ensures exists k :: 0 <= k < |h| && Day(h[k].now) == b.date && res in h[k].used
                          && h[k].used[res] == b.peaks[res].milli
    {
      var m :| 0 <= m < |h| && OnDay(h[m], b.date, res) && h[m].used[res] == b.peaks[res].milli;
    }
  }

  lemma HeldTaken(events: seq<Event>, view: Snapshot, h: seq<Sample>)
    requires Admissible(events) && CoverageRuns.Holds(After(events), view, h) && TakenInv(After(events))
    ensures AllTaken(view.days, h)
  {
    hide After, AllTaken, Rests, DuplicateDates;
    RunKeepsInv(events);
    var w := After(events);
    if w.store.raw.Encoded? && view == Decode(w.store.raw) { HeldView(w, view); }
  }

  lemma HeldView(w: World, view: Snapshot)
    requires Inv(w) && w.store.raw.Encoded? && view == Decode(w.store.raw)
    ensures view == w.store.raw.view
  {
    hide BucketsSound, IndexAt, Increasing;
    NoDuplicates(w.store.raw.view.days);
  }

  /** A sample of another object starts over: one bucket, of today, with this sample alone. */
  lemma ResetStartsOver(w: Snapshot, s: Sample, windowDays: int)
    requires w.uid != "" && s.uid != w.uid && windowDays >= 0
    ensures Observed(w, s, windowDays)
         == Snapshot(s.uid, Some(s.now), None,
                     [Bucket(s.now / 86400, 1, Some(s.now % 86400 / 60), Some(s.now % 86400 / 60), Gap(0),
                             map res | res in s.used :: Amount(s.used[res]))])
    ensures Changed(w, s, windowDays) && SharedAfter(w, s, windowDays) == w.days
  {
    NothingKnown(s.now, windowDays);
    var b := NewBucket(s.now);
    assert Surviving([], Day(s.now), windowDays) == [];
    assert [b][..0] == [];
    assert Opened([], s.now, windowDays) == [b];
    assert PeaksAfter(map[], s.used) == map res | res in s.used :: Amount(s.used[res]);
  }

  /** What a sample makes of a bucket of its day: the first sample stays, the last one and the count move on, and
      the longest pause and every peak only rise. A pause that cannot be read is never repaired, a peak that
      cannot be read is. */
  predicate GoesOn(b: Bucket, b': Bucket, s: Sample, lastSample: Option<int>)
  {
    && b'.date == b.date && b'.n == b.n + 1 && b'.first == b.first && b'.last == Some(s.now % 86400 / 60)
    && (b.maxGap == UnreadableGap ==> b'.maxGap == UnreadableGap)
    && (b.maxGap.Gap? ==>
          && b'.maxGap.Gap? && b'.maxGap.seconds >= b.maxGap.seconds
          && (lastSample.Some? ==> b'.maxGap.seconds >= s.now - lastSample.value)
          && (b'.maxGap == b.maxGap || (lastSample.Some? && b'.maxGap.seconds == s.now - lastSample.value)))
    && b'.peaks.Keys == b.peaks.Keys + s.used.Keys
    && (forall res :: res in b.peaks && res !in s.used ==> b'.peaks[res] == b.peaks[res])
    && (forall res :: res in s.used ==>
          b'.peaks[res] == if res in b.peaks && b.peaks[res].Amount? && b.peaks[res].milli > s.used[res]
                           then b.peaks[res] else Amount(s.used[res]))
  }

  lemma FoldGoesOn(b: Bucket, s: Sample, lastSample: Option<int>)
    ensures GoesOn(b, Fold(b, s, lastSample), s, lastSample)
  {
  }

  /** A sample of the same object, or the first one of all, goes into the bucket of its day if there is one. */
  lemma SameObjectGoesOn(w: Snapshot, s: Sample, windowDays: int)
    requires (w.uid == "" || s.uid == w.uid) && windowDays >= 0 && IndexAt(w.days, Day(s.now)) >= 0
    ensures var r := Observed(w, s, windowDays);
            var i, j := IndexAt(w.days, Day(s.now)), IndexAt(r.days, Day(s.now));
            && j >= 0 && r.lastWrite == w.lastWrite && r.uid == s.uid && r.lastSample == Some(s.now)
            && GoesOn(w.days[i], r.days[j], s, w.lastSample)
  {
    hide Surviving, GoesOn, Fold;
    var r := Opened(w.days, s.now, windowDays);
    SurvivorAt(w.days, Day(s.now), windowDays, Day(s.now));
    var kept := Surviving(w.days, Day(s.now), windowDays);
    SurvivingAt(w.days, Day(s.now), windowDays, IndexAt(kept, Day(s.now)));
    hide IndexAt;
    SameIndexAfter(r, IndexAt(r, Day(s.now)), s, w.lastSample);
    FoldGoesOn(w.days[IndexAt(w.days, Day(s.now))], s, w.lastSample);
  }

  lemma SameIndexAfter(days: seq<Bucket>, i: int, s: Sample, lastSample: Option<int>)
    requires 0 <= i == IndexAt(days, Day(s.now)) < |days|
    ensures IndexAt(FoldedDays(days, i, s, lastSample), Day(s.now)) == i
  {
    hide IndexAt;
    IndexAtIsFirst(days, Day(s.now));
    IndexAtIsFirst(FoldedDays(days, i, s, lastSample), Day(s.now));
    DatesKept(days, FoldedDays(days, i, s, lastSample), Day(s.now), Day(s.now));
  }

  /* ---------- when the Lease is written ---------- */

  lemma {:induction false} SurvivingLess(days: seq<Bucket>, today: int, windowDays: int)
    ensures |Surviving(days, today, windowDays)| != |days| <==>
            exists i :: 0 <= i < |days| && (days[i].date < today - windowDays || today < days[i].date)
  {
    if days != [] {
      var front, last := days[..|days| - 1], days[|days| - 1];
      SurvivingLess(front, today, windowDays);
      assert forall i :: 0 <= i < |front| ==> days[i] == front[i];
      assert days[|front|] == last;
    }
  }

  lemma {:induction false} IndexAtFinds(days: seq<Bucket>, date: int)
    ensures IndexAt(days, date) >= 0 <==> exists i :: 0 <= i < |days| && days[i].date == date
  {
    IndexAtIsFirst(days, date);
    if IndexAt(days, date) >= 0 { assert days[IndexAt(days, date)].date == date; }
  }

  /** Some amount is new, or replaces one that cannot be read, or is more. */
  predicate Rises(b: Bucket, used: map<Resource, int>)
  {
    exists res :: res in used && !(res in b.peaks && b.peaks[res].Amount? && used[res] <= b.peaks[res].milli)
  }

  /** With a window of the same object, a call writes the Lease exactly when a bucket leaves the window, the day is
      new, an amount rises, or the last write is an hour ago. */
  lemma WritesIff(st: Store, s: Sample, windowDays: int)
    requires windowDays >= 0 && (Loaded(st).uid == "" || Loaded(st).uid == s.uid)
    ensures var w, today := Loaded(st), s.now / 86400;
            Writes(st, s, windowDays) <==>
              || (exists i :: 0 <= i < |w.days| && (w.days[i].date < today - windowDays || today < w.days[i].date))
              || (forall i :: 0 <= i < |w.days| ==> w.days[i].date != today)
              || (IndexAt(w.days, today) >= 0 && Rises(w.days[IndexAt(w.days, today)], s.used))
              || w.lastWrite.None? || s.now - w.lastWrite.value >= 60 * 60
  {
    hide IndexAt, Surviving, Loaded;
    var w, today := Loaded(st), Day(s.now);
    SurvivingLess(w.days, today, windowDays);
    IndexAtFinds(w.days, today);
    SurvivorAt(w.days, today, windowDays, today);
    if |Surviving(w.days, today, windowDays)| == |w.days| { SurvivingAll(w.days, today, windowDays); }
  }

  /** A sample of another object always writes it. */
  lemma ResetWrites(st: Store, s: Sample, windowDays: int)
    requires windowDays >= 0 && Loaded(st).uid != "" && Loaded(st).uid != s.uid
    ensures Writes(st, s, windowDays)
  {
    hide Loaded;
    ResetStartsOver(Loaded(st), s, windowDays);
  }

  /* ---------- what completeness asks for ---------- */

  lemma {:induction false} LastIndexIsLast(days: seq<Bucket>, date: int)
    ensures var i := LastIndexOf(days, date); forall j :: i < j < |days| ==> days[j].date != date
  {
    if days != [] && days[|days| - 1].date != date { LastIndexIsLast(days[..|days| - 1], date); }
  }

  /** The last bucket of the day was sampled by half past midnight and from half past eleven on, never missed more
      than an hour, and has an amount that can be read. */
  predicate SpeaksFor(days: seq<Bucket>, res: Resource, date: int, i: int)
  {
    && 0 <= i < |days| && days[i].date == date && (forall j :: i < j < |days| ==> days[j].date != date)
    && days[i].first.Some? && days[i].first.value <= 30
    && days[i].last.Some? && days[i].last.value >= 23 * 60 + 30
    && days[i].maxGap.Gap? && days[i].maxGap.seconds <= 60 * 60
    && res in days[i].peaks && days[i].peaks[res].Amount?
  }

  ghost predicate HasSpeaker(days: seq<Bucket>, res: Resource, date: int)
  {
    exists i :: SpeaksFor(days, res, date, i)
  }

  /** A window is complete exactly when each of its completed days has such a bucket. */
  lemma CompleteMeans(days: seq<Bucket>, res: Resource, today: int, windowDays: int)
    ensures Complete(days, res, today, windowDays) <==>
            forall date :: today - windowDays <= date < today ==> HasSpeaker(days, res, date)
  {
    hide LastIndexOf;
    forall date ensures DayComplete(days, res, date) <==> HasSpeaker(days, res, date) {
      LastIndexIsLast(days, date);
      if DayComplete(days, res, date) { assert SpeaksFor(days, res, date, LastIndexOf(days, date)); }
    }
  }
}
