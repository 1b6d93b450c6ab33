/** Failed Lease writes in general: any cache, warm or cold, and a next call on any day. */
module FailedWrites {
  import opened Options
  import opened Clock
  import opened WindowModel
  import opened ObserverModel
  import opened PeakLimits

  /** What the days hold of a date; nothing when there is no bucket. */
  function PeaksOn(days: seq<Bucket>, date: int): map<Resource, Peak>
  {
    var i := IndexAt(days, date);
    if i >= 0 then days[i].peaks else map[]
  }

  /** The failed call changed a bucket or a map of peaks that the cached window still holds. */
  predicate LeavesTrace(st: Store, failed: Sample, windowDays: int)
  {
    && st.cache.Some? && Base(st.cache.value, failed.uid) == st.cache.value
    && SharedSlot(st.cache.value.days, failed.now, windowDays) >= 0
  }

  predicate LeaseCovers(raw: Raw, s: Sample)
  {
    raw.Encoded? && CoversSample(raw.view.days, s)
  }

  /** The days after a sample bound another one: on its own day together with what they held, on any other
      day as long as that day is kept. */
  lemma CoversAfterOpening(days: seq<Bucket>, next: Sample, windowDays: int, s: Sample)
    requires windowDays > 0
    ensures var r := Opened(days, next.now, windowDays);
            && (Day(s.now) == Day(next.now) ==>
                  IndexAt(r, Day(s.now)) >= 0 && r[IndexAt(r, Day(s.now))].peaks == PeaksOn(days, Day(s.now)))
            && (Day(s.now) != Day(next.now) ==>
                  (CoversSample(r, s) <==> InWindow(Day(s.now), Day(next.now), windowDays) && CoversSample(days, s)))
  {
    var kept, r, today := Surviving(days, Day(next.now), windowDays), Opened(days, next.now, windowDays), Day(next.now);
    SurvivorAt(days, today, windowDays, Day(s.now));
    if IndexAt(kept, Day(s.now)) >= 0 { SurvivingAt(days, today, windowDays, IndexAt(kept, Day(s.now))); }
    hide Surviving, Survivors, PeaksCover;
    assert (kept + [NewBucket(next.now)])[..|kept|] == kept;
  }

  lemma CoversAfterObserve(w: Snapshot, next: Sample, windowDays: int, s: Sample)
    requires windowDays > 0
    ensures var days := Base(w, next.uid).days;
            CoversSample(Observed(w, next, windowDays).days, s) <==>
              if Day(s.now) == Day(next.now) then PeaksCover(PeaksAfter(PeaksOn(days, Day(s.now)), next.used), s.used)
              else InWindow(Day(s.now), Day(next.now), windowDays) && CoversSample(days, s)
  {
    hide Opened, IndexAt, PeaksCover, PeaksAfter;
    var days := Base(w, next.uid).days;
    var r := Opened(days, next.now, windowDays);
    CoversAfterOpening(days, next, windowDays, s);
    var r' := Observed(w, next, windowDays).days;
    SameDatesSurvive(r, r', 0, 0, Day(s.now));
    assert Day(s.now) != Day(next.now) && IndexAt(r, Day(s.now)) >= 0 ==>
        IndexAt(r, Day(s.now)) != IndexAt(r, Day(next.now));
  }

  /** One resource is bounded by what was stored or by what the next sample brings. */
  predicate StillKnown(peaks: map<Resource, Peak>, next: map<Resource, int>, res: Resource, milli: int)
  {
    || (res in peaks && peaks[res].Amount? && milli <= peaks[res].milli)
    || (res in next && milli <= next[res])
  }

  lemma CoverByParts(peaks: map<Resource, Peak>, next: map<Resource, int>, used: map<Resource, int>)
    ensures PeaksCover(PeaksAfter(peaks, next), used) <==>
            forall res :: res in used ==> StillKnown(peaks, next, res, used[res])
  {
    var p := PeaksAfter(peaks, next);
    forall res | res in used
      ensures (res in p && p[res].Amount? && used[res] <= p[res].milli) <==> StillKnown(peaks, next, res, used[res])
    {
    }
    hide PeaksAfter, StillKnown;
  }

  /** A call that leaves a trace leaves the cache bounding its sample. */
  lemma TraceCovers(st: Store, failed: Sample, windowDays: int)
    requires windowDays > 0 && LeavesTrace(st, failed, windowDays)
    ensures CoversSample(Base(Loaded(Tainted(st, failed, windowDays)), failed.uid).days, failed)
  {
    var c := st.cache.value;
    SurvivorAt(c.days, Day(failed.now), windowDays, Day(failed.now));
    var j := SharedSlot(c.days, failed.now, windowDays);
    CoversOwn(c.days[j].peaks, failed.used);
    hide Surviving, OpeningChanges, PeaksCover, PeaksAfter;
    SameDatesSurvive(c.days, SharedAfter(c, failed, windowDays), 0, 0, Day(failed.now));
  }

  /** Without a trace, the next call finds what the failed one found, and that does not bound its sample. */
  lemma NoTrace(st: Store, failed: Sample, windowDays: int)
    requires windowDays > 0 && !LeavesTrace(st, failed, windowDays) && !LeaseCovers(st.raw, failed)
    ensures var days := Base(Loaded(st), failed.uid).days;
            Base(Loaded(Tainted(st, failed, windowDays)), failed.uid).days == days && !CoversSample(days, failed)
  {
    hide Surviving, OpeningChanges, PeaksCover, PeaksAfter, DuplicateDates;
    if st.cache.Some? {
      SurvivorAt(st.cache.value.days, Day(failed.now), windowDays, Day(failed.now));
    }
  }

  lemma CoversOwn(peaks: map<Resource, Peak>, used: map<Resource, int>)
    ensures PeaksCover(PeaksAfter(peaks, used), used)
  {
  }

  /** A failed write that would have told the Lease something is made good by the next successful call
      exactly when that call writes, the day is still in the window, and either the cache kept what the
      failed call changed, or the call is on the same day and each amount was already stored or comes again. */
  lemma FailedWriteIsRepairedIff(st: Store, failed: Sample, next: Sample, windowDays: int)
    requires windowDays > 0 && next.uid == failed.uid
    requires Writes(st, failed, windowDays) && !LeaseCovers(st.raw, failed)
    ensures var lost := Step(st, failed, windowDays, WriteFails);
            LeaseCovers(Step(lost, next, windowDays, Works).raw, failed) <==>
            && Writes(lost, next, windowDays) && InWindow(Day(failed.now), Day(next.now), windowDays)
            && (LeavesTrace(st, failed, windowDays)
                || (Day(next.now) == Day(failed.now) && forall res :: res in failed.used ==>
                      StillKnown(PeaksOn(Base(Loaded(st), failed.uid).days, Day(failed.now)), next.used, res,
                                 failed.used[res])))
  {
    hide Observed, Changed, SharedAfter, IndexAt, PeaksCover, PeaksAfter, StillKnown, LeavesTrace, OpeningChanges;
    var lost := Step(st, failed, windowDays, WriteFails);
    assert lost == Tainted(st, failed, windowDays);
    var w := Loaded(lost);
    var days := Base(w, failed.uid).days;
    CoversAfterObserve(w, next, windowDays, failed);
    CoverByParts(PeaksOn(days, Day(failed.now)), next.used, failed.used);
    if LeavesTrace(st, failed, windowDays) {
      TraceCovers(st, failed, windowDays);
      StaysCovered(PeaksOn(days, Day(failed.now)), next.used, failed.used);
    } else {
      NoTrace(st, failed, windowDays);
    }
  }

  /** And after a crash that follows the failed write, exactly when the next call writes on the same day and
      each amount was already stored in the Lease or comes again. */
  lemma CrashedWriteIsRepairedIff(raw: Raw, failed: Sample, next: Sample, windowDays: int)
    requires windowDays > 0 && next.uid == failed.uid && !LeaseCovers(raw, failed)
    ensures LeaseCovers(Step(Store(raw, None), next, windowDays, Works).raw, failed) <==>
            && Writes(Store(raw, None), next, windowDays) && Day(next.now) == Day(failed.now)
            && forall res :: res in failed.used ==>
                StillKnown(PeaksOn(Base(Decode(raw), failed.uid).days, Day(failed.now)), next.used, res,
                           failed.used[res])
  {
    hide Observed, Changed, IndexAt, PeaksCover, PeaksAfter, StillKnown, LeavesTrace;
    var st := Store(raw, None);
    var days := Base(Decode(raw), failed.uid).days;
    CoversAfterObserve(Decode(raw), next, windowDays, failed);
    CoverByParts(PeaksOn(days, Day(failed.now)), next.used, failed.used);
    ColdLeavesNoTrace(st, failed, windowDays);
    NoTrace(st, failed, windowDays);
  }

  lemma ColdLeavesNoTrace(st: Store, failed: Sample, windowDays: int)
    requires st.cache.None?
    ensures !LeavesTrace(st, failed, windowDays)
  {
  }

  /** A restart, a failed write and a lower sample that does raise a peak and is written: the Lease still
      lacks the higher one. */
  lemma ColdFailedWriteLosesPeak(c: Snapshot, failed: Sample, next: Sample)
    requires c == Snapshot("u", Some(864_100), Some(864_100),
                           [Bucket(10, 1, Some(1), Some(1), Gap(0), map["cpu" := Amount(100)])])
    requires failed == Sample(864_160, "u", map["cpu" := 900])
    requires next == Sample(864_220, "u", map["cpu" := 500])
    ensures var st := Store(Encode(c), None);
            var lost := Step(st, failed, 14, WriteFails);
            && Writes(st, failed, 14) && Writes(lost, next, 14)
            && !LeaseCovers(Step(lost, next, 14, Works).raw, failed)
  {
    hide OpeningChanges, Observed, Surviving, Opened, SharedFold, IndexAt, Changed, LeavesTrace;
    var st := Store(Encode(c), None);
    assert Decode(st.raw) == c;
    RaisedIsWritten(c, failed, 900);
    RaisedIsWritten(c, next, 500);
    assert "cpu" in failed.used && failed.used["cpu"] == 900 && Day(failed.now) == 10;
    assert !PeaksCover(c.days[0].peaks, failed.used);
    assert !StillKnown(PeaksOn(c.days, 10), next.used, "cpu", failed.used["cpu"]);
    CrashedWriteIsRepairedIff(st.raw, failed, next, 14);
  }

  /** A higher amount on the one day of a window is a change. */
  lemma RaisedIsWritten(c: Snapshot, s: Sample, milli: int)
    requires |c.days| == 1 && c.days[0].date == Day(s.now) && c.uid == s.uid && c.lastWrite.Some?
    requires c.days[0].peaks == map["cpu" := Amount(100)] && s.used == map["cpu" := milli] && milli > 100
    ensures Changed(c, s, 14) && IndexAt(c.days, Day(s.now)) == 0
  {
    hide Opened, OpeningChanges, IndexAt, Surviving, SharedFold, SharedSlot;
    assert c.days == [c.days[0]];
    OneBucket(c.days[0], s.now, 14);
    FoldInPlace(c, s, 14);
    assert "cpu" in s.used && RaisesOne(c.days[0].peaks, "cpu", s.used["cpu"]);
  }

  lemma StaysCovered(peaks: map<Resource, Peak>, next: map<Resource, int>, used: map<Resource, int>)
    requires PeaksCover(peaks, used)
    ensures PeaksCover(PeaksAfter(peaks, next), used)
  {
  }
}
