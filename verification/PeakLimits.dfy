/** Where the window's promise about peaks ends: a failed write, and amounts that are too large. */
module PeakLimits {
  import opened Options
  import opened Clock
  import opened WindowModel
  import opened ObserverModel
  import opened CoverageRuns

  predicate PeaksCover(peaks: map<Resource, Peak>, used: map<Resource, int>)
  {
    forall res :: res in used ==> res in peaks && peaks[res].Amount? && used[res] <= peaks[res].milli
  }

  /** The window bounds a sample. */
  predicate CoversSample(days: seq<Bucket>, s: Sample)
  {
    var i := IndexAt(days, Day(s.now));
    i >= 0 && PeaksCover(days[i].peaks, s.used)
  }

  /** A cached window that was just written and has a bucket for the day of the sample. */
  predicate InSync(c: Snapshot, s: Sample, windowDays: int)
  {
    && c.uid == s.uid && c.lastWrite.Some?
    && IndexAt(c.days, Day(s.now)) >= 0 && !OpeningChanges(c.days, s.now, windowDays)
  }

  /** The Lease after a sample whose write failed and a second one whose calls all succeed. */
  function LeaseAfter(c: Snapshot, failed: Sample, next: Sample, windowDays: int): Raw
  {
    Step(Step(Store(Encode(c), Some(c)), failed, windowDays, WriteFails), next, windowDays, Works).raw
  }

  lemma {:induction false} SameDatesSurvive(a: seq<Bucket>, b: seq<Bucket>, today: int, windowDays: int, date: int)
    requires |a| == |b| && forall i :: 0 <= i < |a| ==> a[i].date == b[i].date
    ensures |Surviving(a, today, windowDays)| == |Surviving(b, today, windowDays)|
    ensures IndexAt(a, date) == IndexAt(b, date)
  {
    if a != [] {
      SameDatesSurvive(a[..|a| - 1], b[..|b| - 1], today, windowDays, date);
    }
  }

  /** While nothing is pruned, folding touches one bucket and the slice stays whole. */
  lemma FoldInPlace(w: Snapshot, s: Sample, windowDays: int)
    requires InSync(w, s, windowDays)
    ensures var j := IndexAt(w.days, Day(s.now));
            && Opened(w.days, s.now, windowDays) == w.days
            && SharedAfter(w, s, windowDays) == FoldedDays(w.days, j, s, w.lastSample)
            && (Changed(w, s, windowDays) <==> Raises(w.days[j].peaks, s.used))
  {
    SurvivingAll(w.days, Day(s.now), windowDays);
    hide Surviving, IndexAt;
  }

  lemma FailedStep(c: Snapshot, s: Sample, windowDays: int)
    requires InSync(c, s, windowDays) && Raises(c.days[IndexAt(c.days, Day(s.now))].peaks, s.used)
    ensures Step(Store(Encode(c), Some(c)), s, windowDays, WriteFails)
            == Store(Encode(c), Some(c.(days := FoldedDays(c.days, IndexAt(c.days, Day(s.now)), s, c.lastSample))))
  {
    FoldInPlace(c, s, windowDays);
    hide Changed, SharedAfter, Observed, IndexAt;
  }

  lemma FoldKeepsSync(c: Snapshot, s: Sample, next: Sample, windowDays: int)
    requires InSync(c, s, windowDays) && InSync(c, next, windowDays)
    ensures InSync(c.(days := FoldedDays(c.days, IndexAt(c.days, Day(s.now)), s, c.lastSample)), next, windowDays)
    ensures IndexAt(FoldedDays(c.days, IndexAt(c.days, Day(s.now)), s, c.lastSample), Day(next.now))
            == IndexAt(c.days, Day(next.now))
  {
    var d := FoldedDays(c.days, IndexAt(c.days, Day(s.now)), s, c.lastSample);
    SameDatesSurvive(c.days, d, Day(next.now), windowDays, Day(next.now));
    SurvivorAt(c.days, Day(next.now), windowDays, Day(next.now));
    SurvivorAt(d, Day(next.now), windowDays, Day(next.now));
    hide Surviving, IndexAt;
  }

  /** The Lease holds a window that bounds the sample whose write failed. */
  predicate Repaired(c: Snapshot, failed: Sample, next: Sample, windowDays: int)
  {
    var raw := LeaseAfter(c, failed, next, windowDays);
    raw.Encoded? && CoversSample(raw.view.days, failed)
  }

  lemma NextStep(raw: Raw, c: Snapshot, s: Sample, windowDays: int)
    requires InSync(c, s, windowDays)
    ensures var j := IndexAt(c.days, Day(s.now));
            var after := Step(Store(raw, Some(c)), s, windowDays, Works).raw;
            if Raises(c.days[j].peaks, s.used) || s.now - c.lastWrite.value >= 3600
            then after.Encoded? && after.view.days == FoldedDays(c.days, j, s, c.lastSample)
            else after == raw
  {
    FoldInPlace(c, s, windowDays);
    hide Changed, SharedAfter, IndexAt, Opened;
  }

  lemma RaisedPeaksCover(peaks: map<Resource, Peak>, used: map<Resource, int>, next: map<Resource, int>)
    ensures PeaksCover(PeaksAfter(PeaksAfter(peaks, used), next), used)
    ensures PeaksCover(peaks, used) <==> !Raises(peaks, used)
  {
    var p := PeaksAfter(peaks, used);
    assert PeaksCover(p, used);
    forall res | res in used
      ensures var q := PeaksAfter(p, next);
              res in q && q[res].Amount? && used[res] <= q[res].milli
    {
    }
    if PeaksCover(peaks, used) {
      assert forall res :: res in used ==> !RaisesOne(peaks, res, used[res]);
    } else {
      var res :| res in used && !(res in peaks && peaks[res].Amount? && used[res] <= peaks[res].milli);
      assert RaisesOne(peaks, res, used[res]);
    }
  }

  lemma FoldedCovers(days: seq<Bucket>, j: int, s: Sample, next: Sample, lastSample: Option<int>)
    requires 0 <= j < |days| && IndexAt(days, Day(s.now)) == j
    ensures CoversSample(FoldedDays(FoldedDays(days, j, s, lastSample), j, next, lastSample), s)
    ensures Raises(days[j].peaks, s.used) ==> !CoversSample(days, s)
  {
    var d := FoldedDays(FoldedDays(days, j, s, lastSample), j, next, lastSample);
    SameDatesSurvive(days, d, 0, 0, Day(s.now));
    hide IndexAt, PeaksCover, PeaksAfter, Raises;
    RaisedPeaksCover(days[j].peaks, s.used, next.used);
  }

  /** With a cache in step with the Lease and a next call on the same day, the Lease is repaired exactly
      when that call raises a peak of its own or the heartbeat is due. */
  lemma WarmCacheRepairsIff(c: Snapshot, failed: Sample, next: Sample, windowDays: int)
    requires InSync(c, failed, windowDays) && InSync(c, next, windowDays)
    requires Day(next.now) == Day(failed.now)
    requires Raises(c.days[IndexAt(c.days, Day(failed.now))].peaks, failed.used)
    ensures Repaired(c, failed, next, windowDays) <==>
      || Raises(PeaksAfter(c.days[IndexAt(c.days, Day(failed.now))].peaks, failed.used), next.used)
      || next.now - c.lastWrite.value >= 3600
  {
    hide IndexAt, Step, CoversSample, Raises, OpeningChanges;
    var j := IndexAt(c.days, Day(failed.now));
    var d := FoldedDays(c.days, j, failed, c.lastSample);
    FailedStep(c, failed, windowDays);
    FoldKeepsSync(c, failed, next, windowDays);
    NextStep(Encode(c), c.(days := d), next, windowDays);
    FoldedCovers(c.days, j, failed, next, c.lastSample);
  }

  /** A pair of samples that loses a peak: the second is lower and comes within the hour. */
  lemma FailedWriteLosesPeak(c: Snapshot, failed: Sample, next: Sample)
    requires c == Snapshot("u", Some(864_100), Some(864_100),
                           [Bucket(10, 1, Some(1), Some(1), Gap(0), map["cpu" := Amount(100)])])
    requires failed == Sample(864_160, "u", map["cpu" := 900])
    requires next == Sample(864_220, "u", map["cpu" := 500])
    ensures !Repaired(c, failed, next, 14)
  {
    hide Repaired;
    OneBucket(c.days[0], failed.now, 14);
    OneBucket(c.days[0], next.now, 14);
    assert "cpu" in failed.used && RaisesOne(c.days[0].peaks, "cpu", failed.used["cpu"]);
    assert !Raises(PeaksAfter(c.days[0].peaks, failed.used), next.used);
    WarmCacheRepairsIff(c, failed, next, 14);
  }

  /** A window of one bucket, for today. */
  lemma OneBucket(b: Bucket, now: nat, windowDays: int)
    requires b.date == Day(now) && windowDays > 0
    ensures IndexAt([b], Day(now)) == 0 && !OpeningChanges([b], now, windowDays)
  {
    assert [b][..0] == [];
  }

  /** Whether the peak bounds what every completed day of the window holds. */
  ghost predicate PeakBoundsDays(days: seq<Bucket>, res: Resource, today: int, windowDays: int)
  {
    var p := PeakOf(days, res, today, windowDays);
    p.Some? && forall date :: today - windowDays <= date < today && DayComplete(days, res, date)
                 ==> days[LastIndexOf(days, date)].peaks[res].milli <= p.value
  }

  function DayPeak(days: seq<Bucket>, res: Resource, date: int): int
  {
    if DayComplete(days, res, date) then days[LastIndexOf(days, date)].peaks[res].milli else 0
  }

  /** A complete window bounds all its days exactly when none of them holds an amount beyond
      64-bit milli-units and one of them holds an amount that is not negative. */
  lemma PeakBoundsDaysIff(days: seq<Bucket>, res: Resource, today: int, windowDays: int)
    requires Increasing(days) && Complete(days, res, today, windowDays)
    ensures PeakBoundsDays(days, res, today, windowDays) <==>
      && (forall date :: today - windowDays <= date < today ==> DayPeak(days, res, date) <= 9_223_372_036_854_775_000)
      && (exists date :: today - windowDays <= date < today && DayPeak(days, res, date) >= 0)
  {
    var p := PeakOf(days, res, today, windowDays);
    forall date | today - windowDays <= date < today
      ensures DayComplete(days, res, date)
      ensures Measurable(DayPeak(days, res, date)) ==> p.Some? && DayPeak(days, res, date) <= p.value
    {
      assert DayComplete(days, res, date);
      assert Counts(days[LastIndexOf(days, date)], res, today, windowDays) <==> Measurable(DayPeak(days, res, date));
    }
    if p.Some? {
      var i :| 0 <= i < |days| && Counts(days[i], res, today, windowDays) && days[i].peaks[res].milli == p.value;
      assert LastIndexOf(days, days[i].date) == i by {
        var j := LastIndexOf(days, days[i].date);
        LastIndexIsLast(days, days[i].date);
      }
      assert DayPeak(days, res, days[i].date) == p.value;
    }
  }

  lemma LastIndexIsLast(days: seq<Bucket>, date: int)
    ensures forall j :: LastIndexOf(days, date) < j < |days| ==> days[j].date != date
  {
    if days != [] && days[|days| - 1].date != date {
      LastIndexIsLast(days[..|days| - 1], date);
    }
  }

  /** A complete window of two days whose peak misses one: a used amount of 2^63 milli-units or more is
      stored, accepted by IsComplete and skipped by Peak. */
  lemma HugePeakIsSkipped(days: seq<Bucket>)
    requires days == [Bucket(8, 48, Some(0), Some(1430), Gap(1800), map["cpu" := Amount(9_223_372_036_854_775_808)]),
                      Bucket(9, 48, Some(0), Some(1430), Gap(1800), map["cpu" := Amount(100)])]
    ensures Complete(days, "cpu", 10, 2) && PeakOf(days, "cpu", 10, 2) == Some(100)
    ensures !PeakBoundsDays(days, "cpu", 10, 2)
  {
    assert days[..1][..0] == [] && days[..1] == [days[0]];
    assert LastIndexOf(days, 9) == 1 && LastIndexOf(days[..1], 8) == 0 && LastIndexOf(days, 8) == 0;
    assert DayComplete(days, "cpu", 8) && DayComplete(days, "cpu", 9);
    assert Counts(days[1], "cpu", 10, 2) && !Counts(days[0], "cpu", 10, 2);
    assert days[LastIndexOf(days, 8)].peaks["cpu"].milli > 100;
  }
}
