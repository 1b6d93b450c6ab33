/** Without crashes and failures the coverage facts are exact: a day counts as covered when, and only when, it
    was observed. */
module CoverageExact {
  import opened Options
  import opened Clock
  import opened WindowModel
  import opened ObserverModel
  import opened CoverageRuns
  import opened CoverageGate

  /** Samples of one quota object, in order, each with a value. */
  predicate Steady(h: seq<Sample>, uid: string, res: Resource)
  {
    Ordered(h) && forall i :: 0 <= i < |h| ==> h[i].uid == uid && res in h[i].used
  }

  predicate On(h: seq<Sample>, date: int, i: int)
  {
    0 <= i < |h| && Day(h[i].now) == date
  }

  /** The pause before a sample, if there is one before it. */
  function Pause(h: seq<Sample>, i: int): int
    requires 0 <= i < |h|
  {
    if i == 0 then 0 else h[i].now - h[i - 1].now
  }

  /** The longest pause that ended on the date, or zero. */
  ghost predicate LongestPause(h: seq<Sample>, date: int, gap: int)
  {
    && (forall i :: On(h, date, i) ==> Pause(h, i) <= gap)
    && (gap == 0 || exists i :: On(h, date, i) && Pause(h, i) == gap)
  }

  ghost predicate FirstMinute(h: seq<Sample>, date: int, m: int)
  {
    && (forall i :: On(h, date, i) ==> m <= Minute(h[i].now))
    && exists i :: On(h, date, i) && Minute(h[i].now) == m
  }

  ghost predicate LastMinute(h: seq<Sample>, date: int, m: int)
  {
    && (forall i :: On(h, date, i) ==> Minute(h[i].now) <= m)
    && exists i :: On(h, date, i) && Minute(h[i].now) == m
  }

  /** A bucket that says of its day what its samples say. */
  ghost predicate ExactBucket(b: Bucket, h: seq<Sample>, res: Resource)
  {
    && b.first.Some? && FirstMinute(h, b.date, b.first.value)
    && b.last.Some? && LastMinute(h, b.date, b.last.value)
    && b.maxGap.Gap? && LongestPause(h, b.date, b.maxGap.seconds)
    && res in b.peaks && b.peaks[res].Amount?
  }

  /** A window that says of every day it reaches what its samples say. */
  ghost predicate Exact(w: Snapshot, h: seq<Sample>, uid: string, res: Resource, windowDays: int)
  {
    && h != [] && w.uid == uid && w.lastSample == Some(h[|h| - 1].now)
    && DatesUpTo(w.days, Day(h[|h| - 1].now))
    && (forall j :: 0 <= j < |w.days| ==> ExactBucket(w.days[j], h, res))
    && (forall i :: 0 <= i < |h| && InWindow(Day(h[i].now), Day(h[|h| - 1].now), windowDays) ==>
          IndexAt(w.days, Day(h[i].now)) >= 0)
  }

  lemma OnStep(h: seq<Sample>, s: Sample, date: int)
    ensures forall i :: 0 <= i < |h| ==> (On(h + [s], date, i) <==> On(h, date, i))
    ensures forall i :: 0 <= i < |h| ==> (h + [s])[i] == h[i] && Pause(h + [s], i) == Pause(h, i)
    ensures On(h + [s], date, |h|) <==> Day(s.now) == date
    ensures forall i :: On(h, date, i) ==> 0 <= i < |h| && On(h + [s], date, i)
    ensures forall i :: On(h + [s], date, i) ==> 0 <= i <= |h|
  {
  }

  /** A sample of another day says nothing about this one. */
  lemma KeptExact(b: Bucket, h: seq<Sample>, s: Sample, res: Resource)
    requires ExactBucket(b, h, res) && Day(s.now) != b.date
    ensures ExactBucket(b, h + [s], res)
  {
    hide Day, Minute, On, Pause;
    OnStep(h, s, b.date);
  }

  lemma MinutesRise(h: seq<Sample>, s: Sample)
    requires Ordered(h) && EndsBy(h, s.now)
    ensures forall i :: On(h, Day(s.now), i) ==> Minute(h[i].now) <= Minute(s.now)
  {
    forall i | On(h, Day(s.now), i) ensures Minute(h[i].now) <= Minute(s.now) {
      assert h[i].now <= h[|h| - 1].now <= s.now;
    }
  }

  lemma FirstStays(h: seq<Sample>, s: Sample, m: int)
    requires Ordered(h) && EndsBy(h, s.now)
    requires FirstMinute(h, Day(s.now), m) || ((forall i :: !On(h, Day(s.now), i)) && m == Minute(s.now))
    ensures FirstMinute(h + [s], Day(s.now), m)
  {
    MinutesRise(h, s);
    hide Day, Minute, On, Ordered, Pause;
    OnStep(h, s, Day(s.now));
    if FirstMinute(h, Day(s.now), m) {
      var i :| On(h, Day(s.now), i) && Minute(h[i].now) == m;
      assert On(h + [s], Day(s.now), i);
    } else {
      assert On(h + [s], Day(s.now), |h|);
    }
  }

  lemma LastMoves(h: seq<Sample>, s: Sample)
    requires Ordered(h) && EndsBy(h, s.now)
    ensures LastMinute(h + [s], Day(s.now), Minute(s.now))
  {
    MinutesRise(h, s);
    hide Day, Minute, On, Ordered, Pause;
    OnStep(h, s, Day(s.now));
    assert On(h + [s], Day(s.now), |h|);
  }

  lemma PauseLast(h: seq<Sample>, s: Sample)
    ensures Pause(h + [s], |h|) == if h == [] then 0 else s.now - h[|h| - 1].now
  {
  }

  lemma PauseGrows(h: seq<Sample>, s: Sample, gap: int)
    requires LongestPause(h, Day(s.now), gap) || ((forall i :: !On(h, Day(s.now), i)) && gap == 0)
    ensures var last := if h == [] then 0 else s.now - h[|h| - 1].now;
            LongestPause(h + [s], Day(s.now), if last > gap then last else gap)
  {
    hide Day, On, Pause;
    PauseLast(h, s);
    OnStep(h, s, Day(s.now));
    assert On(h + [s], Day(s.now), |h|);
    if gap != 0 {
      var i :| On(h, Day(s.now), i) && Pause(h, i) == gap;
      assert On(h + [s], Day(s.now), i) && Pause(h + [s], i) == gap;
    }
  }

  lemma PauseNotNegative(h: seq<Sample>, date: int, gap: int)
    requires Ordered(h) && LongestPause(h, date, gap)
    ensures gap >= 0
  {
    if gap != 0 { var i :| On(h, date, i) && Pause(h, i) == gap; }
  }

  /** Folding a sample of a day that was sampled before. */
  lemma FoldedExact(b: Bucket, h: seq<Sample>, s: Sample, res: Resource)
    requires Ordered(h) && EndsBy(h, s.now) && h != [] && res in s.used && b.date == Day(s.now)
    requires ExactBucket(b, h, res)
    ensures ExactBucket(Fold(b, s, Some(h[|h| - 1].now)), h + [s], res)
  {
    hide Day, Minute, FirstMinute, LastMinute, LongestPause, Ordered;
    FirstStays(h, s, b.first.value);
    LastMoves(h, s);
    PauseGrows(h, s, b.maxGap.seconds);
  }

  /** And of one that was not. */
  lemma OpenedExact(h: seq<Sample>, s: Sample, res: Resource, last: Option<int>)
    requires Ordered(h) && EndsBy(h, s.now) && res in s.used && (forall i :: !On(h, Day(s.now), i))
    requires last == if h == [] then None else Some(h[|h| - 1].now)
    ensures ExactBucket(Fold(NewBucket(s.now), s, last), h + [s], res)
  {
    hide Day, Minute, FirstMinute, LastMinute, LongestPause, Ordered, On;
    FirstStays(h, s, Minute(s.now));
    LastMoves(h, s);
    PauseGrows(h, s, 0);
  }

  /* ---------- the run ---------- */

  /** A day that was sampled has its bucket. */
  lemma SampledHasBucket(w: Snapshot, h: seq<Sample>, s: Sample, uid: string, res: Resource, windowDays: int)
    requires windowDays > 0 && Ordered(h) && EndsBy(h, s.now)
    requires if h == [] then w == EMPTY else Exact(w, h, uid, res, windowDays)
    ensures forall i :: On(h, Day(s.now), i) ==> IndexAt(w.days, Day(s.now)) >= 0
  {
    hide IndexAt, ExactBucket, Increasing;
    forall i | On(h, Day(s.now), i) ensures IndexAt(w.days, Day(s.now)) >= 0 {
      assert h[i].now <= h[|h| - 1].now <= s.now;
      assert InWindow(Day(h[i].now), Day(h[|h| - 1].now), windowDays);
    }
  }

  lemma ObservedExactBucket(w: Snapshot, h: seq<Sample>, s: Sample, uid: string, res: Resource, windowDays: int, j: int)
    requires windowDays > 0 && Ordered(h) && EndsBy(h, s.now) && res in s.used
    requires if h == [] then w == EMPTY else Exact(w, h, uid, res, windowDays)
    requires 0 <= j < |Opened(w.days, s.now, windowDays)|
    ensures var r := Opened(w.days, s.now, windowDays);
            ExactBucket(FoldedDays(r, IndexAt(r, Day(s.now)), s, w.lastSample)[j], h + [s], res)
  {
    hide IndexAt, Opened, ExactBucket, Ordered, Increasing, Fold;
    var r := Opened(w.days, s.now, windowDays);
    DaysReach(w, h, s, uid, res, windowDays);
    OpenedDates(w.days, s, windowDays);
    if j != IndexAt(r, Day(s.now)) {
      KeptExact(r[j], h, s, res);
    } else if IndexAt(w.days, Day(s.now)) >= 0 {
      FoldedExact(r[j], h, s, res);
    } else {
      SampledHasBucket(w, h, s, uid, res, windowDays);
      OpenedExact(h, s, res, w.lastSample);
    }
  }

  lemma DaysReach(w: Snapshot, h: seq<Sample>, s: Sample, uid: string, res: Resource, windowDays: int)
    requires EndsBy(h, s.now)
    requires if h == [] then w == EMPTY else Exact(w, h, uid, res, windowDays)
    ensures DatesUpTo(w.days, Day(s.now))
  {
    hide IndexAt, ExactBucket;
  }

  lemma ObservedExact(w: Snapshot, h: seq<Sample>, s: Sample, uid: string, res: Resource, windowDays: int)
    requires windowDays > 0 && Ordered(h) && EndsBy(h, s.now) && res in s.used && s.uid == uid
    requires if h == [] then w == EMPTY else Exact(w, h, uid, res, windowDays)
    ensures Exact(Observed(w, s, windowDays), h + [s], uid, res, windowDays)
  {
    hide IndexAt, Opened, ExactBucket, Fold, Increasing;
    var r, h' := Opened(w.days, s.now, windowDays), h + [s];
    var i := IndexAt(r, Day(s.now));
    DaysReach(w, h, s, uid, res, windowDays);
    OpenedDates(w.days, s, windowDays);
    forall j | 0 <= j < |r| ensures ExactBucket(FoldedDays(r, i, s, w.lastSample)[j], h', res) {
      ObservedExactBucket(w, h, s, uid, res, windowDays, j);
    }
    forall k | 0 <= k < |h'| && InWindow(Day(h'[k].now), Day(s.now), windowDays)
      ensures IndexAt(FoldedDays(r, i, s, w.lastSample), Day(h'[k].now)) >= 0
    {
      FoldedDates(r, i, s, w.lastSample, Day(h'[k].now));
      if k < |h| {
        assert h[k].now <= h[|h| - 1].now <= s.now;
        SurvivingDate(w.days, s.now, windowDays, Day(h[k].now));
      }
    }
    FoldedDates(r, i, s, w.lastSample, Day(s.now));
  }

  lemma ExactIgnoresWrites(a: Snapshot, b: Snapshot, h: seq<Sample>, uid: string, res: Resource, windowDays: int)
    requires a.(lastWrite := None) == b.(lastWrite := None) && Exact(a, h, uid, res, windowDays)
    ensures Exact(b, h, uid, res, windowDays)
  {
    hide ExactBucket, IndexAt, Increasing;
    assert a.days == a.(lastWrite := None).days && b.days == b.(lastWrite := None).days;
    assert a.uid == b.uid && a.lastSample == b.lastSample;
  }

  lemma {:induction false} FedExact(h: seq<Sample>, uid: string, res: Resource, windowDays: int)
    requires h != [] && Steady(h, uid, res) && windowDays > 0
    ensures Fed(h, windowDays).cache.Some?
    ensures Exact(Fed(h, windowDays).cache.value, h, uid, res, windowDays)
  {
    hide Exact, Observed, Step;
    var front, s := h[..|h| - 1], h[|h| - 1];
    var st := Fed(front, windowDays);
    assert front + [s] == h;
    if front == [] {
      ObservedExact(EMPTY, front, s, uid, res, windowDays);
      assert Loaded(st) == EMPTY;
    } else {
      FedExact(front, uid, res, windowDays);
      assert Loaded(st) == st.cache.value;
      ObservedExact(st.cache.value, front, s, uid, res, windowDays);
    }
    FedObserves(st, s, windowDays);
    ExactIgnoresWrites(Observed(Loaded(st), s, windowDays), Step(st, s, windowDays, Works).cache.value, h, uid, res,
                       windowDays);
  }

  lemma ObservedMeans(h: seq<Sample>, date: int)
    ensures DayObserved(h, date) <==>
            && (exists i :: On(h, date, i) && Minute(h[i].now) <= 30)
            && (exists i :: On(h, date, i) && Minute(h[i].now) >= 23 * 60 + 30)
            && (forall i :: On(h, date, i) ==> Pause(h, i) <= 3600)
  {
    hide Day, Minute;
    forall i | 0 <= i < |h| ensures On(h, date, i) <==> Day(h[i].now) == date {}
    forall i | 1 <= i < |h| ensures Pause(h, i) == h[i].now - h[i - 1].now {}
    if DayObserved(h, date) {
      var i :| 0 <= i < |h| && Day(h[i].now) == date && Minute(h[i].now) <= 30;
      var k :| 0 <= k < |h| && Day(h[k].now) == date && Minute(h[k].now) >= 23 * 60 + 30;
      assert On(h, date, i) && On(h, date, k);
    }
  }

  /** A day of such a bucket is covered when it was observed, and only then. */
  lemma CoveredIff(b: Bucket, h: seq<Sample>, res: Resource)
    requires ExactBucket(b, h, res) && Ordered(h)
    ensures Covered(b) <==> DayObserved(h, b.date)
  {
    PauseNotNegative(h, b.date, b.maxGap.seconds);
    ObservedMeans(h, b.date);
    hide Day, Minute, On, Pause, DayObserved, Ordered;
  }

  /** In a run without crashes and failures, the window is complete for a resource exactly when each of its days
      was observed: sampled by half past midnight and from half past eleven at night, and never after a pause of
      more than an hour. */
  lemma CompleteIff(h: seq<Sample>, uid: string, res: Resource, windowDays: int)
    requires h != [] && Steady(h, uid, res) && windowDays > 0
    ensures Fed(h, windowDays).cache.Some?
    ensures var today := Day(h[|h| - 1].now);
            Complete(Fed(h, windowDays).cache.value.days, res, today, windowDays) <==>
            forall date :: today - windowDays <= date < today ==> DayObserved(h, date)
  {
    hide Fed, IndexAt, ExactBucket, Covered, DayObserved, LastIndexOf;
    FedExact(h, uid, res, windowDays);
    var w, today := Fed(h, windowDays).cache.value, Day(h[|h| - 1].now);
    forall date | today - windowDays <= date < today
      ensures DayComplete(w.days, res, date) <==> DayObserved(h, date)
    {
      DayCompleteIff(w, h, uid, res, windowDays, date);
    }
  }

  lemma DayCompleteIff(w: Snapshot, h: seq<Sample>, uid: string, res: Resource, windowDays: int, date: int)
    requires Exact(w, h, uid, res, windowDays) && Ordered(h)
    requires Day(h[|h| - 1].now) - windowDays <= date < Day(h[|h| - 1].now)
    ensures DayComplete(w.days, res, date) <==> DayObserved(h, date)
  {
    hide IndexAt, LastIndexOf, Covered, Minute, Day, Ordered, Increasing;
    var i := LastIndexOf(w.days, date);
    if i >= 0 {
      CoveredIff(w.days[i], h, res);
    } else if DayObserved(h, date) {
      var k :| 0 <= k < |h| && Day(h[k].now) == date && Minute(h[k].now) <= 30;
      DateIsFoundLast(w.days, date);
      assert false;
    }
  }
}
