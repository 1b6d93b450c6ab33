/** The other half of coverage: regular sampling opens the window gate. */
module CoverageGate {
  import opened Options
  import opened Clock
  import opened WindowModel
  import opened ObserverModel
  import opened CoverageRuns

  /** The store after a run without restarts in which every call succeeds. */
  function Fed(samples: seq<Sample>, windowDays: int): Store
  {
    if samples == [] then INIT.store
    else Step(Fed(samples[..|samples| - 1], windowDays), samples[|samples| - 1], windowDays, Works)
  }

  /** Samples of one quota object, each with a value, never more than half an hour apart. */
  predicate Regular(samples: seq<Sample>, uid: string, res: Resource)
  {
    && (forall i :: 0 <= i < |samples| ==> samples[i].uid == uid && res in samples[i].used)
    && (forall i :: 1 <= i < |samples| ==> samples[i - 1].now <= samples[i].now <= samples[i - 1].now + 1800)
  }

  /** A bucket of a run that began at one time and has reached another. */
  predicate OnTrack(b: Bucket, from: int, to: int, res: Resource)
  {
    && b.first.Some? && (b.first.value <= 30 || (b.date == Day(from) && b.first.value == Minute(from)))
    && b.maxGap.Gap? && b.maxGap.seconds <= 1800
    && b.last.Some? && (if b.date == Day(to) then b.last.value == Minute(to) else b.last.value >= 23 * 60 + 30)
    && res in b.peaks && b.peaks[res].Amount?
  }

  /** Every day since the run began that the window still reaches is on track. */
  ghost predicate Tracking(w: Snapshot, from: int, to: int, uid: string, res: Resource, windowDays: int)
  {
    && w.uid == uid && w.lastSample == Some(to) && DatesUpTo(w.days, Day(to))
    && (forall i :: 0 <= i < |w.days| ==> w.days[i].date >= Day(from) && OnTrack(w.days[i], from, to, res))
    && (forall date :: Day(from) <= date && Day(to) - windowDays <= date <= Day(to) ==> IndexAt(w.days, date) >= 0)
  }

  lemma SurvivingDate(days: seq<Bucket>, now: int, windowDays: int, date: int)
    requires IndexAt(days, date) >= 0 && InWindow(date, Day(now), windowDays)
    ensures IndexAt(Opened(days, now, windowDays), date) >= 0
  {
    SurvivorAt(days, Day(now), windowDays, date);
    var kept := Surviving(days, Day(now), windowDays);
    var r := Opened(days, now, windowDays);
    if r != kept {
      assert r[..|kept|] == kept;
    }
  }

  lemma TrackedBucket(w: Snapshot, from: int, to: int, s: Sample, uid: string, res: Resource, windowDays: int, j: int)
    requires windowDays > 0 && from <= to <= s.now <= to + 1800 && res in s.used
    requires Tracking(w, from, to, uid, res, windowDays)
    requires 0 <= j < |Opened(w.days, s.now, windowDays)|
    ensures var r := Opened(w.days, s.now, windowDays);
            var b := FoldedDays(r, IndexAt(r, Day(s.now)), s, w.lastSample)[j];
            b.date >= Day(from) && OnTrack(b, from, s.now, res)
  {
    hide IndexAt, Opened;
    OpenedDates(w.days, s, windowDays);
  }

  lemma TrackingKept(w: Snapshot, from: int, to: int, s: Sample, uid: string, res: Resource, windowDays: int)
    requires windowDays > 0 && from <= to <= s.now <= to + 1800 && res in s.used && s.uid == uid
    requires Tracking(w, from, to, uid, res, windowDays)
    ensures Tracking(Observed(w, s, windowDays), from, s.now, uid, res, windowDays)
  {
    hide IndexAt, Opened, OnTrack, Fold, Increasing;
    var r, w' := Opened(w.days, s.now, windowDays), Observed(w, s, windowDays);
    OpenedDates(w.days, s, windowDays);
    forall j | 0 <= j < |r|
      ensures w'.days[j].date >= Day(from) && OnTrack(w'.days[j], from, s.now, res)
    {
      TrackedBucket(w, from, to, s, uid, res, windowDays, j);
    }
    forall date | Day(from) <= date && Day(s.now) - windowDays <= date <= Day(s.now)
      ensures IndexAt(w'.days, date) >= 0
    {
      if date <= Day(to) { SurvivingDate(w.days, s.now, windowDays, date); }
      FoldedDates(r, IndexAt(r, Day(s.now)), s, w.lastSample, date);
    }
    FoldedDates(r, IndexAt(r, Day(s.now)), s, w.lastSample, Day(s.now));
  }

  lemma FoldedDates(days: seq<Bucket>, i: int, s: Sample, lastSample: Option<int>, date: int)
    requires 0 <= i < |days|
    ensures IndexAt(FoldedDays(days, i, s, lastSample), date) >= 0 <==> IndexAt(days, date) >= 0
    ensures DatesUpTo(days, Day(s.now)) ==> DatesUpTo(FoldedDays(days, i, s, lastSample), Day(s.now))
  {
    hide IndexAt;
    DatesKept(days, FoldedDays(days, i, s, lastSample), date, Day(s.now));
  }

  lemma FedObserves(st: Store, s: Sample, windowDays: int)
    ensures var st' := Step(st, s, windowDays, Works);
            && st'.cache.Some?
            && st'.cache.value.(lastWrite := None) == Observed(Loaded(st), s, windowDays).(lastWrite := None)
  {
    hide Observed, Changed, SharedAfter;
  }

  /** One step of the store, whatever it loads: Fed tracks if the observed window does. */
  lemma StepTracks(st: Store, s: Sample, from: int, uid: string, res: Resource, windowDays: int)
    requires Tracking(Observed(Loaded(st), s, windowDays), from, s.now, uid, res, windowDays)
    ensures var cache := Step(st, s, windowDays, Works).cache;
            cache.Some? && Tracking(cache.value, from, s.now, uid, res, windowDays)
  {
    FedObserves(st, s, windowDays);
    hide Tracking, Observed, Step, Loaded;
    TrackingIgnoresWrites(Observed(Loaded(st), s, windowDays), Step(st, s, windowDays, Works).cache.value,
                          from, s.now, uid, res, windowDays);
  }

  lemma {:induction false} FedTracks(samples: seq<Sample>, uid: string, res: Resource, windowDays: int)
    requires samples != [] && Regular(samples, uid, res) && windowDays > 0
    ensures Fed(samples, windowDays).cache.Some?
    ensures Tracking(Fed(samples, windowDays).cache.value, samples[0].now, samples[|samples| - 1].now,
                     uid, res, windowDays)
    ensures samples[0].now <= samples[|samples| - 1].now
  {
    hide Tracking, Observed, Step;
    var front, s := samples[..|samples| - 1], samples[|samples| - 1];
    var st := Fed(front, windowDays);
    if front == [] {
      FirstTracks(s, uid, res, windowDays);
      assert Loaded(st) == EMPTY;
    } else {
      FedTracks(front, uid, res, windowDays);
      assert Loaded(st) == st.cache.value;
      TrackingKept(st.cache.value, samples[0].now, front[|front| - 1].now, s, uid, res, windowDays);
    }
    StepTracks(st, s, samples[0].now, uid, res, windowDays);
  }

  lemma TrackingIgnoresWrites(a: Snapshot, b: Snapshot, from: int, to: int, uid: string, res: Resource, windowDays: int)
    requires a.(lastWrite := None) == b.(lastWrite := None)
    ensures Tracking(a, from, to, uid, res, windowDays) <==> Tracking(b, from, to, uid, res, windowDays)
  {
    assert a.days == a.(lastWrite := None).days && b.days == b.(lastWrite := None).days;
    assert a.uid == b.uid && a.lastSample == b.lastSample;
  }

  lemma IndexOfOnly(b: Bucket)
    ensures IndexAt([b], b.date) == 0
  {
    assert [b][..0] == [];
  }

  lemma FirstOpens(now: nat, windowDays: int)
    requires windowDays > 0
    ensures Opened([], now, windowDays) == [NewBucket(now)]
  {
    assert Surviving([], Day(now), windowDays) == [];
  }

  lemma FirstTracks(s: Sample, uid: string, res: Resource, windowDays: int)
    requires s.uid == uid && res in s.used && windowDays > 0
    ensures Tracking(Observed(EMPTY, s, windowDays), s.now, s.now, uid, res, windowDays)
  {
    hide IndexAt, Opened;
    FirstOpens(s.now, windowDays);
    IndexOfOnly(NewBucket(s.now));
    IndexOfOnly(Fold(NewBucket(s.now), s, None));
    assert Observed(EMPTY, s, windowDays).days == [Fold(NewBucket(s.now), s, None)];
  }

  /** Half-hourly samples from 00:30 of the oldest day of the window until now make it complete. */
  lemma RegularSamplingCompletes(samples: seq<Sample>, uid: string, res: Resource, windowDays: int)
    requires samples != [] && Regular(samples, uid, res) && windowDays > 0
    requires var oldest := Day(samples[|samples| - 1].now) - windowDays;
             samples[0].now < oldest * 86400 + 31 * 60
    ensures Fed(samples, windowDays).cache.Some?
    ensures Complete(Fed(samples, windowDays).cache.value.days, res, Day(samples[|samples| - 1].now), windowDays)
  {
    var now, from := samples[|samples| - 1].now, samples[0].now;
    FedTracks(samples, uid, res, windowDays);
    hide Fed, IndexAt;
    var days := Fed(samples, windowDays).cache.value.days;
    forall date | Day(now) - windowDays <= date < Day(now)
      ensures DayComplete(days, res, date)
    {
      assert days[IndexAt(days, date)].date == date;
      DateIsFoundLast(days, date);
    }
  }

  lemma DateIsFoundLast(days: seq<Bucket>, date: int)
    requires IndexAt(days, date) >= 0
    ensures LastIndexOf(days, date) >= 0
  {
    if days[|days| - 1].date != date {
      DateIsFoundLast(days[..|days| - 1], date);
    }
  }

  /* ---------- a pause that no store knows of ---------- */

  function Observes(samples: seq<Sample>, windowDays: int): (events: seq<Event>)
    ensures |events| == |samples|
  {
    seq(|samples|, i requires 0 <= i < |samples| => Observe(samples[i], windowDays, Works))
  }

  /** A first call whose write fails, and then calls that succeed. */
  function FailsFirst(first: Sample, samples: seq<Sample>, windowDays: int): (events: seq<Event>)
    ensures |events| == |samples| + 1
  {
    [Observe(first, windowDays, WriteFails)] + Observes(samples, windowDays)
  }

  lemma FirstLeavesNothing(first: Sample, windowDays: int)
    requires first.uid != "" && windowDays > 0
    ensures Step(INIT.store, first, windowDays, WriteFails) == INIT.store
  {
    LoadedReady(INIT, first, windowDays);
    hide Changed, Observed;
  }

  lemma FirstIsLost(first: Sample, windowDays: int)
    requires first.uid != "" && windowDays > 0
    ensures After([Observe(first, windowDays, WriteFails)]) == INIT
    ensures Folded([Observe(first, windowDays, WriteFails)]) == [first]
  {
    FirstLeavesNothing(first, windowDays);
    hide Step;
    var events := [Observe(first, windowDays, WriteFails)];
    assert events[..0] == [];
  }

  lemma OneMore(first: Sample, samples: seq<Sample>, windowDays: int)
    requires samples != []
    ensures var events := FailsFirst(first, samples, windowDays);
            && events[..|events| - 1] == FailsFirst(first, samples[..|samples| - 1], windowDays)
            && events[|events| - 1] == Observe(samples[|samples| - 1], windowDays, Works)
  {
  }

  lemma {:induction false} FailsFirstRun(first: Sample, samples: seq<Sample>, windowDays: int)
    requires first.uid != "" && windowDays > 0
    ensures After(FailsFirst(first, samples, windowDays)).store == Fed(samples, windowDays)
    ensures Folded(FailsFirst(first, samples, windowDays)) == [first] + samples
  {
    hide Step, FailsFirst, After, Next, Folds;
    if samples == [] {
      NoMore(first, windowDays);
      FirstIsLost(first, windowDays);
    } else {
      var events := FailsFirst(first, samples, windowDays);
      FailsFirstRun(first, samples[..|samples| - 1], windowDays);
      OneMore(first, samples, windowDays);
      AfterLast(events);
      WorksAlways(After(events[..|events| - 1]), samples[|samples| - 1], windowDays);
    }
  }

  lemma WorksAlways(w: World, s: Sample, windowDays: int)
    ensures Folds(w, Observe(s, windowDays, Works))
    ensures Next(w, Observe(s, windowDays, Works)).store == Step(w.store, s, windowDays, Works)
  {
    hide Step;
  }

  lemma NoMore(first: Sample, windowDays: int)
    ensures FailsFirst(first, [], windowDays) == [Observe(first, windowDays, WriteFails)]
  {
  }

  /** When the very first write fails and regular sampling begins more than an hour later, by 00:30 of the next
      day, the window becomes complete although a longer pause ended on its oldest day. */
  lemma FailedFirstWriteHidesPause(first: Sample, samples: seq<Sample>, uid: string, res: Resource, windowDays: int)
    requires samples != [] && Regular(samples, uid, res) && first.uid == uid != "" && windowDays > 0
    requires var oldest := Day(samples[|samples| - 1].now) - windowDays;
             && Day(first.now) < oldest == Day(samples[0].now) && Minute(samples[0].now) <= 30
             && samples[0].now - first.now > 3600
    ensures var events, today := FailsFirst(first, samples, windowDays), Day(samples[|samples| - 1].now);
            && Admissible(events) && After(events).store.cache.Some?
            && Complete(After(events).store.cache.value.days, res, today, windowDays)
            && !DayObserved(Folded(events), today - windowDays)
  {
    hide Complete, After, Fed, Folded, FailsFirst, Regular, DayObserved, Admissible;
    var today := Day(samples[|samples| - 1].now);
    RegularSamplingCompletes(samples, uid, res, windowDays);
    FailsFirstRun(first, samples, windowDays);
    FailsFirstIsAdmissible(first, samples, uid, res, windowDays);
    LongFirstGap([first] + samples, today - windowDays);
  }

  lemma LongFirstGap(all: seq<Sample>, date: int)
    requires |all| >= 2 && Day(all[1].now) == date && all[1].now - all[0].now > 3600
    ensures !DayObserved(all, date)
  {
  }

  lemma EventsOfFailsFirst(first: Sample, samples: seq<Sample>, windowDays: int)
    ensures var events := FailsFirst(first, samples, windowDays);
            && events[0] == Observe(first, windowDays, WriteFails)
            && forall i :: 1 <= i < |events| ==> events[i] == Observe(samples[i - 1], windowDays, Works)
  {
  }

  lemma FailsFirstIsAdmissible(first: Sample, samples: seq<Sample>, uid: string, res: Resource, windowDays: int)
    requires Regular(samples, uid, res) && first.uid == uid != "" && windowDays > 0
    requires samples != [] ==> first.now <= samples[0].now
    ensures Admissible(FailsFirst(first, samples, windowDays))
  {
    hide FailsFirst;
    RegularIsOrdered(samples, uid, res);
    EventsOfFailsFirst(first, samples, windowDays);
    var events := FailsFirst(first, samples, windowDays);
    forall i, j | 0 <= i < j < |events| ensures events[i].s.now <= events[j].s.now {
      assert events[j].s == samples[j - 1];
      if i > 0 { assert events[i].s == samples[i - 1]; }
    }
  }

  lemma {:induction false} RegularIsOrdered(samples: seq<Sample>, uid: string, res: Resource)
    requires Regular(samples, uid, res)
    ensures Ordered(samples)
  {
    if samples != [] {
      var front := samples[..|samples| - 1];
      RegularIsOrdered(front, uid, res);
      if front != [] { OrderedExtend(front, samples[|front|]); }
      assert samples == front + [samples[|front|]];
    }
  }

  function HalfHours(from: nat, n: nat): (samples: seq<Sample>)
    ensures |samples| == n
  {
    seq(n, i requires 0 <= i < n => Sample(from + 1800 * i, "u", map["cpu" := 1]))
  }

  lemma HalfHoursAreRegular(from: nat, n: nat)
    ensures Regular(HalfHours(from, n), "u", "cpu")
    ensures forall i :: 0 <= i < n ==> HalfHours(from, n)[i].now == from + 1800 * i
  {
  }

  /** A first sample at 22:00 whose write fails, and one every half hour from 00:20 on: the day is complete,
      and a pause of 140 minutes ended on it. */
  lemma PauseIsHidden(first: Sample, samples: seq<Sample>)
    requires first == Sample(9 * 86400 + 22 * 3600, "u", map["cpu" := 1])
    requires samples == HalfHours(10 * 86400 + 20 * 60, 49)
    ensures var events := FailsFirst(first, samples, 1);
            && Admissible(events) && After(events).store.cache.Some?
            && Complete(After(events).store.cache.value.days, "cpu", 11, 1) && !DayObserved(Folded(events), 10)
  {
    hide Complete, Admissible, DayObserved, Fed, After, Folded, FailsFirst, Regular, HalfHours;
    HalfHoursAreRegular(10 * 86400 + 1200, 49);
    assert Day(samples[48].now) == 11;
    FailedFirstWriteHidesPause(first, samples, "u", "cpu", 1);
  }
}
