/** Runs of the observer with crashes, failed reads and failed or unacknowledged writes at any
    point, and what a window claims about the samples that were really taken. */
module CoverageRuns {
  import opened Options
  import opened Clock
  import opened WindowModel
  import opened ObserverModel

  /** Restart stands for a crash of the controller and for Forget. */
  datatype Event = Observe(s: Sample, windowDays: int, fault: Fault) | Restart

  /** The store, and for each window in it the samples it rests on: those of its own quota object that were
      folded since that window was started. A window is started when there is none, or none of that object. */
  datatype World = World(store: Store, cached: seq<Sample>, persisted: seq<Sample>)

  const INIT := World(Store(Absent, None), [], [])

  /** What the loaded window rests on, as far as it is about this object. */
  function Basis(w: World, uid: string): seq<Sample>
  {
    if Loaded(w.store).uid != uid then [] else if w.store.cache.Some? then w.cached else w.persisted
  }

  /** A window that is left alone rests on one more sample, if it is about the same object. */
  function Extended(view: Snapshot, h: seq<Sample>, s: Sample): seq<Sample>
  {
    if view.uid == s.uid then h + [s] else h
  }

  function CachedNext(w: World, s: Sample, windowDays: int, fault: Fault): seq<Sample>
  {
    if !Errs(w.store, s, windowDays, fault) then Basis(w, s.uid) + [s]
    else if w.store.cache.Some? then Extended(w.store.cache.value, w.cached, s)
    else []
  }

  function PersistedNext(w: World, s: Sample, windowDays: int, fault: Fault): seq<Sample>
  {
    if Writes(w.store, s, windowDays) && fault != WriteFails then Basis(w, s.uid) + [s]
    else if w.store.raw.Encoded? then Extended(w.store.raw.view, w.persisted, s)
    else []
  }

  function Next(w: World, e: Event): World
  {
    match e
    case Restart => World(w.store.(cache := None), [], w.persisted)
    case Observe(s, windowDays, fault) =>
      if w.store.cache.None? && fault == ReadFails then w
      else
        World(Step(w.store, s, windowDays, fault),
              CachedNext(w, s, windowDays, fault), PersistedNext(w, s, windowDays, fault))
  }

  function After(events: seq<Event>): World
  {
    if events == [] then INIT else Next(After(events[..|events| - 1]), events[|events| - 1])
  }

  /** Quota objects have a UID, a window has at least a day, and the clock does not run backwards. */
  predicate Admissible(events: seq<Event>)
  {
    && (forall i :: 0 <= i < |events| && events[i].Observe? ==> events[i].s.uid != "" && events[i].windowDays > 0)
    && (forall i, j :: 0 <= i < j < |events| && events[i].Observe? && events[j].Observe?
                       ==> events[i].s.now <= events[j].s.now)
  }

  predicate Ordered(h: seq<Sample>)
  {
    forall i, j :: 0 <= i < j < |h| ==> h[i].now <= h[j].now
  }

  /** The time of a sample of the history. */
  predicate Taken(h: seq<Sample>, t: int)
  {
    exists i :: 0 <= i < |h| && h[i].now == t
  }

  predicate TakenAtMinute(h: seq<Sample>, date: int, minute: int)
  {
    exists i :: 0 <= i < |h| && Day(h[i].now) == date && Minute(h[i].now) == minute
  }

  /** The samples of a date up to a time follow the ones before them within a gap. */
  predicate GapsUpTo(h: seq<Sample>, date: int, until: int, gap: int)
  {
    forall i :: 1 <= i < |h| && Day(h[i].now) == date && h[i].now <= until ==> h[i].now - h[i - 1].now <= gap
  }

  /** Up to the sample k, the bucket accounts for every gap that ended on its date. */
  predicate AccountsUpTo(b: Bucket, h: seq<Sample>, k: int, lastSample: int)
  {
    && 0 <= k < |h| && Day(h[k].now) == b.date
    && b.last == Some(Minute(h[k].now))
    && (Day(lastSample) == b.date ==> lastSample <= h[k].now)
    && b.maxGap.Gap? && b.maxGap.seconds >= 0
    && GapsUpTo(h, b.date, h[k].now, b.maxGap.seconds)
  }

  ghost predicate BucketSound(b: Bucket, h: seq<Sample>, lastSample: int)
  {
    && b.first.Some? && TakenAtMinute(h, b.date, b.first.value)
    && exists k :: AccountsUpTo(b, h, k, lastSample)
  }

  predicate Increasing(days: seq<Bucket>)
  {
    forall i, j :: 0 <= i < j < |days| ==> days[i].date < days[j].date
  }

  ghost predicate BucketsSound(days: seq<Bucket>, h: seq<Sample>, lastSample: int)
  {
    forall i :: 0 <= i < |days| ==> BucketSound(days[i], h, lastSample)
  }

  predicate DatesUpTo(days: seq<Bucket>, today: int)
  {
    Increasing(days) && forall i :: 0 <= i < |days| ==> days[i].date <= today
  }

  /** What a window may claim about a history. */
  ghost predicate Sound(w: Snapshot, h: seq<Sample>, uid: string)
  {
    && h != [] && w.uid == uid
    && DatesUpTo(w.days, Day(h[|h| - 1].now))
    && w.lastSample.Some? && Taken(h, w.lastSample.value)
    && IndexAt(w.days, Day(w.lastSample.value)) >= 0
    && (w.lastWrite.Some? ==> w.lastWrite.value <= h[|h| - 1].now)
    && BucketsSound(w.days, h, w.lastSample.value)
  }

  /** A window rests on these samples, all of its own object. */
  ghost predicate Rests(w: Snapshot, h: seq<Sample>)
  {
    w.uid != "" && Ordered(h) && Sound(w, h, w.uid) && forall i :: 0 <= i < |h| ==> h[i].uid == w.uid
  }

  ghost predicate Inv(w: World)
  {
    && (w.store.raw.Absent? ==> w.store.cache.None?)
    && (!w.store.raw.Absent? ==>
          w.store.raw.Encoded? && w.store.raw.version == 1 && Rests(w.store.raw.view, w.persisted))
    && (w.store.cache.Some? ==> Rests(w.store.cache.value, w.cached))
  }

  predicate EndsBy(h: seq<Sample>, t: int)
  {
    h != [] ==> h[|h| - 1].now <= t
  }

  lemma OrderedExtend(h: seq<Sample>, s: Sample)
    requires Ordered(h) && (h != [] ==> h[|h| - 1].now <= s.now)
    ensures Ordered(h + [s])
  {
  }

  /** A gap measured from a sample bounds every gap that ended after that sample. */
  lemma GapsAfter(h: seq<Sample>, t: int, i: int)
    requires Ordered(h) && Taken(h, t) && 1 <= i < |h| && t < h[i].now
    ensures t <= h[i - 1].now
  {
    var j :| 0 <= j < |h| && h[j].now == t;
    assert j < i;
  }

  lemma TakenExtends(h: seq<Sample>, s: Sample, date: int, minute: int)
    requires TakenAtMinute(h, date, minute)
    ensures TakenAtMinute(h + [s], date, minute)
  {
    var i :| 0 <= i < |h| && Day(h[i].now) == date && Minute(h[i].now) == minute;
    assert (h + [s])[i] == h[i];
  }

  /** A bucket that is left alone stays sound when another sample is taken. */
  lemma BucketKept(b: Bucket, h: seq<Sample>, s: Sample, t: int, t': int)
    requires Ordered(h) && h != [] && h[|h| - 1].now <= s.now
    requires BucketSound(b, h, t) && (Day(t') == b.date ==> t' == t)
    ensures BucketSound(b, h + [s], t')
  {
    TakenExtends(h, s, b.date, b.first.value);
    var k :| AccountsUpTo(b, h, k, t);
    GapsKept(h, s, b.date, k, b.maxGap.seconds);
    hide GapsUpTo, TakenAtMinute, Ordered, Minute, Day;
    assert (h + [s])[k] == h[k];
    assert AccountsUpTo(b, h + [s], k, t');
  }

  lemma GapsKept(h: seq<Sample>, s: Sample, date: int, k: int, gap: int)
    requires Ordered(h) && 0 <= k < |h| && h[|h| - 1].now <= s.now && gap >= 0 && GapsUpTo(h, date, h[k].now, gap)
    ensures GapsUpTo(h + [s], date, h[k].now, gap)
  {
    var h' := h + [s];
    forall i | 1 <= i < |h'| && Day(h'[i].now) == date && h'[i].now <= h[k].now
      ensures h'[i].now - h'[i - 1].now <= gap
    {
      assert h'[i - 1] == h[i - 1];
      if i < |h| { assert h'[i] == h[i]; }
    }
  }

  lemma TakenByLast(h: seq<Sample>, t: int)
    requires Ordered(h) && Taken(h, t)
    ensures t <= h[|h| - 1].now
  {
    var j :| 0 <= j < |h| && h[j].now == t;
  }

  lemma FoldedGap(b: Bucket, h: seq<Sample>, t: int, k: int, i: int, now: int)
    requires Ordered(h) && Taken(h, t) && AccountsUpTo(b, h, k, t)
    requires h[|h| - 1].now <= now && b.date == Day(now)
    requires 1 <= i < |h| && Day(h[i].now) == b.date
    ensures h[i].now - h[i - 1].now <= b.maxGap.seconds || h[i].now - h[i - 1].now <= now - t
  {
    TakenByLast(h, t);
    if h[i].now > h[k].now {
      if t < h[i].now {
        GapsAfter(h, t, i);
      }
    }
  }

  /** Folding a sample into the bucket of its day, whatever time the window remembers afterwards. */
  lemma BucketFolded(b: Bucket, h: seq<Sample>, s: Sample, t: int, t': int)
    requires Ordered(h) && h != [] && h[|h| - 1].now <= s.now && Taken(h, t)
    requires BucketSound(b, h, t) && b.date == Day(s.now) && t' <= s.now
    ensures BucketSound(Fold(b, s, Some(t)), h + [s], t')
  {
    TakenExtends(h, s, b.date, b.first.value);
    TakenByLast(h, t);
    var k :| AccountsUpTo(b, h, k, t);
    var h', gap := h + [s], GapAfter(b.maxGap, s.now, Some(t)).seconds;
    assert gap >= b.maxGap.seconds && gap >= s.now - t;
    assert GapsUpTo(h', b.date, s.now, gap) by {
      forall i | 1 <= i < |h'| && Day(h'[i].now) == b.date
        ensures h'[i].now - h'[i - 1].now <= gap
      {
        assert h'[i - 1] == h[i - 1];
        if i < |h| {
          assert h'[i] == h[i];
          FoldedGap(b, h, t, k, i, s.now);
        }
      }
    }
    assert AccountsUpTo(Fold(b, s, Some(t)), h', |h|, t');
  }

  /** The first sample of a day in this window. */
  lemma BucketOpened(h: seq<Sample>, s: Sample, t: Option<int>)
    requires Ordered(h) && (h != [] ==> h[|h| - 1].now <= s.now)
    requires if h == [] then t.None? else t.Some? && Taken(h, t.value) && Day(t.value) < Day(s.now)
    ensures BucketSound(Fold(NewBucket(s.now), s, t), h + [s], s.now)
  {
    var h', b := h + [s], Fold(NewBucket(s.now), s, t);
    assert h'[|h|] == s;
    assert AccountsUpTo(b, h', |h|, s.now) by {
      forall i | 1 <= i < |h'| && Day(h'[i].now) == b.date && h'[i].now <= h'[|h|].now
        ensures h'[i].now - h'[i - 1].now <= b.maxGap.seconds
      {
        assert h'[i - 1] == h[i - 1];
        if i < |h| {
          assert h'[i] == h[i];
          GapsAfter(h, t.value, i);
        }
      }
    }
  }

  lemma {:induction false} SurvivingIncreases(days: seq<Bucket>, today: int, windowDays: int)
    requires Increasing(days)
    ensures Increasing(Surviving(days, today, windowDays))
    ensures forall b :: b in Surviving(days, today, windowDays) <==> b in days && InWindow(b.date, today, windowDays)
  {
    if days != [] {
      var front, b := days[..|days| - 1], days[|days| - 1];
      SurvivingIncreases(front, today, windowDays);
      assert days == front + [b];
      var kept := Surviving(front, today, windowDays);
      assert forall i :: 0 <= i < |kept| ==> kept[i] in front;
    }
  }

  lemma SurvivingDates(days: seq<Bucket>, today: int, windowDays: int)
    requires DatesUpTo(days, today) && windowDays > 0
    ensures var kept := Surviving(days, today, windowDays);
            && DatesUpTo(kept, today)
            && (forall j :: 0 <= j < |kept| ==> kept[j] in days)
            && (IndexAt(kept, today) >= 0 <==> IndexAt(days, today) >= 0)
  {
    SurvivingIncreases(days, today, windowDays);
    SurvivorAt(days, today, windowDays, today);
    hide Surviving, IndexAt;
    var kept := Surviving(days, today, windowDays);
    assert forall j :: 0 <= j < |kept| ==> kept[j] in kept;
  }

  lemma AppendedDate(days: seq<Bucket>, b: Bucket)
    requires IndexAt(days, b.date) < 0
    ensures IndexAt(days + [b], b.date) == |days|
    ensures forall j :: 0 <= j < |days| ==> days[j].date != b.date
  {
    assert (days + [b])[..|days|] == days;
    IndexAtIsFirst(days, b.date);
  }

  /** The days that a sample is folded into, when the window has seen none later than it. */
  lemma OpenedDates(days: seq<Bucket>, s: Sample, windowDays: int)
    requires DatesUpTo(days, Day(s.now)) && windowDays > 0
    ensures var r := Opened(days, s.now, windowDays);
            var i := IndexAt(r, Day(s.now));
            && DatesUpTo(r, Day(s.now))
            && (forall j :: 0 <= j < |r| && j != i ==> r[j].date < Day(s.now) && r[j] in days)
            && (if IndexAt(days, Day(s.now)) >= 0 then r[i] in days else r[i] == NewBucket(s.now))
  {
    hide Surviving, IndexAt;
    var today := Day(s.now);
    SurvivingDates(days, today, windowDays);
    var kept := Surviving(days, today, windowDays);
    var r, i := Opened(days, s.now, windowDays), IndexAt(Opened(days, s.now, windowDays), today);
    if IndexAt(kept, today) < 0 {
      AppendedDate(kept, NewBucket(s.now));
      assert i == |kept|;
    } else {
      forall j | 0 <= j < |r| && j != i ensures r[j].date < today {
        assert r[j].date != r[i].date;
      }
    }
  }

  /** What is known of a window before a sample is folded into it. */
  ghost predicate Ready(w: Snapshot, h: seq<Sample>, s: Sample, uid: string)
  {
    && (if h == [] then w == EMPTY else Sound(w, h, uid))
    && Ordered(h) && (h != [] ==> h[|h| - 1].now <= s.now)
    && s.uid == uid && uid != ""
  }

  lemma ReadyDates(w: Snapshot, h: seq<Sample>, s: Sample, uid: string)
    requires Ready(w, h, s, uid)
    ensures DatesUpTo(w.days, Day(s.now))
  {
  }

  /** Each bucket of the window after a sample, in terms of the history with that sample. */
  lemma ObservedBucket(w: Snapshot, h: seq<Sample>, s: Sample, windowDays: int, uid: string, j: int)
    requires Ready(w, h, s, uid) && windowDays > 0
    requires 0 <= j < |Opened(w.days, s.now, windowDays)|
    ensures var days := Opened(w.days, s.now, windowDays);
            BucketSound(FoldedDays(days, IndexAt(days, Day(s.now)), s, w.lastSample)[j], h + [s], s.now)
  {
    hide IndexAt, Opened, Increasing, BucketSound, Fold;
    var days := Opened(w.days, s.now, windowDays);
    ReadyDates(w, h, s, uid);
    OpenedDates(w.days, s, windowDays);
    if h != [] { TakenByLast(h, w.lastSample.value); }
    if j != IndexAt(days, Day(s.now)) {
      assert BucketSound(days[j], h, w.lastSample.value);
      BucketKept(days[j], h, s, w.lastSample.value, s.now);
    } else if IndexAt(w.days, Day(s.now)) >= 0 {
      assert BucketSound(days[j], h, w.lastSample.value);
      BucketFolded(days[j], h, s, w.lastSample.value, s.now);
    } else {
      BucketOpened(h, s, w.lastSample);
    }
  }

  lemma ObservedBuckets(w: Snapshot, h: seq<Sample>, s: Sample, windowDays: int, uid: string)
    requires Ready(w, h, s, uid) && windowDays > 0
    ensures BucketsSound(Observed(w, s, windowDays).days, h + [s], s.now)
  {
    forall j | 0 <= j < |Opened(w.days, s.now, windowDays)|
      ensures BucketSound(Observed(w, s, windowDays).days[j], h + [s], s.now)
    {
      ObservedBucket(w, h, s, windowDays, uid, j);
    }
  }

  lemma DatesKept(days: seq<Bucket>, days': seq<Bucket>, date: int, today: int)
    requires |days| == |days'| && forall i :: 0 <= i < |days| ==> days[i].date == days'[i].date
    ensures IndexAt(days', date) >= 0 <==> IndexAt(days, date) >= 0
    ensures DatesUpTo(days, today) ==> DatesUpTo(days', today)
  {
    IndexAtIsFirst(days, date);
    IndexAtIsFirst(days', date);
  }

  lemma ObservedSound(w: Snapshot, h: seq<Sample>, s: Sample, windowDays: int, uid: string)
    requires Ready(w, h, s, uid) && windowDays > 0
    ensures Sound(Observed(w, s, windowDays), h + [s], uid)
  {
    hide BucketsSound, IndexAt, Increasing, Opened;
    assert (h + [s])[|h|] == s && Base(w, uid) == w;
    ReadyDates(w, h, s, uid);
    OpenedDates(w.days, s, windowDays);
    DatesKept(Opened(w.days, s.now, windowDays), Observed(w, s, windowDays).days, Day(s.now), Day(s.now));
    ObservedBuckets(w, h, s, windowDays, uid);
  }

  /** Each bucket that the cache still shares after a failed write. */
  lemma SharedBucket(b: Bucket, h: seq<Sample>, s: Sample, t: int)
    requires BucketSound(b, h, t) && Taken(h, t) && Ordered(h) && h[|h| - 1].now <= s.now
    requires b.date == Day(s.now)
    ensures BucketSound(Fold(b, s, Some(t)), h + [s], t)
    ensures BucketSound(b.(peaks := PeaksAfter(b.peaks, s.used)), h + [s], t)
  {
    TakenByLast(h, t);
    BucketFolded(b, h, s, t, t);
    BucketKept(b, h, s, t, t);
    var k :| AccountsUpTo(b, h + [s], k, t);
    assert AccountsUpTo(b.(peaks := PeaksAfter(b.peaks, s.used)), h + [s], k, t);
  }

  lemma KeptBuckets(days: seq<Bucket>, h: seq<Sample>, s: Sample, t: int)
    requires BucketsSound(days, h, t) && h != [] && Ordered(h) && h[|h| - 1].now <= s.now
    ensures BucketsSound(days, h + [s], t)
  {
    forall i | 0 <= i < |days|
      ensures BucketSound(days[i], h + [s], t)
    {
      BucketKept(days[i], h, s, t, t);
    }
  }

  lemma HistoryGrows(w: Snapshot, h: seq<Sample>, s: Sample)
    requires h != [] && Ordered(h) && h[|h| - 1].now <= s.now
    requires DatesUpTo(w.days, Day(h[|h| - 1].now)) && w.lastSample.Some? && Taken(h, w.lastSample.value)
    ensures DatesUpTo(w.days, Day((h + [s])[|h|].now)) && Taken(h + [s], w.lastSample.value)
  {
    var m :| 0 <= m < |h| && h[m].now == w.lastSample.value;
    assert (h + [s])[m].now == w.lastSample.value;
  }

  /** A window that is left alone, when another sample is taken. */
  lemma KeptSound(w: Snapshot, h: seq<Sample>, s: Sample, uid: string)
    requires Sound(w, h, uid) && Ordered(h) && h[|h| - 1].now <= s.now
    ensures Sound(w, h + [s], uid)
  {
    HistoryGrows(w, h, s);
    KeptBuckets(w.days, h, s, w.lastSample.value);
  }

  /** The cache after a failed write: its struct is old, its shared buckets are not. */
  lemma SharedSound(w: Snapshot, h: seq<Sample>, s: Sample, windowDays: int, uid: string)
    requires h != [] && Ready(w, h, s, uid)
    ensures Sound(w.(days := SharedAfter(w, s, windowDays)), h + [s], uid)
  {
    hide BucketSound, IndexAt, Increasing, OpeningChanges;
    var t, days' := w.lastSample.value, SharedAfter(w, s, windowDays);
    var j := SharedSlot(w.days, s.now, windowDays);
    HistoryGrows(w, h, s);
    DatesKept(w.days, days', Day(t), Day(s.now));
    KeptBuckets(w.days, h, s, t);
    if j >= 0 {
      assert BucketSound(w.days[j], h, t);
      SharedBucket(w.days[j], h, s, t);
    }
    assert BucketsSound(days', h + [s], t);
  }

  lemma StampKeepsSound(w: Snapshot, h: seq<Sample>, uid: string, lastWrite: Option<int>)
    requires Sound(w, h, uid) && (lastWrite.Some? ==> lastWrite.value <= h[|h| - 1].now)
    ensures Sound(w.(lastWrite := lastWrite), h, uid)
  {
    hide BucketSound, IndexAt, Increasing;
  }

  lemma NothingKnown(now: nat, windowDays: int)
    ensures OpeningChanges([], now, windowDays)
  {
    assert Surviving([], Day(now), windowDays) == [];
  }

  /** What is folded into: a window of this object with its samples, or an empty one. */
  lemma LoadedReady(w: World, s: Sample, windowDays: int)
    requires Inv(w) && s.uid != "" && EndsBy(w.cached, s.now) && EndsBy(w.persisted, s.now)
    ensures Ready(Base(Loaded(w.store), s.uid), Basis(w, s.uid), s, s.uid)
    ensures Basis(w, s.uid) == [] ==> Changed(Loaded(w.store), s, windowDays)
    ensures forall i :: 0 <= i < |Basis(w, s.uid)| ==> Basis(w, s.uid)[i].uid == s.uid
  {
    hide BucketSound, IndexAt, Opened, Raises, OpeningChanges;
    NothingKnown(s.now, windowDays);
    if w.store.raw.Encoded? { hide Increasing; NoDuplicates(w.store.raw.view.days); }
  }

  lemma NoDuplicates(days: seq<Bucket>)
    ensures Increasing(days) ==> !DuplicateDates(days)
  {
  }

  lemma ObservedRests(w: World, s: Sample, windowDays: int)
    requires Inv(w) && s.uid != "" && windowDays > 0 && EndsBy(w.cached, s.now) && EndsBy(w.persisted, s.now)
    ensures Rests(Observed(Loaded(w.store), s, windowDays), Basis(w, s.uid) + [s])
  {
    hide Sound, Opened, IndexAt, Loaded;
    LoadedReady(w, s, windowDays);
    var base, h := Base(Loaded(w.store), s.uid), Basis(w, s.uid);
    ObservedSound(base, h, s, windowDays, s.uid);
    assert Observed(Loaded(w.store), s, windowDays) == Observed(base, s, windowDays);
    ReadyOrdered(base, h, s);
    OrderedExtend(h, s);
  }

  lemma ReadyOrdered(w: Snapshot, h: seq<Sample>, s: Sample)
    requires Ready(w, h, s, s.uid)
    ensures Ordered(h) && (h != [] ==> h[|h| - 1].now <= s.now)
  {
  }

  /** A window that no call writes to. */
  lemma AloneRests(view: Snapshot, h: seq<Sample>, s: Sample)
    requires Rests(view, h) && EndsBy(h, s.now)
    ensures Rests(view, Extended(view, h, s))
  {
    hide Sound;
    if view.uid == s.uid {
      RestsNonEmpty(view, h);
      OrderedExtend(h, s);
      KeptSound(view, h, s, view.uid);
    }
  }

  lemma RestsNonEmpty(view: Snapshot, h: seq<Sample>)
    requires Rests(view, h)
    ensures h != []
  {
  }

  /** The cached window after a call that failed. */
  lemma TaintedRests(view: Snapshot, h: seq<Sample>, s: Sample, windowDays: int)
    requires Rests(view, h) && EndsBy(h, s.now) && s.uid != ""
    ensures Rests(view.(days := SharedAfter(view, s, windowDays)), Extended(view, h, s))
  {
    hide Sound, SharedFold, SharedSlot, OpeningChanges;
    if view.uid == s.uid {
      RestsNonEmpty(view, h);
      OrderedExtend(h, s);
      RestsReady(view, h, s);
      SharedSound(view, h, s, windowDays, view.uid);
    } else {
      assert view.(days := view.days) == view;
    }
  }

  lemma RestsReady(view: Snapshot, h: seq<Sample>, s: Sample)
    requires Rests(view, h) && EndsBy(h, s.now) && s.uid == view.uid
    ensures Ready(view, h, s, view.uid)
  {
    hide BucketSound, IndexAt;
  }

  lemma StampRests(w: Snapshot, h: seq<Sample>, now: int)
    requires Rests(w, h) && now <= h[|h| - 1].now
    ensures Rests(w.(lastWrite := Some(now)), h)
  {
    StampKeepsSound(w, h, w.uid, Some(now));
    hide Sound;
  }

  lemma ObserveKeepsInv(w: World, s: Sample, windowDays: int, fault: Fault)
    requires Inv(w) && s.uid != "" && windowDays > 0 && EndsBy(w.cached, s.now) && EndsBy(w.persisted, s.now)
    ensures Inv(Next(w, Observe(s, windowDays, fault)))
  {
    hide Rests, Observed, SharedAfter, Changed, Loaded, Basis, Extended;
    LoadedReady(w, s, windowDays);
    ObservedRests(w, s, windowDays);
    var h := Basis(w, s.uid) + [s];
    StampRests(Observed(Loaded(w.store), s, windowDays), h, s.now);
    if w.store.raw.Encoded? && w.store.raw.version == 1 && Rests(w.store.raw.view, w.persisted) {
      AloneRests(w.store.raw.view, w.persisted, s);
    }
    if w.store.cache.Some? { TaintedRests(w.store.cache.value, w.cached, s, windowDays); }
    AbsentLoads(w, s, windowDays);
  }

  lemma AbsentLoads(w: World, s: Sample, windowDays: int)
    requires Inv(w) && s.uid != "" && EndsBy(w.cached, s.now) && EndsBy(w.persisted, s.now)
    ensures w.store.raw.Absent? ==> Changed(Loaded(w.store), s, windowDays)
  {
    hide Sound, Changed;
    LoadedReady(w, s, windowDays);
  }

  lemma EndsLater(h: seq<Sample>, s: Sample, view: Snapshot, t: int)
    requires EndsBy(h, t) && s.now <= t
    ensures EndsBy(h + [s], t) && EndsBy(Extended(view, h, s), t)
  {
  }

  lemma NextEndsBy(w: World, e: Event, t: int)
    requires EndsBy(w.cached, t) && EndsBy(w.persisted, t) && (e.Observe? ==> e.s.now <= t)
    ensures EndsBy(Next(w, e).cached, t) && EndsBy(Next(w, e).persisted, t)
  {
    hide EndsBy, Writes, Errs, Step, Loaded, Extended;
    assert EndsBy([], t) by { NothingEndsBy(t); }
    if e.Observe? {
      EndsLater(Basis(w, e.s.uid), e.s, EMPTY, t);
      if w.store.raw.Encoded? { EndsLater(w.persisted, e.s, w.store.raw.view, t); }
      if w.store.cache.Some? { EndsLater(w.cached, e.s, w.store.cache.value, t); }
    }
  }

  lemma NothingEndsBy(t: int)
    ensures EndsBy([], t)
  {
  }

  lemma {:induction false} HistoryBound(events: seq<Event>, t: int)
    requires forall i :: 0 <= i < |events| && events[i].Observe? ==> events[i].s.now <= t
    ensures EndsBy(After(events).cached, t) && EndsBy(After(events).persisted, t)
  {
    hide Next;
    if events != [] {
      HistoryBound(events[..|events| - 1], t);
      NextEndsBy(After(events[..|events| - 1]), events[|events| - 1], t);
    }
  }

  /** In every run, whatever fails and whatever objects follow one another under the name of the quota: each
      window in cache and Lease rests on samples of its own object alone. */
  lemma {:induction false} RunKeepsInv(events: seq<Event>)
    requires Admissible(events)
    ensures Inv(After(events))
  {
    hide Rests, Next;
    if events != [] {
      var front, e := events[..|events| - 1], events[|events| - 1];
      RunKeepsInv(front);
      if e.Observe? {
        HistoryBound(front, e.s.now);
        ObserveKeepsInv(After(front), e.s, e.windowDays, e.fault);
      } else {
        RestartKeepsInv(After(front));
      }
    }
  }

  lemma RestartKeepsInv(w: World)
    requires Inv(w)
    ensures Inv(Next(w, Restart))
  {
    hide Rests;
  }

  /** A day on which sampling began by 00:30, still ran at 23:30 and never paused for over an hour,
      not even across the midnight before it. */
  predicate DayObserved(h: seq<Sample>, date: int)
  {
    && (exists i :: 0 <= i < |h| && Day(h[i].now) == date && Minute(h[i].now) <= 30)
    && (exists i :: 0 <= i < |h| && Day(h[i].now) == date && Minute(h[i].now) >= 23 * 60 + 30)
    && (forall i :: 1 <= i < |h| && Day(h[i].now) == date ==> h[i].now - h[i - 1].now <= 3600)
  }

  lemma CoveredMeansObserved(b: Bucket, h: seq<Sample>, t: int)
    requires Ordered(h) && BucketSound(b, h, t) && Covered(b)
    ensures DayObserved(h, b.date)
  {
    var k :| AccountsUpTo(b, h, k, t);
    forall i | 1 <= i < |h| && Day(h[i].now) == b.date
      ensures h[i].now - h[i - 1].now <= 3600
    {
      if h[i].now > h[k].now {
        assert Taken(h, h[k].now);
        GapsAfter(h, h[k].now, i);
        assert Day(h[i].now) == Day(h[k].now);
      }
    }
  }

  /* ---------- all samples of one object ---------- */

  /** The call came as far as folding its sample into a window. */
  predicate Folds(w: World, e: Event)
  {
    e.Observe? && !(w.store.cache.None? && e.fault == ReadFails)
  }

  /** Every sample that was ever folded, of whatever object. */
  function Folded(events: seq<Event>): seq<Sample>
  {
    if events == [] then []
    else
      var front, e := events[..|events| - 1], events[|events| - 1];
      Folded(front) + if Folds(After(front), e) then [e.s] else []
  }

  /** The samples since the last change of UID. */
  function Stretch(all: seq<Sample>): seq<Sample>
  {
    if all == [] then []
    else
      var front, s := all[..|all| - 1], all[|all| - 1];
      if front != [] && front[|front| - 1].uid == s.uid then Stretch(front) + [s] else [s]
  }

  /** The samples of one object. */
  function Own(all: seq<Sample>, uid: string): seq<Sample>
  {
    if all == [] then []
    else
      var front, s := all[..|all| - 1], all[|all| - 1];
      Own(front, uid) + if s.uid == uid then [s] else []
  }

  predicate IsSuffix(a: seq<Sample>, b: seq<Sample>)
  {
    |a| <= |b| && b[|b| - |a|..] == a
  }

  /** Of two lists of samples, one is the end of the other. */
  predicate Fits(h: seq<Sample>, all: seq<Sample>)
  {
    IsSuffix(h, Stretch(all)) || IsSuffix(Stretch(all), h)
  }

  lemma AfterLast(events: seq<Event>)
    requires events != []
    ensures After(events) == Next(After(events[..|events| - 1]), events[|events| - 1])
  {
    hide Next;
  }

  lemma IsObserve(w: World, e: Event)
    requires Folds(w, e)
    ensures e.Observe?
  {
  }

  lemma {:induction false} StretchIsEnd(all: seq<Sample>)
    ensures IsSuffix(Stretch(all), all) && forall s :: s in Stretch(all) ==> s.uid == all[|all| - 1].uid
    ensures all != [] ==> Stretch(all) != []
  {
    hide IsSuffix;
    if all == [] {
      NoneIsSuffix(all);
    } else {
      var front, s := all[..|all| - 1], all[|all| - 1];
      assert all == front + [s];
      if front != [] && front[|front| - 1].uid == s.uid {
        StretchIsEnd(front);
        SuffixGrows(Stretch(front), front, s);
      } else {
        NoneIsSuffix(front);
        SuffixGrows([], front, s);
        assert [] + [s] == [s];
      }
    }
  }

  lemma SuffixGrows(a: seq<Sample>, b: seq<Sample>, s: Sample)
    requires IsSuffix(a, b)
    ensures IsSuffix(a + [s], b + [s])
  {
    var n := |b| - |a|;
    assert (b + [s])[n..] == b[n..] + [s];
  }

  lemma OwnStep(all: seq<Sample>, s: Sample, uid: string)
    ensures Own(all + [s], uid) == Own(all, uid) + if s.uid == uid then [s] else []
  {
    assert (all + [s])[..|all|] == all;
  }

  lemma {:induction false} StretchIsOwn(all: seq<Sample>)
    requires all != []
    ensures IsSuffix(Stretch(all), Own(all, all[|all| - 1].uid))
  {
    hide IsSuffix;
    var front, s := all[..|all| - 1], all[|all| - 1];
    assert all == front + [s];
    if front != [] && front[|front| - 1].uid == s.uid {
      StretchIsOwn(front);
      SuffixGrows(Stretch(front), Own(front, s.uid), s);
    } else {
      NoneIsSuffix(Own(front, s.uid));
      SuffixGrows([], Own(front, s.uid), s);
      assert [] + [s] == [s];
    }
  }

  lemma NoneIsSuffix(b: seq<Sample>)
    ensures IsSuffix([], b)
  {
  }

  lemma TwoSuffixes(a: seq<Sample>, b: seq<Sample>, c: seq<Sample>)
    requires IsSuffix(a, c) && IsSuffix(b, c)
    ensures IsSuffix(a, b) || IsSuffix(b, a)
  {
    if |a| <= |b| {
      assert b[|b| - |a|..] == a;
    } else {
      assert a[|a| - |b|..] == b;
    }
  }

  lemma StretchStep(all: seq<Sample>, s: Sample)
    ensures Stretch(all + [s])
         == if all != [] && all[|all| - 1].uid == s.uid then Stretch(all) + [s] else [s]
  {
    assert (all + [s])[..|all|] == all;
  }

  /** A window rests on the last samples of its object. */
  predicate CacheOwns(w: World, all: seq<Sample>)
  {
    w.store.cache.Some? ==> IsSuffix(w.cached, Own(all, w.store.cache.value.uid))
  }

  predicate LeaseOwns(w: World, all: seq<Sample>)
  {
    w.store.raw.Encoded? ==> IsSuffix(w.persisted, Own(all, w.store.raw.view.uid))
  }

  lemma ExtendedOwns(view: Snapshot, h: seq<Sample>, all: seq<Sample>, s: Sample)
    requires IsSuffix(h, Own(all, view.uid))
    ensures IsSuffix(Extended(view, h, s), Own(all + [s], view.uid))
  {
    hide IsSuffix, Own;
    OwnStep(all, s, view.uid);
    if view.uid == s.uid {
      SuffixGrows(h, Own(all, view.uid), s);
    } else {
      assert Own(all, view.uid) + [] == Own(all, view.uid);
    }
  }

  lemma BasisOwns(w: World, all: seq<Sample>, s: Sample)
    requires Inv(w) && CacheOwns(w, all) && LeaseOwns(w, all) && s.uid != ""
    ensures IsSuffix(Basis(w, s.uid) + [s], Own(all + [s], s.uid))
  {
    hide Rests, IsSuffix, Own, DuplicateDates;
    OwnStep(all, s, s.uid);
    NoneIsSuffix(Own(all, s.uid));
    SuffixGrows(Basis(w, s.uid), Own(all, s.uid), s);
  }

  lemma ObserveOwns(w: World, all: seq<Sample>, s: Sample, windowDays: int, fault: Fault)
    requires Inv(w) && CacheOwns(w, all) && LeaseOwns(w, all) && s.uid != ""
    requires !(w.store.cache.None? && fault == ReadFails)
    ensures var w' := Next(w, Observe(s, windowDays, fault)); CacheOwns(w', all + [s]) && LeaseOwns(w', all + [s])
  {
    hide Rests, IsSuffix, Own, Extended, Basis, Changed, SharedAfter, Opened, IndexAt, Inv, Loaded;
    BasisOwns(w, all, s);
    if w.store.cache.Some? { ExtendedOwns(w.store.cache.value, w.cached, all, s); }
    if w.store.raw.Encoded? { ExtendedOwns(w.store.raw.view, w.persisted, all, s); }
  }

  lemma QuietOwns(w: World, e: Event, all: seq<Sample>)
    requires CacheOwns(w, all) && LeaseOwns(w, all) && !Folds(w, e)
    ensures CacheOwns(Next(w, e), all) && LeaseOwns(Next(w, e), all)
  {
    hide IsSuffix, Own, Observed, Changed, Tainted;
  }

  /** In every run, every window rests on the last samples of its own object. */
  lemma {:induction false} RunOwns(events: seq<Event>)
    requires Admissible(events)
    ensures CacheOwns(After(events), Folded(events)) && LeaseOwns(After(events), Folded(events))
  {
    hide Inv, Next, Folds, After, CacheOwns, LeaseOwns;
    if events == [] {
      NothingStored();
    } else {
      var front, e := events[..|events| - 1], events[|events| - 1];
      AfterLast(events);
      RunOwns(front);
      RunKeepsInv(front);
      if Folds(After(front), e) {
        FoldsObserve(After(front), e);
        ObserveOwns(After(front), Folded(front), e.s, e.windowDays, e.fault);
      } else {
        QuietOwns(After(front), e, Folded(front));
        assert Folded(events) == Folded(front);
      }
    }
  }

  /** So of these and the samples since the UID changed, one list is the end of the other, for the object that was
      sampled last: the window rests on all of them, or only on those since it was first stored, or on earlier
      ones of it too, when the change was never stored. */
  lemma OwnFits(h: seq<Sample>, all: seq<Sample>)
    requires all != [] && IsSuffix(h, Own(all, all[|all| - 1].uid))
    ensures Fits(h, all)
  {
    hide Stretch, Own, IsSuffix;
    StretchIsOwn(all);
    TwoSuffixes(h, Stretch(all), Own(all, all[|all| - 1].uid));
  }

  lemma FoldsObserve(w: World, e: Event)
    requires Folds(w, e)
    ensures e == Observe(e.s, e.windowDays, e.fault) && !(w.store.cache.None? && e.fault == ReadFails)
  {
  }

  lemma NothingStored()
    ensures CacheOwns(After([]), Folded([])) && LeaseOwns(After([]), Folded([]))
  {
  }

  lemma {:induction false} FoldedUpTo(events: seq<Event>, t: int)
    requires forall i :: 0 <= i < |events| && events[i].Observe? ==> events[i].s.now <= t
    ensures forall i :: 0 <= i < |Folded(events)| ==> Folded(events)[i].now <= t
  {
    hide After;
    if events != [] { FoldedUpTo(events[..|events| - 1], t); }
  }

  lemma {:induction false} FoldedIsOrdered(events: seq<Event>)
    requires Admissible(events)
    ensures Ordered(Folded(events))
  {
    hide After;
    if events != [] {
      var front, e := events[..|events| - 1], events[|events| - 1];
      FoldedIsOrdered(front);
      if e.Observe? {
        FoldedUpTo(front, e.s.now);
        OrderedExtend(Folded(front), e.s);
      }
    }
  }

  lemma SuffixOrdered(a: seq<Sample>, b: seq<Sample>)
    requires IsSuffix(a, b) && Ordered(b)
    ensures Ordered(a)
  {
    var n := |b| - |a|;
    assert forall i :: 0 <= i < |a| ==> a[i] == b[n + i];
  }

  /* ---------- samples that no store came to know of ---------- */

  /** The samples of an object that come before those the window rests on. */
  function Lost(h: seq<Sample>, own: seq<Sample>): seq<Sample>
  {
    if |h| <= |own| then own[..|own| - |h|] else []
  }

  /** The history begins on this day, and of the samples up to its first one, the first of the day came more
      than an hour after the one before it. */
  predicate StartsLate(lost: seq<Sample>, h: seq<Sample>, date: int)
  {
    && h != [] && Day(h[0].now) == date
    && exists i :: 1 <= i <= |lost| && LateAt(lost + h, date, i)
  }

  predicate LateAt(all: seq<Sample>, date: int, i: int)
    requires 1 <= i < |all|
  {
    Day(all[i - 1].now) < date && Day(all[i].now) == date && all[i].now - all[i - 1].now > 3600
  }

  /** A gap that ends on the day with a lost sample, or with the first one stored. */
  lemma EarlyGap(all: seq<Sample>, date: int, i: int, k: int)
    requires Ordered(all) && 1 <= i <= k < |all|
    requires Day(all[i].now) == date == Day(all[k].now) && Minute(all[k].now) <= 30
    ensures all[i].now - all[i - 1].now > 3600 ==> LateAt(all, date, i)
  {
    assert all[i - 1].now <= all[i].now <= all[k].now;
  }

  lemma SameDay(all: seq<Sample>, i: int, j: int, k: int)
    requires Ordered(all) && 0 <= i <= j <= k < |all| && Day(all[i].now) == Day(all[k].now)
    ensures Day(all[j].now) == Day(all[i].now)
  {
    assert all[i].now <= all[j].now <= all[k].now;
  }

  lemma StoredGap(lost: seq<Sample>, h: seq<Sample>, date: int, i: int)
    requires DayObserved(h, date) && |lost| < i < |lost + h| && Day((lost + h)[i].now) == date
    ensures (lost + h)[i].now - (lost + h)[i - 1].now <= 3600
  {
    var k := i - |lost|;
    assert (lost + h)[i] == h[k] && (lost + h)[i - 1] == h[k - 1];
  }

  lemma LongGap(lost: seq<Sample>, h: seq<Sample>, date: int, i: int)
    requires Ordered(lost + h) && DayObserved(h, date)
    requires 1 <= i < |lost + h| && Day((lost + h)[i].now) == date
    requires (lost + h)[i].now - (lost + h)[i - 1].now > 3600
    ensures StartsLate(lost, h, date)
  {
    var all, n := lost + h, |lost|;
    var a :| 0 <= a < |h| && Day(h[a].now) == date && Minute(h[a].now) <= 30;
    hide Ordered, Minute, Day, LateAt;
    assert i <= n by {
      if i > n {
        hide DayObserved;
        StoredGap(lost, h, date, i);
      }
    }
    assert all[n + a] == h[a] && all[n] == h[0];
    EarlyGap(all, date, i, n + a);
    SameDay(all, i, n, n + a);
  }

  /** The lost samples count too, unless the first one of the day is among them or the first one stored, and
      it came late. */
  lemma ObservedWithLost(lost: seq<Sample>, h: seq<Sample>, date: int)
    requires Ordered(lost + h) && DayObserved(h, date)
    ensures DayObserved(lost + h, date) <==> !StartsLate(lost, h, date)
  {
    var all, n := lost + h, |lost|;
    if i :| 1 <= i < |all| && Day(all[i].now) == date && all[i].now - all[i - 1].now > 3600 {
      LongGap(lost, h, date, i);
    } else {
      var a :| 0 <= a < |h| && Day(h[a].now) == date && Minute(h[a].now) <= 30;
      var z :| 0 <= z < |h| && Day(h[z].now) == date && Minute(h[z].now) >= 23 * 60 + 30;
      hide Ordered, Minute, Day;
      assert all[n + a] == h[a] && all[n + z] == h[z];
    }
  }

  /** A window in the store, with the samples it rests on. */
  predicate Holds(w: World, view: Snapshot, h: seq<Sample>)
  {
    || (w.store.cache == Some(view) && h == w.cached)
    || (w.store.raw.Encoded? && view == Decode(w.store.raw) && h == w.persisted)
  }

  lemma HeldRests(events: seq<Event>, view: Snapshot, h: seq<Sample>)
    requires Admissible(events) && Holds(After(events), view, h)
    ensures Rests(view, h) && h != [] && IsSuffix(h, Own(Folded(events), view.uid))
    ensures Folded(events) != [] && view.uid == Folded(events)[|Folded(events)| - 1].uid ==> Fits(h, Folded(events))
  {
    hide BucketSound, IndexAt, Fits, After, Folded, IsSuffix, Own;
    RunKeepsInv(events);
    RunOwns(events);
    var all := Folded(events);
    if all != [] && view.uid == all[|all| - 1].uid && IsSuffix(h, Own(all, view.uid)) { OwnFits(h, all); }
    if After(events).store.raw.Encoded? { hide Increasing; NoDuplicates(After(events).store.raw.view.days); }
  }

  /** Whatever crashed or failed, and whatever objects came before under the name of the quota, a window that
      claims to be complete was really observed: the samples it rests on, all of its own object, bear it out.
      They are the last of all samples that were ever folded of this object, and those bear it out too, exactly
      unless the first one of the day came late and nothing was stored before it. */
  lemma CrashSafeCoverage(events: seq<Event>, view: Snapshot, h: seq<Sample>, res: Resource, today: int,
                          windowDays: int)
    requires Admissible(events) && Holds(After(events), view, h)
    requires Complete(view.days, res, today, windowDays)
    ensures forall i :: 0 <= i < |h| ==> h[i].uid == view.uid
    ensures forall date :: today - windowDays <= date < today ==> DayObserved(h, date)
    ensures var own := Own(Folded(events), view.uid);
            && own == Lost(h, own) + h
            && forall date :: today - windowDays <= date < today ==>
                 (DayObserved(own, date) <==> !StartsLate(Lost(h, own), h, date))
  {
    hide Folded, After, StartsLate, Own, DayObserved, Complete, Sound, Ordered, IsSuffix, Fits;
    HeldRests(events, view, h);
    var own := Own(Folded(events), view.uid);
    forall date | today - windowDays <= date < today ensures DayObserved(h, date) {
      CompleteDay(view, h, res, today, windowDays, date);
    }
    SuffixSplits(h, own);
    FoldedIsOrdered(events);
    OwnOrdered(Folded(events), view.uid);
    forall date | today - windowDays <= date < today
      ensures DayObserved(own, date) <==> !StartsLate(Lost(h, own), h, date)
    {
      ObservedWithLost(Lost(h, own), h, date);
    }
  }

  lemma {:induction false} OwnOrdered(all: seq<Sample>, uid: string)
    requires Ordered(all)
    ensures Ordered(Own(all, uid)) && forall i :: 0 <= i < |Own(all, uid)| ==> Own(all, uid)[i].uid == uid
    ensures all != [] ==> forall i :: 0 <= i < |Own(all, uid)| ==> Own(all, uid)[i].now <= all[|all| - 1].now
  {
    if all != [] {
      var front, s := all[..|all| - 1], all[|all| - 1];
      OwnOrdered(front, uid);
      assert front != [] ==> front[|front| - 1].now <= s.now;
    }
  }

  lemma CompleteDay(view: Snapshot, h: seq<Sample>, res: Resource, today: int, windowDays: int, date: int)
    requires Rests(view, h) && Complete(view.days, res, today, windowDays) && today - windowDays <= date < today
    ensures DayObserved(h, date)
  {
    hide BucketSound, Ordered, Increasing, IndexAt, DayObserved, Covered;
    assert DayComplete(view.days, res, date);
    CoveredMeansObserved(view.days[LastIndexOf(view.days, date)], h, view.lastSample.value);
  }

  lemma SuffixSplits(h: seq<Sample>, own: seq<Sample>)
    requires IsSuffix(h, own)
    ensures own == Lost(h, own) + h
  {
    assert own == own[..|own| - |h|] + own[|own| - |h|..];
  }

  /** A pause of an hour or more makes the next sample write the Lease, so that a crash can hide
      only pauses that were shorter. */
  lemma PauseForcesWrite(events: seq<Event>, s: Sample, windowDays: int)
    requires Admissible(events) && s.uid != ""
    requires EndsBy(After(events).cached, s.now) && EndsBy(After(events).persisted, s.now)
    requires var h := Basis(After(events), s.uid); h != [] ==> s.now - h[|h| - 1].now >= 3600
    ensures Writes(After(events).store, s, windowDays)
  {
    var w := After(events);
    hide BucketsSound, IndexAt, Increasing, Loaded, Changed, Opened, Fold, Inv, Basis;
    RunKeepsInv(events);
    LoadedReady(w, s, windowDays);
  }
}
