/** The window as the source keeps it: buckets and maps of peaks on the heap, updated in place. */
module ObservationWindow {
  import opened Options
  import opened Clock
  import opened WindowModel

  class PeakTable {
    var m: map<Resource, Peak>

    constructor (m: map<Resource, Peak>)
      ensures this.m == m
    {
      this.m := m;
    }

    /** The loop over status.used at the end of Observe; map order is arbitrary. */
    method Raise(used: map<Resource, int>) returns (raised: bool)
      modifies this
      ensures m == PeaksAfter(old(m), used)
      ensures raised <==> Raises(old(m), used)
    {
      raised := false;
      var todo := used.Keys;
      while todo != {}
        invariant todo <= used.Keys
        invariant m.Keys == old(m).Keys + (used.Keys - todo)
        invariant forall r :: r in m ==>
          m[r] == (if r in used && r !in todo && RaisesOne(old(m), r, used[r]) then Amount(used[r]) else old(m)[r])
        invariant raised <==> exists r :: r in used && r !in todo && RaisesOne(old(m), r, used[r])
      {
        var r :| r in todo;
        todo := todo - {r};
        if RaisesOne(m, r, used[r]) {
          m := m[r := Amount(used[r])];
          raised := true;
        }
      }
    }
  }

  class DayBucket {
    var date: int
    var n: int
    var first: Option<int>
    var last: Option<int>
    var maxGap: Gap
    var peaks: PeakTable

    constructor (b: Bucket, table: PeakTable)
      ensures date == b.date && n == b.n && first == b.first && last == b.last
      ensures maxGap == b.maxGap && peaks == table
    {
      date, n, first, last, maxGap, peaks := b.date, b.n, b.first, b.last, b.maxGap, table;
    }

    ghost function View(): Bucket
      reads this, peaks
    {
      Bucket(date, n, first, last, maxGap, peaks.m)
    }

    /** The copy of a struct: its own fields, the same map of peaks. */
    method Copy(ghost b: Bucket) returns (c: DayBucket)
      requires View() == b
      ensures fresh(c) && c.peaks == peaks && c.View() == b
    {
      c := new DayBucket(Bucket(date, n, first, last, maxGap, map[]), peaks);
    }

    method IsCovered() returns (covered: bool)
      ensures covered <==> Covered(View())
    {
      if first.None? || last.None? || maxGap.UnreadableGap? || maxGap.seconds > 3600 {
        return false;
      }
      return first.value <= 30 && last.value >= 23 * 60 + 30;
    }

    method Fold(s: Sample, lastSample: Option<int>) returns (raised: bool)
      modifies this`n, this`last, this`maxGap, peaks
      ensures View() == WindowModel.Fold(old(View()), s, lastSample)
      ensures raised <==> Raises(old(peaks.m), s.used)
    {
      if lastSample.Some? && maxGap.Gap? && s.now - lastSample.value > maxGap.seconds {
        maxGap := Gap(s.now - lastSample.value);
      }
      last := Some(Minute(s.now));
      n := n + 1;
      raised := peaks.Raise(s.used);
    }
  }

  ghost function Tables(days: seq<DayBucket>): set<PeakTable>
    reads days
  {
    set d | d in days :: d.peaks
  }

  /** The slice holds these values. */
  ghost predicate Shows(days: seq<DayBucket>, values: seq<Bucket>)
    reads days, Tables(days)
  {
    |days| == |values| && forall i :: 0 <= i < |days| ==> days[i].View() == values[i]
  }

  /** Each bucket of a slice has the map of peaks of the given slot of another slice. */
  ghost predicate SharesTables(days: seq<DayBucket>, source: seq<DayBucket>, from: seq<int>)
    reads days, source
  {
    |days| == |from| && forall i :: 0 <= i < |days| ==>
      0 <= from[i] < |source| && days[i].peaks == source[from[i]].peaks
  }

  /** No two slots share a bucket or a map of peaks. */
  ghost predicate Separate(days: seq<DayBucket>)
    reads days
  {
    forall i, j :: 0 <= i < j < |days| ==> days[i] != days[j] && days[i].peaks != days[j].peaks
  }

  /** Go's append of a struct to a slice. */
  method Append(kept: seq<DayBucket>, days: seq<DayBucket>, k: int, ghost vs: seq<Bucket>, ghost from: seq<int>)
    returns (copy: DayBucket)
    requires 0 <= k < |days|
    requires Shows(kept, vs) && SharesTables(kept, days, from)
    ensures fresh(copy)
    ensures Shows(kept + [copy], vs + [days[k].View()]) && SharesTables(kept + [copy], days, from + [k])
  {
    copy := days[k].Copy(days[k].View());
  }

  /** The loop of prune: copies of the buckets in the window, with the maps of peaks they had. */
  method Kept(days: seq<DayBucket>, today: int, windowDays: int, ghost values: seq<Bucket>)
    returns (kept: seq<DayBucket>)
    requires Separate(days) && Shows(days, values)
    ensures Separate(kept) && Shows(kept, Surviving(values, today, windowDays))
    ensures forall i :: 0 <= i < |kept| ==> fresh(kept[i])
    ensures SharesTables(kept, days, Survivors(values, today, windowDays))
  {
    NoSurvivors(values, today, windowDays);
    hide Surviving, Survivors;
    kept := [];
    ghost var vs, from := [], [];
    for k := 0 to |days|
      invariant vs == Surviving(values[..k], today, windowDays)
      invariant from == Survivors(values[..k], today, windowDays)
      invariant forall i :: 0 <= i < |kept| ==> fresh(kept[i])
      invariant forall i, j :: 0 <= i < j < |kept| ==> kept[i] != kept[j]
      invariant SharesTables(kept, days, from)
      invariant Shows(kept, vs)
    {
      SurvivingStep(values, k, today, windowDays);
      assert days[k].View() == values[k];
      if InWindow(days[k].date, today, windowDays) {
        var copy := Append(kept, days, k, vs, from);
        kept := kept + [copy];
        vs, from := vs + [values[k]], from + [k];
      }
    }
    assert values[..|days|] == values;
    SurvivorsIncrease(values, today, windowDays);
  }

  /** Where the bucket that is about to change can be reached from another slice. */
  ghost predicate Linked(d: DayBucket, other: seq<DayBucket>, j: int)
    reads d, other
  {
    if j < 0 then d !in other && forall k :: 0 <= k < |other| ==> other[k].peaks != d.peaks
    else j < |other| && d.peaks == other[j].peaks && (d == other[j] || d !in other)
  }

  /** Folds into one bucket of a slice; another slice sees it through what the two share. */
  method FoldAt(days: seq<DayBucket>, i: int, s: Sample, lastSample: Option<int>, ghost values: seq<Bucket>,
                ghost other: seq<DayBucket>, ghost others: seq<Bucket>, ghost j: int)
    returns (raised: bool)
    requires 0 <= i < |days| && Separate(days) && Shows(days, values)
    requires Separate(other) && Shows(other, others) && Linked(days[i], other, j)
    modifies days[i], days[i].peaks
    ensures Separate(days) && Shows(days, FoldedDays(values, i, s, lastSample))
    ensures raised <==> Raises(values[i].peaks, s.used)
    ensures Separate(other)
    ensures Shows(other, SharedFold(others, j, j >= 0 && days[i] == other[j], s, lastSample))
  {
    assert days[i].View() == values[i];
    assert j >= 0 ==> other[j].View() == others[j];
    raised := days[i].Fold(s, lastSample);
  }

  /** Drops buckets outside the window; reports whether anything was removed. */
  method Prune(days: seq<DayBucket>, today: int, windowDays: int, ghost values: seq<Bucket>)
    returns (slice: seq<DayBucket>, removed: bool)
    requires Separate(days) && Shows(days, values)
    ensures Separate(slice) && Shows(slice, Surviving(values, today, windowDays))
    ensures removed <==> |slice| != |days|
    ensures !removed ==> slice == days
    ensures !removed ==> forall i :: 0 <= i < |slice| ==> Survivors(values, today, windowDays)[i] == i
    ensures removed ==> forall i :: 0 <= i < |slice| ==> fresh(slice[i])
    ensures SharesTables(slice, days, Survivors(values, today, windowDays))
  {
    var kept := Kept(days, today, windowDays, values);
    removed := |kept| != |days|;
    slice := if removed then kept else days;
    if !removed {
      SurvivingAll(values, today, windowDays);
      AllSurvivors(values, today, windowDays);
    }
  }

  method IndexOf(days: seq<DayBucket>, date: int, ghost values: seq<Bucket>) returns (i: int)
    requires Shows(days, values)
    ensures i == IndexAt(values, date)
  {
    IndexAtIsFirst(values, date);
    for k := 0 to |days|
      invariant forall j :: 0 <= j < k ==> values[j].date != date
    {
      assert days[k].View() == values[k];
      if days[k].date == date {
        return k;
      }
    }
    i := -1;
  }

  /** The bucket of today, appended when there is none. */
  method Today(days: seq<DayBucket>, now: nat, ghost values: seq<Bucket>)
    returns (slice: seq<DayBucket>, created: bool, i: int)
    requires Separate(days) && Shows(days, values)
    ensures Separate(slice) && Shows(slice, WithToday(values, now))
    ensures i == IndexAt(WithToday(values, now), Day(now))
    ensures created <==> IndexAt(values, Day(now)) < 0
    ensures !created ==> slice == days
    ensures created ==> |slice| == i + 1 && slice[..i] == days && fresh(slice[i]) && fresh(slice[i].peaks)
  {
    i := IndexOf(days, Day(now), values);
    created := i < 0;
    slice := days;
    if created {
      var table := new PeakTable(map[]);
      var bucket := new DayBucket(NewBucket(now), table);
      i := |days|;
      slice := days + [bucket];
      assert WithToday(values, now)[..i] == values;
    }
  }

  /** The first half of Observe on the slice: prune it and make sure that today has a bucket. The
      ghost result is the slot of the old slice that shares today's map of peaks, or -1. */
  method Open(days: seq<DayBucket>, now: nat, windowDays: int, ghost values: seq<Bucket>)
    returns (slice: seq<DayBucket>, changed: bool, i: int, ghost j: int)
    requires Separate(days) && Shows(days, values)
    ensures Separate(slice) && Shows(slice, Opened(values, now, windowDays))
    ensures i == IndexAt(Opened(values, now, windowDays), Day(now))
    ensures changed <==> OpeningChanges(values, now, windowDays)
    ensures j == SharedSlot(values, now, windowDays)
    ensures Linked(slice[i], days, j)
    ensures j >= 0 ==> (slice[i] == days[j] <==> !changed)
    ensures fresh(slice[i]) || (j >= 0 && slice[i] == days[j])
    ensures j < 0 ==> fresh(slice[i].peaks)
  {
    ghost var kept := Surviving(values, Day(now), windowDays);
    SurvivorAt(values, Day(now), windowDays, Day(now));
    var created;
    slice, changed := Prune(days, Day(now), windowDays, values);
    slice, created, i := Today(slice, now, kept);
    if created {
      j := -1;
      changed := true;
    } else {
      j := IndexAt(values, Day(now));
      assert Survivors(values, Day(now), windowDays)[i] == j;
      assert slice[i].peaks == days[j].peaks;
    }
  }

  /** Observe on a slice that the caller keeps: what the new slice and the kept one show. */
  method Record(days: seq<DayBucket>, s: Sample, previous: Option<int>, windowDays: int, ghost values: seq<Bucket>)
    returns (slice: seq<DayBucket>, changed: bool)
    requires Separate(days) && Shows(days, values)
    modifies days, Tables(days)
    ensures Separate(days) && Separate(slice)
    ensures var base := Opened(values, s.now, windowDays);
            var i := IndexAt(base, Day(s.now));
            && Shows(slice, FoldedDays(base, i, s, previous))
            && (changed <==> OpeningChanges(values, s.now, windowDays) || Raises(base[i].peaks, s.used))
    ensures Shows(days, SharedFold(values, SharedSlot(values, s.now, windowDays),
                                   !OpeningChanges(values, s.now, windowDays), s, previous))
  {
    hide Opened, OpeningChanges, SharedSlot, FoldedDays, IndexAt, Raises, Surviving, Shows, Separate, Fold;
    var i;
    ghost var j;
    slice, changed, i, j := Open(days, s.now, windowDays, values);
    var raised := FoldAt(slice, i, s, previous, Opened(values, s.now, windowDays), days, values, j);
    changed := changed || raised;
  }

  lemma NothingShows()
    ensures Separate([]) && Shows([], [])
  {
  }

  class Window {
    var uid: string
    var lastSample: Option<int>
    var lastWrite: Option<int>
    var days: seq<DayBucket>

    constructor (uid: string, lastSample: Option<int>, lastWrite: Option<int>, days: seq<DayBucket>)
      ensures this.uid == uid && this.lastSample == lastSample
      ensures this.lastWrite == lastWrite && this.days == days
    {
      this.uid, this.lastSample, this.lastWrite, this.days := uid, lastSample, lastWrite, days;
    }

    /** The window holds this value, in buckets that share nothing. */
    ghost predicate Holds(w: Snapshot)
      reads this, days, Tables(days)
    {
      && uid == w.uid && lastSample == w.lastSample && lastWrite == w.lastWrite
      && Separate(days) && Shows(days, w.days)
    }

    method Observe(s: Sample, windowDays: int, ghost w: Snapshot) returns (changed: bool)
      requires Holds(w)
      modifies this, days, Tables(days)
      ensures Holds(Observed(w, s, windowDays))
      ensures changed <==> Changed(w, s, windowDays)
      ensures Separate(old(days)) && Shows(old(days), SharedAfter(w, s, windowDays))
    {
      hide Opened, FoldedDays, SharedFold, SharedSlot, OpeningChanges, IndexAt, Raises, Shows, Separate;
      var slice;
      if uid != "" && uid != s.uid {
        NothingShows();
        slice, changed := Record([], s, None, windowDays, []);
        Assign(s.uid, Some(s.now), None, slice, Observed(w, s, windowDays), days, w.days);
      } else {
        slice, changed := Record(days, s, lastSample, windowDays, w.days);
        Assign(s.uid, Some(s.now), lastWrite, slice, Observed(w, s, windowDays), days, SharedAfter(w, s, windowDays));
      }
    }

    method Assign(uid: string, lastSample: Option<int>, lastWrite: Option<int>, days: seq<DayBucket>,
                  ghost w: Snapshot, ghost other: seq<DayBucket>, ghost shared: seq<Bucket>)
      requires uid == w.uid && lastSample == w.lastSample && lastWrite == w.lastWrite
      requires Separate(days) && Shows(days, w.days)
      requires Separate(other) && Shows(other, shared)
      modifies this
      ensures Holds(w)
      ensures Separate(other) && Shows(other, shared)
    {
      this.uid, this.lastSample, this.lastWrite, this.days := uid, lastSample, lastWrite, days;
    }

    /** The value that is encoded into the Lease. */
    method Value(ghost w: Snapshot) returns (v: Snapshot)
      requires Holds(w)
      ensures v == w
    {
      var values: seq<Bucket> := [];
      for k := 0 to |days|
        invariant values == w.days[..k]
      {
        var d := days[k];
        assert d.View() == w.days[k];
        values := values + [Bucket(d.date, d.n, d.first, d.last, d.maxGap, d.peaks.m)];
      }
      v := Snapshot(uid, lastSample, lastWrite, values);
    }

    /** The highest measurable amount over the completed days of the window. */
    method Peak(res: Resource, now: nat, windowDays: int, ghost w: Snapshot) returns (best: Option<int>)
      requires Holds(w)
      ensures best == PeakOf(w.days, res, Day(now), windowDays)
    {
      hide Separate, PeakOf, IsPeak;
      best := None;
      PeakOfNothing(res, Day(now), windowDays);
      for k := 0 to |days|
        invariant best == PeakOf(w.days[..k], res, Day(now), windowDays)
      {
        var d := days[k];
        PeakStep(w.days, k, res, Day(now), windowDays);
        assert d.View() == w.days[k];
        if d.date >= Day(now) || d.date < Day(now) - windowDays {
          continue;
        }
        if res !in d.peaks.m || d.peaks.m[res].Unreadable? || !Measurable(d.peaks.m[res].milli) {
          continue;
        }
        var milli := d.peaks.m[res].milli;
        if best.None? || milli > best.value {
          best := Some(milli);
        }
      }
      assert w.days[..|days|] == w.days;
    }

    /** The slot of the last bucket of each date. */
    method ByDate(ghost w: Snapshot) returns (byDate: map<int, int>)
      requires Holds(w)
      ensures forall date :: date in byDate <==> LastIndexOf(w.days, date) >= 0
      ensures forall date :: date in byDate ==> byDate[date] == LastIndexOf(w.days, date)
    {
      byDate := map[];
      for k := 0 to |days|
        invariant forall date :: date in byDate <==> LastIndexOf(w.days[..k], date) >= 0
        invariant forall date :: date in byDate ==> byDate[date] == LastIndexOf(w.days[..k], date)
      {
        assert days[k].View() == w.days[k] && w.days[..k + 1][..k] == w.days[..k];
        byDate := byDate[days[k].date := k];
      }
      assert w.days[..|days|] == w.days;
    }

    /** Whether every completed day of the window was observed continuously and has a value. */
    method IsComplete(res: Resource, now: nat, windowDays: int, ghost w: Snapshot) returns (complete: bool)
      requires Holds(w)
      ensures complete <==> Complete(w.days, res, Day(now), windowDays)
    {
      hide LastIndexOf;
      var byDate := ByDate(w);
      var i := 1;
      while i <= windowDays
        invariant 1 <= i
        invariant forall date :: Day(now) - i < date < Day(now) && date >= Day(now) - windowDays
                                 ==> DayComplete(w.days, res, date)
      {
        var date := Day(now) - i;
        if date !in byDate {
          assert !DayComplete(w.days, res, date);
          return false;
        }
        var d := days[byDate[date]];
        assert d.View() == w.days[byDate[date]];
        var covered := d.IsCovered();
        if !covered || res !in d.peaks.m || d.peaks.m[res].Unreadable? {
          assert !DayComplete(w.days, res, date);
          return false;
        }
        i := i + 1;
      }
      complete := true;
    }
  }
}
