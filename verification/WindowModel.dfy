/** The rolling observation window (internal/sizing/window.go): per-day buckets of peaks and the
    coverage facts that let a shrink trust them. */
module WindowModel {
  import opened Options
  import opened Clock

  type Resource = string

  /** A stored peak: a quantity in milli-units, or text that no longer parses as one. */
  datatype Peak = Amount(milli: int) | Unreadable

  /** A stored gap; the empty string reads as zero. */
  datatype Gap = Gap(seconds: int) | UnreadableGap

  datatype Bucket = Bucket(
    date: int,
    n: int,
    first: Option<int>,
    last: Option<int>,
    maxGap: Gap,
    peaks: map<Resource, Peak>)

  /** The value of a window, as it is encoded into the Lease. */
  datatype Snapshot = Snapshot(
    uid: string,
    lastSample: Option<int>,
    lastWrite: Option<int>,
    days: seq<Bucket>)

  const EMPTY := Snapshot("", None, None, [])

  /** One reading of status.used, in milli-units. */
  datatype Sample = Sample(now: nat, uid: string, used: map<Resource, int>)

  /** The largest amount whose milli-value fits in 64 bits; a negative one is rejected too. */
  predicate Measurable(milli: int)
  {
    0 <= milli <= 9_223_372_036_854_775_000
  }

  /* ---------- what the operations compute, on values ---------- */

  predicate InWindow(date: int, today: int, windowDays: int)
  {
    today - windowDays <= date <= today
  }

  function Surviving(days: seq<Bucket>, today: int, windowDays: int): (r: seq<Bucket>)
    ensures |r| <= |days|
  {
    if days == [] then [] else
    var rest := Surviving(days[..|days| - 1], today, windowDays);
    var b := days[|days| - 1];
    if InWindow(b.date, today, windowDays) then rest + [b] else rest
  }

  /** The first bucket of a date, or -1. */
  function IndexAt(days: seq<Bucket>, date: int): (i: int)
    ensures -1 <= i < |days|
    ensures i >= 0 ==> days[i].date == date
  {
    if days == [] then -1 else
    var i := IndexAt(days[..|days| - 1], date);
    if i >= 0 then i else if days[|days| - 1].date == date then |days| - 1 else -1
  }

  lemma IndexAtIsFirst(days: seq<Bucket>, date: int)
    ensures forall j :: 0 <= j < (if IndexAt(days, date) < 0 then |days| else IndexAt(days, date))
                        ==> days[j].date != date
  {
    if days != [] {
      IndexAtIsFirst(days[..|days| - 1], date);
    }
  }

  /** The last bucket of a date, or -1: what a map from dates to buckets ends up with. */
  function LastIndexOf(days: seq<Bucket>, date: int): (i: int)
    ensures -1 <= i < |days|
    ensures i >= 0 ==> days[i].date == date
  {
    if days == [] then -1
    else if days[|days| - 1].date == date then |days| - 1
    else LastIndexOf(days[..|days| - 1], date)
  }

  /** The stored value is replaced when it is missing, unreadable or smaller. */
  predicate RaisesOne(peaks: map<Resource, Peak>, res: Resource, milli: int)
  {
    res !in peaks || peaks[res].Unreadable? || milli > peaks[res].milli
  }

  predicate Raises(peaks: map<Resource, Peak>, used: map<Resource, int>)
  {
    exists res :: res in used && RaisesOne(peaks, res, used[res])
  }

  function PeaksAfter(peaks: map<Resource, Peak>, used: map<Resource, int>): map<Resource, Peak>
  {
    map res | res in peaks.Keys + used.Keys ::
      if res in used && RaisesOne(peaks, res, used[res]) then Amount(used[res]) else peaks[res]
  }

  /** A gap that does not parse is left alone, so that the day stays rejected. */
  function GapAfter(gap: Gap, now: int, lastSample: Option<int>): Gap
  {
    if lastSample.Some? && gap.Gap? && now - lastSample.value > gap.seconds
    then Gap(now - lastSample.value) else gap
  }

  function Fold(b: Bucket, s: Sample, lastSample: Option<int>): Bucket
  {
    Bucket(b.date, b.n + 1, b.first, Some(Minute(s.now)),
           GapAfter(b.maxGap, s.now, lastSample), PeaksAfter(b.peaks, s.used))
  }

  function NewBucket(now: int): Bucket
  {
    Bucket(Day(now), 0, Some(Minute(now)), None, Gap(0), map[])
  }

  /** The window a sample is folded into: a recreated quota starts over. */
  function Base(w: Snapshot, uid: string): Snapshot
  {
    if w.uid != "" && w.uid != uid then EMPTY else w
  }

  function WithToday(days: seq<Bucket>, now: int): (r: seq<Bucket>)
    ensures IndexAt(r, Day(now)) >= 0
  {
    if IndexAt(days, Day(now)) >= 0 then days else days + [NewBucket(now)]
  }

  /** The days a sample is folded into: pruned, and with a bucket for today. */
  function Opened(days: seq<Bucket>, now: int, windowDays: int): (r: seq<Bucket>)
    ensures IndexAt(r, Day(now)) >= 0
  {
    WithToday(Surviving(days, Day(now), windowDays), now)
  }

  predicate OpeningChanges(days: seq<Bucket>, now: int, windowDays: int)
  {
    var kept := Surviving(days, Day(now), windowDays);
    |kept| != |days| || IndexAt(kept, Day(now)) < 0
  }

  function FoldedDays(days: seq<Bucket>, i: int, s: Sample, lastSample: Option<int>): seq<Bucket>
    requires 0 <= i < |days|
  {
    days[i := Fold(days[i], s, lastSample)]
  }

  function Observed(w: Snapshot, s: Sample, windowDays: int): Snapshot
  {
    var base := Base(w, s.uid);
    var days := Opened(base.days, s.now, windowDays);
    Snapshot(s.uid, Some(s.now), base.lastWrite,
             FoldedDays(days, IndexAt(days, Day(s.now)), s, base.lastSample))
  }

  predicate Changed(w: Snapshot, s: Sample, windowDays: int)
  {
    var base := Base(w, s.uid);
    var days := Opened(base.days, s.now, windowDays);
    || OpeningChanges(base.days, s.now, windowDays)
    || Raises(days[IndexAt(days, Day(s.now))].peaks, s.used)
  }

  /** The slot of the old slice that keeps sharing today's map of peaks, or -1. */
  function SharedSlot(days: seq<Bucket>, now: int, windowDays: int): (j: int)
    ensures j < |days|
  {
    if IndexAt(Surviving(days, Day(now), windowDays), Day(now)) >= 0 then IndexAt(days, Day(now)) else -1
  }

  /** What another holder of the same slice sees after the sample is folded: today's bucket is
      shared, unless pruning copied the buckets, and then its map of peaks still is. */
  function SharedAfter(w: Snapshot, s: Sample, windowDays: int): seq<Bucket>
  {
    if Base(w, s.uid) != w then w.days
    else SharedFold(w.days, SharedSlot(w.days, s.now, windowDays), !OpeningChanges(w.days, s.now, windowDays),
                    s, w.lastSample)
  }

  function SharedFold(days: seq<Bucket>, j: int, whole: bool, s: Sample, lastSample: Option<int>): seq<Bucket>
    requires j < |days|
  {
    if j < 0 then days
    else if whole then days[j := Fold(days[j], s, lastSample)]
    else days[j := days[j].(peaks := PeaksAfter(days[j].peaks, s.used))]
  }

  predicate Covered(b: Bucket)
  {
    && b.first.Some? && b.last.Some?
    && b.maxGap.Gap? && b.maxGap.seconds <= 3600
    && b.first.value <= 30 && b.last.value >= 23 * 60 + 30
  }

  predicate DayComplete(days: seq<Bucket>, res: Resource, date: int)
  {
    var i := LastIndexOf(days, date);
    i >= 0 && Covered(days[i]) && res in days[i].peaks && days[i].peaks[res].Amount?
  }

  predicate Complete(days: seq<Bucket>, res: Resource, today: int, windowDays: int)
  {
    forall date :: today - windowDays <= date < today ==> DayComplete(days, res, date)
  }

  /** A bucket that Peak takes into account for a resource. */
  predicate Counts(b: Bucket, res: Resource, today: int, windowDays: int)
  {
    && today - windowDays <= b.date < today
    && res in b.peaks && b.peaks[res].Amount? && Measurable(b.peaks[res].milli)
  }

  /** The largest amount that counts, or None when nothing counts. */
  ghost predicate IsPeak(p: Option<int>, days: seq<Bucket>, res: Resource, today: int, windowDays: int)
  {
    && (p.None? <==> forall i :: 0 <= i < |days| ==> !Counts(days[i], res, today, windowDays))
    && (p.Some? ==>
          && (exists i :: 0 <= i < |days| && Counts(days[i], res, today, windowDays)
                          && days[i].peaks[res].milli == p.value)
          && (forall i :: 0 <= i < |days| && Counts(days[i], res, today, windowDays)
                          ==> days[i].peaks[res].milli <= p.value))
  }

  function PeakOf(days: seq<Bucket>, res: Resource, today: int, windowDays: int): (p: Option<int>)
    ensures IsPeak(p, days, res, today, windowDays)
  {
    if days == [] then None else
    var front, b := days[..|days| - 1], days[|days| - 1];
    var best := PeakOf(front, res, today, windowDays);
    if !Counts(b, res, today, windowDays) then
      assert forall i :: 0 <= i < |front| ==> days[i] == front[i];
      best
    else if best.None? || b.peaks[res].milli > best.value then
      assert forall i :: 0 <= i < |front| ==> days[i] == front[i];
      Some(b.peaks[res].milli)
    else
      assert forall i :: 0 <= i < |front| ==> days[i] == front[i];
      best
  }

  lemma PeakOfNothing(res: Resource, today: int, windowDays: int)
    ensures PeakOf([], res, today, windowDays) == None
  {
  }

  lemma PeakStep(days: seq<Bucket>, k: nat, res: Resource, today: int, windowDays: int)
    requires k < |days|
    ensures var best, b := PeakOf(days[..k], res, today, windowDays), days[k];
            PeakOf(days[..k + 1], res, today, windowDays) ==
            if Counts(b, res, today, windowDays) && (best.None? || b.peaks[res].milli > best.value)
            then Some(b.peaks[res].milli) else best
  {
    assert days[..k + 1][..k] == days[..k];
    hide IsPeak;
  }

  /* ---------- the persisted form ---------- */

  /** The window annotation: missing, undecodable, or a window of some schema version. */
  datatype Raw = Absent | Garbage | Encoded(version: int, view: Snapshot)

  predicate DuplicateDates(days: seq<Bucket>)
  {
    exists i, j :: 0 <= i < j < |days| && days[i].date == days[j].date
  }

  method HasDuplicateDates(days: seq<Bucket>) returns (dup: bool)
    ensures dup <==> DuplicateDates(days)
  {
    var seen: set<int> := {};
    for k := 0 to |days|
      invariant forall d :: d in seen <==> exists j :: 0 <= j < k && days[j].date == d
      invariant forall i, j :: 0 <= i < j < k ==> days[i].date != days[j].date
    {
      if days[k].date in seen {
        return true;
      }
      seen := seen + {days[k].date};
    }
    dup := false;
  }

  function Decode(raw: Raw): Snapshot
  {
    if raw.Encoded? && raw.version == 1 && !DuplicateDates(raw.view.days) then raw.view else EMPTY
  }

  predicate DistinctDates(days: seq<Bucket>)
  {
    forall i, j :: 0 <= i < j < |days| ==> days[i].date != days[j].date
  }

  method DecodeWindow(raw: Raw) returns (w: Snapshot)
    ensures w == Decode(raw)
    ensures var readable := raw.Encoded? && raw.version == 1 && DistinctDates(raw.view.days);
            w == if readable then raw.view else Snapshot("", None, None, [])
    ensures DistinctDates(w.days)
  {
    if raw.Encoded? && raw.version == 1 {
      var dup := HasDuplicateDates(raw.view.days);
      if !dup {
        return raw.view;
      }
    }
    w := EMPTY;
  }

  function Encode(w: Snapshot): Raw
  {
    Encoded(1, w)
  }

  lemma SurvivingAll(days: seq<Bucket>, today: int, windowDays: int)
    requires |Surviving(days, today, windowDays)| == |days|
    ensures Surviving(days, today, windowDays) == days
  {
    if days != [] {
      SurvivingAll(days[..|days| - 1], today, windowDays);
    }
  }

  /** The positions that pruning keeps, in order. */
  function Survivors(days: seq<Bucket>, today: int, windowDays: int): (r: seq<int>)
    ensures |r| == |Surviving(days, today, windowDays)|
  {
    if days == [] then [] else
    var rest := Survivors(days[..|days| - 1], today, windowDays);
    if InWindow(days[|days| - 1].date, today, windowDays) then rest + [|days| - 1] else rest
  }

  lemma SurvivingStep(days: seq<Bucket>, k: nat, today: int, windowDays: int)
    requires k < |days|
    ensures Surviving(days[..k + 1], today, windowDays) == Surviving(days[..k], today, windowDays)
              + (if InWindow(days[k].date, today, windowDays) then [days[k]] else [])
    ensures Survivors(days[..k + 1], today, windowDays) == Survivors(days[..k], today, windowDays)
              + (if InWindow(days[k].date, today, windowDays) then [k] else [])
  {
    assert days[..k + 1][..k] == days[..k];
  }

  lemma NoSurvivors(days: seq<Bucket>, today: int, windowDays: int)
    ensures Surviving(days[..0], today, windowDays) == [] && Survivors(days[..0], today, windowDays) == []
  {
  }

  lemma SurvivorsIncrease(days: seq<Bucket>, today: int, windowDays: int)
    ensures var from := Survivors(days, today, windowDays);
            && (forall i :: 0 <= i < |from| ==> 0 <= from[i] < |days|)
            && (forall i, j :: 0 <= i < j < |from| ==> from[i] < from[j])
  {
    if days != [] {
      SurvivorsIncrease(days[..|days| - 1], today, windowDays);
    }
  }

  lemma AllSurvivors(days: seq<Bucket>, today: int, windowDays: int)
    requires |Surviving(days, today, windowDays)| == |days|
    ensures forall i :: 0 <= i < |days| ==> Survivors(days, today, windowDays)[i] == i
  {
    if days != [] {
      AllSurvivors(days[..|days| - 1], today, windowDays);
    }
  }

  /** Pruning keeps the first bucket of a date exactly when the date is in the window. */
  lemma {:induction false} SurvivorAt(days: seq<Bucket>, today: int, windowDays: int, date: int)
    ensures var i := IndexAt(Surviving(days, today, windowDays), date);
            var j := IndexAt(days, date);
            if i < 0 then j < 0 || !InWindow(date, today, windowDays)
            else j >= 0 && InWindow(date, today, windowDays) && Survivors(days, today, windowDays)[i] == j
  {
    if days != [] {
      var front := days[..|days| - 1];
      SurvivorAt(front, today, windowDays, date);
      if InWindow(days[|days| - 1].date, today, windowDays) {
        var kept, from := Surviving(front, today, windowDays), Survivors(front, today, windowDays);
        var kept', from' := kept + [days[|days| - 1]], from + [|days| - 1];
        assert kept' == Surviving(days, today, windowDays) && from' == Survivors(days, today, windowDays);
        assert kept'[..|kept'| - 1] == kept;
      }
    }
  }

  lemma {:induction false} SurvivingAt(days: seq<Bucket>, today: int, windowDays: int, i: nat)
    requires i < |Surviving(days, today, windowDays)|
    ensures var j := Survivors(days, today, windowDays)[i];
            0 <= j < |days| && Surviving(days, today, windowDays)[i] == days[j]
  {
    var front := days[..|days| - 1];
    if i < |Surviving(front, today, windowDays)| { SurvivingAt(front, today, windowDays, i); }
  }
}
