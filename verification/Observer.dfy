/** The write-behind cache over the Lease (internal/controller/observation.go), for one quota. */
module ObserverModel {
  import opened Options
  import opened WindowModel

  /** What the API server does to the calls of one Observe: a failed write may or may not have
      taken effect. */
  datatype Fault = Works | ReadFails | WriteFails | WriteUnacknowledged

  /** The window annotation of the Lease, and the cached window if there is one. */
  datatype Store = Store(raw: Raw, cache: Option<Snapshot>)

  predicate HeartbeatElapsed(w: Snapshot, now: int)
  {
    w.lastWrite.None? || now - w.lastWrite.value >= 3600
  }

  function Loaded(st: Store): Snapshot
  {
    if st.cache.Some? then st.cache.value else Decode(st.raw)
  }

  /** After a failed write the cache keeps its own fields but shares what was changed in place. */
  function Tainted(st: Store, s: Sample, windowDays: int): Store
  {
    if st.cache.None? then st
    else st.(cache := Some(st.cache.value.(days := SharedAfter(st.cache.value, s, windowDays))))
  }

  predicate Due(w: Snapshot, changed: bool, now: int)
  {
    changed || HeartbeatElapsed(w, now)
  }

  /** The write, when one is due, and the cache update, which an error skips. */
  function Commit(tainted: Store, w: Snapshot, changed: bool, now: int, fault: Fault): Store
  {
    var stamped := w.(lastWrite := Some(now));
    if !Due(w, changed, now) then tainted.(cache := Some(w))
    else if fault == WriteFails then tainted
    else if fault == WriteUnacknowledged then tainted.(raw := Encode(stamped))
    else Store(Encode(stamped), Some(stamped))
  }

  predicate Writes(st: Store, s: Sample, windowDays: int)
  {
    Due(Observed(Loaded(st), s, windowDays), Changed(Loaded(st), s, windowDays), s.now)
  }

  /** Observe ends in an error. */
  predicate Errs(st: Store, s: Sample, windowDays: int, fault: Fault)
  {
    || (st.cache.None? && fault == ReadFails)
    || (Writes(st, s, windowDays) && fault in {WriteFails, WriteUnacknowledged})
  }

  /** One call of Observe; without an error it returns the window that is then cached. */
  function Step(st: Store, s: Sample, windowDays: int, fault: Fault): (after: Store)
    ensures !Errs(st, s, windowDays, fault) ==> after.cache.Some?
  {
    if st.cache.None? && fault == ReadFails then st
    else Commit(Tainted(st, s, windowDays), Observed(Loaded(st), s, windowDays),
                Changed(Loaded(st), s, windowDays), s.now, fault)
  }
}

module Observation {
  import opened Options
  import opened WindowModel
  import opened ObservationWindow
  import opened ObserverModel

  /** The annotation behind GetState and MutateState; MutateState is atomic (see ProtocolLease). */
  class StateLease {
    var raw: Raw

    method Get(fault: Fault) returns (r: Option<Raw>)
      ensures r == if fault == ReadFails then None else Some(raw)
    {
      r := if fault == ReadFails then None else Some(raw);
    }

    method Mutate(encoded: Raw, fault: Fault) returns (ok: bool)
      modifies this
      ensures ok <==> fault != WriteFails && fault != WriteUnacknowledged
      ensures raw == if fault == WriteFails then old(raw) else encoded
    {
      if fault != WriteFails {
        raw := encoded;
      }
      ok := fault != WriteFails && fault != WriteUnacknowledged;
    }
  }

  /** The heap form of a decoded window. */
  method Build(w: Snapshot) returns (window: Window)
    ensures fresh(window) && fresh(window.days) && fresh(Tables(window.days))
    ensures window.Holds(w)
  {
    var days: seq<DayBucket> := [];
    for k := 0 to |w.days|
      invariant forall i :: 0 <= i < |days| ==> fresh(days[i]) && fresh(days[i].peaks)
      invariant Separate(days) && Shows(days, w.days[..k])
    {
      var table := new PeakTable(w.days[k].peaks);
      var bucket := new DayBucket(w.days[k], table);
      days := days + [bucket];
    }
    assert w.days[..|w.days|] == w.days;
    window := new Window(w.uid, w.lastSample, w.lastWrite, days);
  }

  class Observer {
    const lease: StateLease
    var cached: Window?

    constructor (lease: StateLease)
      ensures this.lease == lease && cached == null
    {
      this.lease, this.cached := lease, null;
    }

    /** The Lease and the cache hold this value. */
    ghost predicate Holds(st: Store)
      reads this, lease
      reads if cached == null then {} else {cached}
      reads if cached == null then [] else cached.days
      reads if cached == null then {} else Tables(cached.days)
    {
      && lease.raw == st.raw
      && (cached == null <==> st.cache.None?)
      && (cached != null ==> cached.Holds(st.cache.value))
    }

    /** A copy of the cached struct, which shares its buckets, or the decoded annotation. */
    method Load(fault: Fault, ghost st: Store) returns (window: Window?)
      requires Holds(st)
      ensures window == null <==> st.cache.None? && fault == ReadFails
      ensures window != null ==> fresh(window) && window.Holds(Loaded(st))
      ensures window != null && cached != null ==> window.days == cached.days
      ensures window != null && cached == null ==> fresh(window.days) && fresh(Tables(window.days))
    {
      if cached != null {
        window := new Window(cached.uid, cached.lastSample, cached.lastWrite, cached.days);
      } else {
        var raw := lease.Get(fault);
        if raw.None? {
          return null;
        }
        var w := DecodeWindow(raw.value);
        window := Build(w);
      }
    }

    /** Folds a sample into the loaded window. The cached struct is left alone, but not what it shares. */
    method Fold(window: Window, s: Sample, windowDays: int, ghost st: Store) returns (changed: bool)
      requires Holds(st)
      requires window.Holds(Loaded(st)) && (cached != null ==> window != cached && window.days == cached.days)
      modifies window, window.days, Tables(window.days)
      ensures window.Holds(Observed(Loaded(st), s, windowDays))
      ensures changed <==> Changed(Loaded(st), s, windowDays)
      ensures Holds(Tainted(st, s, windowDays))
    {
      changed := window.Observe(s, windowDays, Loaded(st));
    }

    /** Writes the window when a write is due and then caches it; an error leaves the cache alone. */
    method Commit(window: Window, changed: bool, now: nat, fault: Fault, ghost w: Snapshot, ghost st: Store)
      returns (ok: bool)
      requires Holds(st) && window.Holds(w) && window != cached
      modifies this, window`lastWrite, lease
      ensures Holds(ObserverModel.Commit(st, w, changed, now, fault))
      ensures ok <==> !Due(w, changed, now) || fault !in {WriteFails, WriteUnacknowledged}
      ensures ok ==> cached == window
    {
      hide Separate;
      ok := true;
      if changed || window.lastWrite.None? || now - window.lastWrite.value >= 3600 {
        window.lastWrite := Some(now);
        var v := window.Value(w.(lastWrite := Some(now)));
        ok := lease.Mutate(Encode(v), fault);
        assert window.Holds(w.(lastWrite := Some(now)));
      }
      if ok {
        cached := window;
      }
    }

    method Observe(s: Sample, windowDays: int, fault: Fault, ghost st: Store) returns (r: Window?)
      requires Holds(st)
      modifies this, lease
      modifies if cached == null then [] else cached.days
      modifies if cached == null then {} else Tables(cached.days)
      ensures Holds(Step(st, s, windowDays, fault))
      ensures r == null <==> Errs(st, s, windowDays, fault)
      ensures r != null ==> r == cached
    {
      var window := Load(fault, st);
      if window == null {
        return null;
      }
      var changed := Fold(window, s, windowDays, st);
      var ok := Commit(window, changed, s.now, fault, Observed(Loaded(st), s, windowDays),
                       Tainted(st, s, windowDays));
      r := if ok then window else null;
    }

    /** The quota disappeared: the next Observe reloads the window from the Lease. */
    method Forget(ghost st: Store)
      requires Holds(st)
      modifies this
      ensures Holds(st.(cache := None))
    {
      cached := null;
    }
  }
}
