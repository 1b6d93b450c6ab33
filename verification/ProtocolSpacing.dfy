/** How far apart shrinks are, over whole runs in which every GetState reads the current Lease. */
module ProtocolSpacing {
  import opened Options
  import opened Calls
  import opened Policies
  import opened DecisionRule
  import opened DecisionProperties
  import opened Protocol
  import opened ProtocolSafety

  /** A shrink was recorded, or released in whatever way. */
  predicate ShrinkStamp(e: Entry, prs: map<int, PR>)
  {
    !e.Created? && HasDirection(prs, e.id, Shrink)
  }

  /** A grow was recorded, or released because it was merged. */
  predicate GrowStamp(e: Entry, prs: map<int, PR>)
  {
    (e.Recorded? || (e.Released? && e.merged)) && HasDirection(prs, e.id, Grow)
  }

  /** A pull request was found merged, or merged by the controller. */
  predicate MergeStamp(e: Entry, prs: map<int, PR>)
  {
    e.Released? && e.merged && e.id in prs
  }

  predicate NotBefore(stamp: Option<int>, at: int)
  {
    stamp.Some? && stamp.value >= at
  }

  predicate NotAfter(stamp: Option<int>, at: int)
  {
    stamp.None? || stamp.value <= at
  }

  predicate EntryStamped(e: Entry, l: Lease, prs: map<int, PR>)
  {
    && (e.id == 0 || e.id in prs)
    && (ShrinkStamp(e, prs) ==> NotBefore(l.lastShrink, e.at))
    && (GrowStamp(e, prs) ==> NotBefore(l.lastGrow, e.at))
    && (MergeStamp(e, prs) ==> NotBefore(l.lastModified, e.at))
  }

  predicate LogStamped(log: seq<Entry>, l: Lease, prs: map<int, PR>)
  {
    forall i :: 0 <= i < |log| ==> EntryStamped(log[i], l, prs)
  }

  /** A proposal keeps its distance from an earlier entry. */
  predicate Spaced(e: Entry, c: Entry, prs: map<int, PR>)
  {
    && (c.Created? && HasDirection(prs, c.id, Shrink) ==>
          && (ShrinkStamp(e, prs) ==> c.at - e.at >= c.inp.policy.shrinkCooldown)
          && (GrowStamp(e, prs) ==> c.at - e.at >= c.inp.policy.windowDays * 86400))
    && (c.Created? && HasDirection(prs, c.id, Grow) ==>
          (MergeStamp(e, prs) ==> c.at - e.at >= c.inp.policy.growCooldown))
  }

  predicate LogSpaced(log: seq<Entry>, prs: map<int, PR>)
  {
    forall i, j :: 0 <= i < j < |log| ==> Spaced(log[i], log[j], prs)
  }

  predicate StampsUpTo(l: Lease, at: int)
  {
    NotAfter(l.lastShrink, at) && NotAfter(l.lastGrow, at) && NotAfter(l.lastModified, at)
  }

  /** What a step under way remembers is still true of the current Lease. */
  predicate PcTimed(pc: PC, l: Lease, prs: map<int, PR>, clock: int)
  {
    match pc
    case CheckStatus(st, _, _) => st.prid == l.prid
    case Merge(st, _, _) => st.prid == l.prid
    case Release(_, at) => StampsUpTo(l, at) && at <= clock
    case ReleaseExpired(at) => StampsUpTo(l, at) && at <= clock
    case ReleaseMerged(at) => StampsUpTo(l, at) && at <= clock && HasDirection(prs, l.prid, Grow)
    case Find(st, inp, _, _) => Read(inp, l, clock) && st.lastModified == l.lastModified
    case Create(inp, d, _) => Read(inp, l, clock) && (d.direction == Grow ==> GrowWaited(inp, l, clock))
    case _ => true
  }

  predicate Read(inp: Input, l: Lease, clock: int)
  {
    inp.lastShrink == l.lastShrink && inp.lastGrow == l.lastGrow && inp.now <= clock
  }

  predicate GrowWaited(inp: Input, l: Lease, clock: int)
  {
    l.lastModified.Some? ==> clock - l.lastModified.value >= inp.policy.growCooldown
  }

  ghost predicate Timed(w: World)
  {
    && w.versions != []
    && StampsUpTo(Current(w), w.clock)
    && LogStamped(w.log, Current(w), w.prs)
    && LogSpaced(w.log, w.prs)
    && PcTimed(w.pc, Current(w), w.prs, w.clock)
  }

  /** The log speaks of the same pull requests when others are added or change their status. */
  lemma LogExtended(log: seq<Entry>, l: Lease, prs: map<int, PR>, prs': map<int, PR>)
    requires LogStamped(log, l, prs) && LogSpaced(log, prs) && Extends(prs, prs') && 0 !in prs'
    ensures LogStamped(log, l, prs') && LogSpaced(log, prs')
  {
    forall i | 0 <= i < |log|
      ensures EntryStamped(log[i], l, prs')
      ensures ShrinkStamp(log[i], prs') <==> ShrinkStamp(log[i], prs)
      ensures GrowStamp(log[i], prs') <==> GrowStamp(log[i], prs)
      ensures MergeStamp(log[i], prs') <==> MergeStamp(log[i], prs)
      ensures HasDirection(prs', log[i].id, Shrink) <==> HasDirection(prs, log[i].id, Shrink)
      ensures HasDirection(prs', log[i].id, Grow) <==> HasDirection(prs, log[i].id, Grow)
    {
      assert EntryStamped(log[i], l, prs);
    }
    hide ShrinkStamp, GrowStamp, MergeStamp, HasDirection, EntryStamped;
    forall i, j | 0 <= i < j < |log| ensures Spaced(log[i], log[j], prs') { assert Spaced(log[i], log[j], prs); }
  }

  /** Stamps only move forward. */
  predicate Forward(l: Lease, l': Lease)
  {
    && (l.lastShrink.Some? ==> NotBefore(l'.lastShrink, l.lastShrink.value))
    && (l.lastGrow.Some? ==> NotBefore(l'.lastGrow, l.lastGrow.value))
    && (l.lastModified.Some? ==> NotBefore(l'.lastModified, l.lastModified.value))
  }

  lemma LogForward(log: seq<Entry>, l: Lease, l': Lease, prs: map<int, PR>)
    requires LogStamped(log, l, prs) && Forward(l, l')
    ensures LogStamped(log, l', prs)
  {
    hide ShrinkStamp, GrowStamp, MergeStamp;
    forall i | 0 <= i < |log| ensures EntryStamped(log[i], l', prs) { assert EntryStamped(log[i], l, prs); }
    hide EntryStamped;
  }

  lemma LogAppended(log: seq<Entry>, l: Lease, prs: map<int, PR>, e: Entry)
    requires LogStamped(log, l, prs) && LogSpaced(log, prs) && EntryStamped(e, l, prs)
    requires forall i :: 0 <= i < |log| ==> Spaced(log[i], e, prs)
    ensures LogStamped(log + [e], l, prs) && LogSpaced(log + [e], prs)
  {
    hide Spaced, EntryStamped;
  }

  lemma MutatedKeepsTimed(w: World, l: Lease, entry: Option<Entry>, outcome: Outcome)
    requires Timed(w) && Forward(Current(w), l) && StampsUpTo(l, w.clock)
    requires entry.Some? ==> !entry.value.Created? && EntryStamped(entry.value, l, w.prs)
    ensures Timed(Mutated(w, l, entry, outcome))
  {
    hide ShrinkStamp, GrowStamp, MergeStamp, HasDirection, Forward, EntryStamped;
    LogForward(w.log, Current(w), l, w.prs);
    if entry.Some? { LogAppended(w.log, l, w.prs, entry.value); }
    hide Spaced;
    assert (w.versions + [l])[|w.versions|] == l;
  }

  lemma ReleaseIsStamped(l: Lease, prs: map<int, PR>, merged: bool, at: int)
    requires Tracks(l, prs) && 0 !in prs && StampsUpTo(l, at)
    ensures Forward(l, ReleasedIn(l, merged, at))
    ensures EntryStamped(Released(l.prid, at, merged), ReleasedIn(l, merged, at), prs)
    ensures Forward(l, ExpiredIn(l, at)) && EntryStamped(Released(l.prid, at, false), ExpiredIn(l, at), prs)
    ensures Forward(l, AutoMergedIn(l, at))
    ensures HasDirection(prs, l.prid, Grow) ==>
      EntryStamped(Released(l.prid, at, true), AutoMergedIn(l, at), prs)
  {
  }

  lemma RecordIsStamped(l: Lease, prs: map<int, PR>, id: int, direction: Direction, at: int)
    requires HasDirection(prs, id, direction) && StampsUpTo(l, at)
    ensures Forward(l, RecordedIn(l, id, direction, at)) && Forward(l, AdoptedIn(l, id, direction))
    ensures EntryStamped(Recorded(id, at), RecordedIn(l, id, direction, at), prs)
  {
  }

  lemma StatusKeepsTimed(w: World, id: int, status: Status)
    requires Safe(w) && Timed(w)
    ensures Timed(w.(prs := WithStatus(w.prs, id, status)))
  {
    hide Safe, LogStamped, LogSpaced;
    var prs' := WithStatus(w.prs, id, status);
    NoZero(w);
    LogExtended(w.log, Current(w), w.prs, prs');
  }

  lemma NoZero(w: World)
    requires Safe(w)
    ensures 0 !in w.prs && w.versions != [] && Tracks(Current(w), w.prs) && PcSound(w.pc, w.prs)
  {
  }

  lemma CallKeepsTimed(w: World, outcome: Outcome)
    requires Safe(w) && Timed(w)
    ensures Timed(Call(w, outcome))
  {
    hide Safe, LogStamped, LogSpaced, EntryStamped, Forward, Decided, Tracks;
    NoZero(w);
    var l := Current(w);
    match w.pc
    case Release(merged, at) =>
      ReleaseIsStamped(l, w.prs, merged, at);
      MutatedKeepsTimed(w, ReleasedIn(l, merged, at), Some(Released(l.prid, at, merged)), outcome);
    case ReleaseExpired(at) =>
      ReleaseIsStamped(l, w.prs, false, at);
      MutatedKeepsTimed(w, ExpiredIn(l, at), Some(Released(l.prid, at, false)), outcome);
    case ReleaseMerged(at) =>
      ReleaseIsStamped(l, w.prs, true, at);
      MutatedKeepsTimed(w, AutoMergedIn(l, at), Some(Released(l.prid, at, true)), outcome);
    case Adopt(id, direction) =>
      RecordIsStamped(l, w.prs, id, direction, w.clock);
      MutatedKeepsTimed(w, AdoptedIn(l, id, direction), None, outcome);
    case Record(id, direction) =>
      RecordIsStamped(l, w.prs, id, direction, w.clock);
      MutatedKeepsTimed(w, RecordedIn(l, id, direction, w.clock), Some(Recorded(id, w.clock)), outcome);
    case Expire(st) => ExpireKeepsTimed(w, st, outcome);
    case Merge(st, inp, d) => MergeKeepsTimed(w, st, inp, d, outcome);
    case Update(st, inp, d) => UpdateKeepsTimed(w, st, inp, d, outcome);
    case _ =>
  }

  lemma ExpireKeepsTimed(w: World, st: Lease, outcome: Outcome)
    requires Safe(w) && Timed(w) && w.pc == Expire(st)
    ensures Timed(Call(w, outcome))
  {
    hide LogStamped, LogSpaced, Safe;
    StatusKeepsTimed(w, st.prid, Closed);
  }

  lemma MergeKeepsTimed(w: World, st: Lease, inp: Input, d: Decision, outcome: Outcome)
    requires Safe(w) && Timed(w) && w.pc == Merge(st, inp, d)
    ensures Timed(Call(w, outcome))
  {
    hide LogStamped, LogSpaced, Safe, Decided;
    NoZero(w);
    StatusKeepsTimed(w, st.prid, Merged);
  }

  lemma UpdateKeepsTimed(w: World, st: Lease, inp: Input, d: Decision, outcome: Outcome)
    requires Safe(w) && Timed(w) && w.pc == Update(st, inp, d)
    ensures Timed(Call(w, outcome))
  {
    hide LogStamped, LogSpaced, Safe, Decided;
    NoZero(w);
    LogExtended(w.log, Current(w), w.prs,
                w.prs[st.prid := Amended(w.prs[st.prid], Commit(inp.hard, d.targets))]);
  }

  /** The gates that measure time, as a shrink decision satisfies them. */
  lemma ShrinkWaits(inp: Input, d: Decision)
    requires Decided(inp, d) && d.direction == Shrink
    ensures inp.lastGrow.Some? ==> inp.now - inp.lastGrow.value >= inp.policy.windowDays * 86400
    ensures inp.lastShrink.Some? ==> inp.now - inp.lastShrink.value >= inp.policy.shrinkCooldown
  {
    hide Recedes, Exceeds, IsReason, RawTargetsOf, TargetsOf, Growing, Shrinking, Gates;
    DecisionFollowsRule(inp, d, "");
  }

  /** What is proposed on a fresh read keeps its distance from everything in the log. */
  lemma CreatedIsSpaced(e: Entry, l: Lease, prs: map<int, PR>, id: int, inp: Input, d: Decision, clock: int)
    requires EntryStamped(e, l, prs) && Read(inp, l, clock) && Decided(inp, d) && HasDirection(prs, id, d.direction)
    requires d.direction == Grow ==> GrowWaited(inp, l, clock)
    ensures Spaced(e, Created(id, clock, inp), prs)
  {
    hide Decided;
    if d.direction == Shrink { ShrinkWaits(inp, d); }
  }

  lemma OpenedKeepsTimed(w: World, id: int, creation: Creation, inp: Input, d: Decision, scanFailed: bool)
    requires Safe(w) && Timed(w) && w.pc == Create(inp, d, scanFailed) && id > 0 && id !in w.prs
    ensures Timed(OpenedIn(w, id, creation))
  {
    hide LogStamped, LogSpaced, Safe, Decided, EntryStamped, Spaced;
    NoZero(w);
    var pr := NewPR(inp, d, scanFailed, w.clock, creation);
    var prs', e := w.prs[id := pr], Created(id, w.clock, inp);
    LogExtended(w.log, Current(w), w.prs, prs');
    LogSpacedFrom(w.log, Current(w), prs', id, inp, d, w.clock);
  }

  lemma LogSpacedFrom(log: seq<Entry>, l: Lease, prs: map<int, PR>, id: int, inp: Input, d: Decision, clock: int)
    requires LogStamped(log, l, prs) && LogSpaced(log, prs) && Read(inp, l, clock) && Decided(inp, d)
    requires HasDirection(prs, id, d.direction) && (d.direction == Grow ==> GrowWaited(inp, l, clock))
    ensures var log' := log + [Created(id, clock, inp)]; LogStamped(log', l, prs) && LogSpaced(log', prs)
  {
    var e := Created(id, clock, inp);
    assert EntryStamped(e, l, prs);
    hide EntryStamped, Spaced, Decided;
    forall i | 0 <= i < |log| ensures Spaced(log[i], e, prs) {
      CreatedIsSpaced(log[i], l, prs, id, inp, d, clock);
    }
    LogAppended(log, l, prs, e);
  }

  lemma BeginKeepsTimed(w: World, version: nat, inp: Input, d: Decision, scanFailed: bool)
    requires Timed(w) && CanBegin(w, version, inp, d) && w.versions[version] == Current(w)
    ensures Timed(Step(w, Begin(version, inp, d, scanFailed)))
  {
    hide LogStamped, LogSpaced, IsDecision;
  }

  lemma AnswerKeepsTimed(w: World, e: Event)
    requires Safe(w) && Timed(w) && (e.StatusRead? || e.Found?)
    ensures Timed(Step(w, e))
  {
    hide LogStamped, LogSpaced, Safe, NoneOpen, Decided;
    NoZero(w);
  }

  lemma TickKeepsTimed(w: World, seconds: nat)
    requires Timed(w)
    ensures Timed(w.(clock := w.clock + seconds)) && Timed(w.(versions := w.versions + [Current(w)]))
  {
    hide LogStamped, LogSpaced;
    assert (w.versions + [Current(w)])[|w.versions|] == Current(w);
  }

  lemma StepKeepsTimed(w: World, e: Event)
    requires Safe(w) && Timed(w)
    ensures !Step(w, e).stale ==> Timed(Step(w, e))
  {
    hide LogStamped, LogSpaced, Safe, CanBegin, Call, CanFind, NoneOpen;
    match e
    case HumanMerges(id) => StatusKeepsTimed(w, id, Merged);
    case HumanCloses(id) => StatusKeepsTimed(w, id, Closed);
    case Called(outcome) => CallKeepsTimed(w, outcome);
    case Opens(id, creation) =>
      if w.pc.Create? && id > 0 && id !in w.prs {
        OpenedKeepsTimed(w, id, creation, w.pc.inp, w.pc.d, w.pc.scanFailed);
      }
    case Begin(version, inp, d, scanFailed) =>
      if CanBegin(w, version, inp, d) {
        BeginVersion(w, version, inp, d);
        if w.versions[version] == Current(w) { BeginKeepsTimed(w, version, inp, d, scanFailed); }
      }
    case StatusRead(_, _, _) => AnswerKeepsTimed(w, e);
    case Found(_, _, _) => AnswerKeepsTimed(w, e);
    case Tick(seconds) => TickKeepsTimed(w, seconds);
    case WindowWritten => TickKeepsTimed(w, 0);
    case Stop =>
  }

  lemma BeginVersion(w: World, version: nat, inp: Input, d: Decision)
    requires CanBegin(w, version, inp, d)
    ensures version < |w.versions|
  {
  }

  lemma StaysStale(w: World, e: Event)
    requires w.versions != [] && w.stale
    ensures Step(w, e).stale
  {
    hide CanBegin, StatusKnown, Proposal, CanFind;
  }

  lemma {:induction false} RunIsTimed(events: seq<Event>)
    ensures !After(events).stale ==> Timed(After(events))
  {
    hide Step, Safe, Timed;
    if events == [] {
      InitIsTimed();
    } else {
      var front := After(events[..|events| - 1]);
      RunIsTimed(events[..|events| - 1]);
      RunIsSafe(events[..|events| - 1]);
      if front.stale { StaysStale(front, events[|events| - 1]); } else { StepKeepsTimed(front, events[|events| - 1]); }
    }
  }

  lemma InitIsTimed()
    ensures Timed(INIT)
  {
  }

  /** In every run with fresh reads, after a shrink was recorded or released, in whatever way, no
      shrink is proposed until the cooldown of the policy then in force has passed; and none within
      the window after a grow was recorded or found merged. */
  lemma ShrinksAreSpaced(events: seq<Event>, i: nat, j: nat)
    requires !After(events).stale && i < j < |After(events).log|
    requires var w := After(events); w.log[j].Created? && HasDirection(w.prs, w.log[j].id, Shrink)
    ensures var w := After(events);
            var e, c := w.log[i], w.log[j];
            && (ShrinkStamp(e, w.prs) ==> c.at - e.at >= c.inp.policy.shrinkCooldown)
            && (GrowStamp(e, w.prs) ==> c.at - e.at >= c.inp.policy.windowDays * 86400)
  {
    RunIsTimed(events);
    assert Spaced(After(events).log[i], After(events).log[j], After(events).prs);
  }

  /** And after a pull request was merged, no grow is proposed until the cooldown for growing has passed. */
  lemma GrowsAreSpaced(events: seq<Event>, i: nat, j: nat)
    requires !After(events).stale && i < j < |After(events).log|
    requires var w := After(events); w.log[j].Created? && HasDirection(w.prs, w.log[j].id, Grow)
    requires MergeStamp(After(events).log[i], After(events).prs)
    ensures var e, c := After(events).log[i], After(events).log[j]; c.at - e.at >= c.inp.policy.growCooldown
  {
    RunIsTimed(events);
    assert Spaced(After(events).log[i], After(events).log[j], After(events).prs);
  }
}
