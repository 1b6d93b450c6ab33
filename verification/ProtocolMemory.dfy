/** What the Lease remembers of the last shrink and grow, over runs with fresh reads: its stamps are those
    that the last proposal read, unless the log shows a new one since. */
module ProtocolMemory {
  import opened Options
  import opened Calls
  import opened DecisionRule
  import opened Protocol
  import opened ProtocolSafety
  import opened ProtocolSpacing

  predicate NoShrinkStampSince(log: seq<Entry>, i: int, prs: map<int, PR>)
  {
    forall k :: 0 <= i < k < |log| ==> !ShrinkStamp(log[k], prs)
  }

  predicate NoGrowStampSince(log: seq<Entry>, i: int, prs: map<int, PR>)
  {
    forall k :: 0 <= i < k < |log| ==> !GrowStamp(log[k], prs)
  }

  /** A proposal is remembered: it was made on stamps that hold until another one is logged. */
  predicate Remembered(log: seq<Entry>, i: int, l: Lease, prs: map<int, PR>)
    requires 0 <= i < |log|
  {
    log[i].Created? ==>
      && log[i].inp.now <= log[i].at
      && (NoShrinkStampSince(log, i, prs) ==> l.lastShrink == log[i].inp.lastShrink)
      && (NoGrowStampSince(log, i, prs) ==> l.lastGrow == log[i].inp.lastGrow)
  }

  /** The stamps of the Lease are those of entries. */
  predicate StampsLogged(log: seq<Entry>, l: Lease, prs: map<int, PR>)
  {
    && (l.lastShrink.Some? ==>
          exists k :: 0 <= k < |log| && ShrinkStamp(log[k], prs) && log[k].at == l.lastShrink.value)
    && (l.lastGrow.Some? ==>
          exists k :: 0 <= k < |log| && GrowStamp(log[k], prs) && log[k].at == l.lastGrow.value)
  }

  predicate LogRemembered(log: seq<Entry>, l: Lease, prs: map<int, PR>)
  {
    StampsLogged(log, l, prs) && forall i :: 0 <= i < |log| ==> Remembered(log, i, l, prs)
  }

  lemma StampsLoggedLater(log: seq<Entry>, l: Lease, prs: map<int, PR>, e: Entry)
    requires StampsLogged(log, l, prs)
    ensures StampsLogged(log + [e], l, prs)
  {
    hide ShrinkStamp, GrowStamp;
    assert forall k :: 0 <= k < |log| ==> (log + [e])[k] == log[k];
  }

  predicate LogUpTo(log: seq<Entry>, t: int)
  {
    forall i :: 0 <= i < |log| ==> log[i].at <= t
  }

  predicate LogOrdered(log: seq<Entry>)
  {
    forall i, j :: 0 <= i < j < |log| ==> log[i].at <= log[j].at
  }

  /** The pull request that a step under way is about is the one that the Lease holds. */
  predicate PcHeld(pc: PC, l: Lease, prs: map<int, PR>, log: seq<Entry>)
  {
    match pc
    case Release(_, at) => l.prid != 0 && LogUpTo(log, at)
    case Expire(st) => st.prid == l.prid
    case ReleaseExpired(at) => HasDirection(prs, l.prid, Shrink) && LogUpTo(log, at)
    case ReleaseMerged(at) => LogUpTo(log, at)
    case _ => true
  }

  ghost predicate Remembering(w: World)
  {
    && w.versions != []
    && LogOrdered(w.log) && LogUpTo(w.log, w.clock)
    && LogRemembered(w.log, Current(w), w.prs)
    && PcHeld(w.pc, Current(w), w.prs, w.log)
  }

  /** The log speaks of known pull requests, and they keep their direction. */
  lemma RememberedExtended(log: seq<Entry>, l: Lease, prs: map<int, PR>, prs': map<int, PR>)
    requires LogStamped(log, l, prs) && LogRemembered(log, l, prs) && Extends(prs, prs') && 0 !in prs'
    ensures LogRemembered(log, l, prs')
  {
    forall i | 0 <= i < |log|
      ensures ShrinkStamp(log[i], prs') <==> ShrinkStamp(log[i], prs)
      ensures GrowStamp(log[i], prs') <==> GrowStamp(log[i], prs)
    {
      assert EntryStamped(log[i], l, prs);
    }
    hide ShrinkStamp, GrowStamp, EntryStamped;
    forall i | 0 <= i < |log| ensures Remembered(log, i, l, prs') {
      assert Remembered(log, i, l, prs);
      assert NoShrinkStampSince(log, i, prs') <==> NoShrinkStampSince(log, i, prs);
      assert NoGrowStampSince(log, i, prs') <==> NoGrowStampSince(log, i, prs);
    }
  }

  /** A new entry explains whatever changes in the stamps. */
  predicate Explains(e: Entry, l: Lease, l': Lease, prs: map<int, PR>)
  {
    && (l'.lastShrink == l.lastShrink || (ShrinkStamp(e, prs) && l'.lastShrink == Some(e.at)))
    && (l'.lastGrow == l.lastGrow || (GrowStamp(e, prs) && l'.lastGrow == Some(e.at)))
  }

  lemma RememberedAppended(log: seq<Entry>, l: Lease, l': Lease, prs: map<int, PR>, e: Entry)
    requires LogRemembered(log, l, prs) && !e.Created? && Explains(e, l, l', prs)
    ensures LogRemembered(log + [e], l', prs)
  {
    hide ShrinkStamp, GrowStamp, StampsLogged;
    var log' := log + [e];
    StampsExplained(log, l, l', prs, e);
    forall i | 0 <= i < |log'| ensures Remembered(log', i, l', prs) {
      if i < |log| {
        assert Remembered(log, i, l, prs) && log'[i] == log[i] && log'[|log|] == e;
        assert NoShrinkStampSince(log', i, prs) ==> NoShrinkStampSince(log, i, prs) && !ShrinkStamp(e, prs) by {
          assert forall k :: i < k < |log| ==> log'[k] == log[k];
        }
        assert NoGrowStampSince(log', i, prs) ==> NoGrowStampSince(log, i, prs) && !GrowStamp(e, prs) by {
          assert forall k :: i < k < |log| ==> log'[k] == log[k];
        }
      }
    }
  }

  lemma StampsExplained(log: seq<Entry>, l: Lease, l': Lease, prs: map<int, PR>, e: Entry)
    requires StampsLogged(log, l, prs) && Explains(e, l, l', prs)
    ensures StampsLogged(log + [e], l', prs)
  {
    StampsLoggedLater(log, l, prs, e);
    hide ShrinkStamp, GrowStamp;
    assert (log + [e])[|log|] == e;
  }

  lemma OrderedAppended(log: seq<Entry>, e: Entry, clock: int)
    requires LogOrdered(log) && LogUpTo(log, e.at) && e.at <= clock
    ensures LogOrdered(log + [e]) && LogUpTo(log + [e], clock)
  {
  }

  lemma MutatedKeepsMemory(w: World, l: Lease, entry: Option<Entry>, outcome: Outcome)
    requires Remembering(w)
    requires entry.None? ==> l.lastShrink == Current(w).lastShrink && l.lastGrow == Current(w).lastGrow
    requires entry.Some? ==>
      && !entry.value.Created? && Explains(entry.value, Current(w), l, w.prs)
      && LogUpTo(w.log, entry.value.at) && entry.value.at <= w.clock
    ensures Remembering(Mutated(w, l, entry, outcome))
  {
    hide LogOrdered, LogUpTo, Explains, NoShrinkStampSince, NoGrowStampSince;
    assert (w.versions + [l])[|w.versions|] == l;
    if entry.Some? {
      RememberedAppended(w.log, Current(w), l, w.prs, entry.value);
      OrderedAppended(w.log, entry.value, w.clock);
    } else {
      SameStamps(w.log, Current(w), l, w.prs);
    }
    hide LogRemembered;
  }

  lemma SameStamps(log: seq<Entry>, l: Lease, l': Lease, prs: map<int, PR>)
    requires LogRemembered(log, l, prs) && l'.lastShrink == l.lastShrink && l'.lastGrow == l.lastGrow
    ensures LogRemembered(log, l', prs)
  {
    hide NoShrinkStampSince, NoGrowStampSince, ShrinkStamp, GrowStamp;
    forall i | 0 <= i < |log| ensures Remembered(log, i, l', prs) { assert Remembered(log, i, l, prs); }
  }

  /** The closures stamp what they release or record. */
  lemma ClosuresExplain(l: Lease, prs: map<int, PR>, merged: bool, at: int, id: int, direction: Direction)
    requires Tracks(l, prs) && PRsSound(prs)
    ensures l.prid != 0 ==> Explains(Released(l.prid, at, merged), l, ReleasedIn(l, merged, at), prs)
    ensures HasDirection(prs, l.prid, Shrink) ==> Explains(Released(l.prid, at, false), l, ExpiredIn(l, at), prs)
    ensures HasDirection(prs, l.prid, Grow) ==> Explains(Released(l.prid, at, true), l, AutoMergedIn(l, at), prs)
    ensures HasDirection(prs, id, direction) ==> Explains(Recorded(id, at), l, RecordedIn(l, id, direction, at), prs)
  {
    if l.prid != 0 { assert PRSound(prs[l.prid]); }
    if id in prs { assert PRSound(prs[id]); }
  }

  lemma CallKeepsMemory(w: World, outcome: Outcome)
    requires Safe(w) && Timed(w) && Remembering(w)
    ensures Remembering(Call(w, outcome))
  {
    hide Safe, LogStamped, LogSpaced, LogRemembered, LogOrdered, Explains, Decided, Tracks, PRsSound, Forward;
    SafeParts(w);
    var l := Current(w);
    match w.pc
    case Release(merged, at) =>
      ClosuresExplain(l, w.prs, merged, at, 0, Grow);
      MutatedKeepsMemory(w, ReleasedIn(l, merged, at), Some(Released(l.prid, at, merged)), outcome);
    case ReleaseExpired(at) =>
      ClosuresExplain(l, w.prs, false, at, 0, Grow);
      MutatedKeepsMemory(w, ExpiredIn(l, at), Some(Released(l.prid, at, false)), outcome);
    case ReleaseMerged(at) =>
      ClosuresExplain(l, w.prs, true, at, 0, Grow);
      MutatedKeepsMemory(w, AutoMergedIn(l, at), Some(Released(l.prid, at, true)), outcome);
    case Adopt(id, direction) => MutatedKeepsMemory(w, AdoptedIn(l, id, direction), None, outcome);
    case Record(id, direction) =>
      ClosuresExplain(l, w.prs, true, w.clock, id, direction);
      MutatedKeepsMemory(w, RecordedIn(l, id, direction, w.clock), Some(Recorded(id, w.clock)), outcome);
    case Expire(st) => ExpireKeepsMemory(w, st, outcome);
    case Merge(st, inp, d) => MergeKeepsMemory(w, st, inp, d, outcome);
    case Update(st, inp, d) => UpdateKeepsMemory(w, st, inp, d, outcome);
    case _ =>
  }

  lemma SafeParts(w: World)
    requires Safe(w)
    ensures 0 !in w.prs && w.versions != [] && PRsSound(w.prs)
    ensures Tracks(Current(w), w.prs) && PcSound(w.pc, w.prs)
  {
  }

  lemma StatusKeepsMemory(w: World, id: int, status: Status)
    requires Safe(w) && Timed(w) && Remembering(w)
    ensures Remembering(w.(prs := WithStatus(w.prs, id, status)))
  {
    hide Safe, LogStamped, LogSpaced, LogRemembered, LogOrdered, LogUpTo;
    SafeParts(w);
    RememberedExtended(w.log, Current(w), w.prs, WithStatus(w.prs, id, status));
  }

  lemma ExpireKeepsMemory(w: World, st: Lease, outcome: Outcome)
    requires Safe(w) && Timed(w) && Remembering(w) && w.pc == Expire(st)
    ensures Remembering(Call(w, outcome))
  {
    hide LogStamped, LogSpaced, Safe, LogRemembered, LogOrdered, LogUpTo;
    SafeParts(w);
    StatusKeepsMemory(w, st.prid, Closed);
  }

  lemma MergeKeepsMemory(w: World, st: Lease, inp: Input, d: Decision, outcome: Outcome)
    requires Safe(w) && Timed(w) && Remembering(w) && w.pc == Merge(st, inp, d)
    ensures Remembering(Call(w, outcome))
  {
    hide LogStamped, LogSpaced, Safe, Decided, LogRemembered, LogOrdered, LogUpTo;
    SafeParts(w);
    StatusKeepsMemory(w, st.prid, Merged);
  }

  lemma UpdateKeepsMemory(w: World, st: Lease, inp: Input, d: Decision, outcome: Outcome)
    requires Safe(w) && Timed(w) && Remembering(w) && w.pc == Update(st, inp, d)
    ensures Remembering(Call(w, outcome))
  {
    hide LogStamped, LogSpaced, Safe, Decided, LogRemembered, LogOrdered, LogUpTo;
    SafeParts(w);
    RememberedExtended(w.log, Current(w), w.prs,
                       w.prs[st.prid := Amended(w.prs[st.prid], Commit(inp.hard, d.targets))]);
  }

  lemma CreatedIsRemembered(log: seq<Entry>, l: Lease, prs: map<int, PR>, id: int, inp: Input, clock: int)
    requires LogRemembered(log, l, prs) && LogOrdered(log) && LogUpTo(log, clock) && Read(inp, l, clock)
    ensures var log' := log + [Created(id, clock, inp)];
            LogRemembered(log', l, prs) && LogOrdered(log') && LogUpTo(log', clock)
  {
    hide ShrinkStamp, GrowStamp, StampsLogged;
    var e := Created(id, clock, inp);
    var log' := log + [e];
    OrderedAppended(log, e, clock);
    StampsLoggedLater(log, l, prs, e);
    forall i | 0 <= i < |log'| ensures Remembered(log', i, l, prs) {
      if i < |log| {
        assert Remembered(log, i, l, prs) && log'[i] == log[i];
        assert forall k :: i < k < |log| ==> log'[k] == log[k];
      }
    }
  }

  lemma OpenedKeepsMemory(w: World, id: int, creation: Creation, inp: Input, d: Decision, scanFailed: bool)
    requires Safe(w) && Timed(w) && Remembering(w) && w.pc == Create(inp, d, scanFailed) && id > 0 && id !in w.prs
    ensures Remembering(OpenedIn(w, id, creation))
  {
    hide LogStamped, LogSpaced, Safe, Decided, LogRemembered, LogOrdered, LogUpTo, GrowWaited;
    SafeParts(w);
    var prs := w.prs[id := NewPR(inp, d, scanFailed, w.clock, creation)];
    RememberedExtended(w.log, Current(w), w.prs, prs);
    CreatedIsRemembered(w.log, Current(w), prs, id, inp, w.clock);
  }

  /** Reading a status, searching and deciding change only what is about to be done. */
  lemma OnlyPcMoves(w: World, pc: PC, stale: bool, missed: bool)
    requires Remembering(w) && PcHeld(pc, Current(w), w.prs, w.log)
    ensures Remembering(w.(pc := pc, stale := stale)) && Remembering(w.(pc := pc, missed := missed))
    ensures Remembering(w.(pc := pc))
  {
    hide LogRemembered, LogOrdered, LogUpTo, PcHeld;
  }

  lemma StatusIsHeld(w: World, pr: PR, lagging: bool, readiness: Readiness)
    requires Safe(w) && Timed(w) && Remembering(w) && w.pc.CheckStatus? && w.pc.st.prid in w.prs
    ensures PcHeld(StatusKnown(w, pr, lagging, readiness), Current(w), w.prs, w.log)
  {
    hide Safe, LogStamped, LogSpaced, LogRemembered, LogOrdered, ShouldClose, StampsUpTo, Decided;
    SafeParts(w);
  }

  lemma StatusReadKeepsMemory(w: World, outcome: Outcome, lagging: bool, readiness: Readiness)
    requires Safe(w) && Timed(w) && Remembering(w)
    ensures Remembering(Step(w, StatusRead(outcome, lagging, readiness)))
  {
    hide Safe, Timed, Remembering, StatusKnown, PcHeld;
    SafeParts(w);
    IdleIsHeld(w);
    OnlyPcMoves(w, Idle, false, false);
    if w.pc.CheckStatus? && w.pc.st.prid in w.prs {
      var pc := StatusKnown(w, w.prs[w.pc.st.prid], lagging, readiness);
      StatusIsHeld(w, w.prs[w.pc.st.prid], lagging, readiness);
      OnlyPcMoves(w, pc, false, false);
    }
  }

  lemma FoundKeepsMemory(w: World, outcome: Outcome, id: int, noop: bool)
    requires Safe(w) && Remembering(w)
    ensures Remembering(Step(w, Found(outcome, id, noop)))
  {
    hide Safe, Remembering, Proposal, PcHeld, CanFind, Misses;
    SafeParts(w);
    IdleIsHeld(w);
    OnlyPcMoves(w, Idle, false, false);
    if w.pc.Find? && CanFind(w, id) {
      ProposalIsHeld(w, id, noop);
      OnlyPcMoves(w, Proposal(w, id, noop), false, w.missed || Misses(w, id));
    }
  }

  lemma ProposalIsHeld(w: World, id: int, noop: bool)
    requires w.versions != [] && w.pc.Find? && CanFind(w, id)
    ensures id == 0 || id in w.prs
    ensures PcHeld(Proposal(w, id, noop), Current(w), w.prs, w.log)
  {
  }

  lemma BeginKeepsMemory(w: World, version: nat, inp: Input, d: Decision, scanFailed: bool)
    requires Remembering(w)
    ensures Remembering(Step(w, Begin(version, inp, d, scanFailed)))
  {
    hide Remembering, CanBegin, PcHeld, Protocol.Begun;
    IdleIsHeld(w);
    if CanBegin(w, version, inp, d) {
      BeginVersion(w, version, inp, d);
      BegunIsHeld(w, w.versions[version], inp, d, scanFailed);
      OnlyPcMoves(w, Protocol.Begun(w.versions[version], inp, d, scanFailed),
                  w.stale || w.versions[version] != Current(w), false);
    }
  }

  lemma BegunIsHeld(w: World, st: Lease, inp: Input, d: Decision, scanFailed: bool)
    requires w.versions != []
    ensures PcHeld(Protocol.Begun(st, inp, d, scanFailed), Current(w), w.prs, w.log)
  {
  }

  lemma IdleIsHeld(w: World)
    requires Remembering(w)
    ensures w.versions != [] && PcHeld(Idle, Current(w), w.prs, w.log)
  {
  }

  lemma TickKeepsMemory(w: World, seconds: nat)
    requires Remembering(w)
    ensures Remembering(w.(clock := w.clock + seconds)) && Remembering(w.(versions := w.versions + [Current(w)]))
    ensures Remembering(w.(pc := Idle))
  {
    hide LogRemembered, LogOrdered;
    assert (w.versions + [Current(w)])[|w.versions|] == Current(w);
  }

  lemma StepKeepsMemory(w: World, e: Event)
    requires Safe(w) && Timed(w) && Remembering(w)
    ensures Remembering(Step(w, e))
  {
    hide Timed, Remembering, Safe, CanBegin, Call, NoneOpen;
    SafeParts(w);
    match e
    case HumanMerges(id) => StatusKeepsMemory(w, id, Merged);
    case HumanCloses(id) => StatusKeepsMemory(w, id, Closed);
    case Called(outcome) => CallKeepsMemory(w, outcome);
    case Opens(id, creation) =>
      if w.pc.Create? && id > 0 && id !in w.prs {
        OpenedKeepsMemory(w, id, creation, w.pc.inp, w.pc.d, w.pc.scanFailed);
      }
    case Begin(version, inp, d, scanFailed) => BeginKeepsMemory(w, version, inp, d, scanFailed);
    case StatusRead(outcome, lagging, readiness) => StatusReadKeepsMemory(w, outcome, lagging, readiness);
    case Found(outcome, id, noop) => FoundKeepsMemory(w, outcome, id, noop);
    case Tick(seconds) => TickKeepsMemory(w, seconds);
    case WindowWritten => TickKeepsMemory(w, 0);
    case Stop => TickKeepsMemory(w, 0);
  }

  lemma {:induction false} RunRemembers(events: seq<Event>)
    ensures !After(events).stale ==> Remembering(After(events))
  {
    hide Step, Safe, Timed, Remembering;
    if events == [] {
      InitRemembers();
    } else {
      var front, e := After(events[..|events| - 1]), events[|events| - 1];
      RunRemembers(events[..|events| - 1]);
      RunIsTimed(events[..|events| - 1]);
      RunIsSafe(events[..|events| - 1]);
      if front.stale { StaysStale(front, e); } else { StepKeepsMemory(front, e); }
    }
  }

  lemma InitRemembers()
    ensures Remembering(INIT)
  {
  }
}
