/** What holds in every reachable state of the protocol: shrinks are never merged by the controller,
    and a quota never has two open pull requests. */
module ProtocolSafety {
  import opened Options
  import opened Calls
  import opened Policies
  import opened WindowModel
  import opened DecisionRule
  import opened DecisionProperties
  import opened Protocol

  /** A version of the Lease that holds a pull request carries the direction of its branch. */
  predicate Tracks(l: Lease, prs: map<int, PR>)
  {
    l.prid != 0 ==> l.prid in prs && l.direction == Some(prs[l.prid].direction)
  }

  predicate VersionsTrack(versions: seq<Lease>, prs: map<int, PR>)
  {
    forall i :: 0 <= i < |versions| ==> Tracks(versions[i], prs)
  }

  ghost predicate Decided(inp: Input, d: Decision)
  {
    ValidPolicy(inp.policy) && IsDecision(d, inp)
  }

  predicate HasDirection(prs: map<int, PR>, id: int, direction: Direction)
  {
    id in prs && prs[id].direction == direction
  }

  ghost predicate PcSound(pc: PC, prs: map<int, PR>)
  {
    match pc
    case CheckStatus(st, inp, d) => st.prid != 0 && Tracks(st, prs) && Decided(inp, d)
    case Expire(st) => HasDirection(prs, st.prid, Shrink)
    case Merge(st, inp, d) => HasDirection(prs, st.prid, Grow) && Decided(inp, d)
    case Update(st, inp, d) => HasDirection(prs, st.prid, Grow) && Decided(inp, d) && d.direction == Grow
    case Find(st, inp, d, scanFailed) => Proposes(inp, d, scanFailed)
    case Create(inp, d, scanFailed) => Proposes(inp, d, scanFailed)
    case Adopt(id, direction) => HasDirection(prs, id, direction)
    case Record(id, direction) => HasDirection(prs, id, direction)
    case _ => true
  }

  ghost predicate Proposes(inp: Input, d: Decision, scanFailed: bool)
  {
    Decided(inp, d) && d.direction != NoChange && (d.direction == Shrink ==> !scanFailed)
  }

  /** Every value of a commit lies beyond the limit that was in force when it was decided. */
  predicate CommitMoves(c: Commit, direction: Direction)
  {
    && c.targets != map[]
    && forall res :: res in c.targets ==>
      res in c.hard && (if direction == Grow then c.targets[res] > c.hard[res] else c.targets[res] < c.hard[res])
  }

  predicate PRSound(pr: PR)
  {
    && pr.direction != NoChange && (pr.direction == Shrink ==> !pr.scanFailed)
    && forall i :: 0 <= i < |pr.commits| ==> CommitMoves(pr.commits[i], pr.direction)
  }

  predicate PRsSound(prs: map<int, PR>)
  {
    forall id :: id in prs ==> id > 0 && PRSound(prs[id])
  }

  predicate MergesSound(merges: set<int>, prs: map<int, PR>)
  {
    forall id :: id in merges ==> HasDirection(prs, id, Grow)
  }

  predicate OneOpen(prs: map<int, PR>, pc: PC)
  {
    && (forall a, b :: a in prs && b in prs && prs[a].status == Open && prs[b].status == Open ==> a == b)
    && (pc.Create? ==> NoneOpen(prs))
  }

  ghost predicate Safe(w: World)
  {
    && w.versions != []
    && VersionsTrack(w.versions, w.prs)
    && PcSound(w.pc, w.prs)
    && PRsSound(w.prs)
    && MergesSound(w.merges, w.prs)
    && (w.missed || OneOpen(w.prs, w.pc))
  }

  /** Pull requests are never forgotten, and keep their branch. */
  predicate Extends(prs: map<int, PR>, prs': map<int, PR>)
  {
    forall id :: id in prs ==> id in prs' && prs'[id].direction == prs[id].direction
  }

  lemma TracksExtended(versions: seq<Lease>, pc: PC, merges: set<int>, prs: map<int, PR>, prs': map<int, PR>)
    requires Extends(prs, prs') && VersionsTrack(versions, prs) && PcSound(pc, prs) && MergesSound(merges, prs)
    ensures VersionsTrack(versions, prs') && PcSound(pc, prs') && MergesSound(merges, prs')
  {
    hide Decided;
    forall i | 0 <= i < |versions| ensures Tracks(versions[i], prs') { assert Tracks(versions[i], prs); }
  }

  lemma DecisionMoves(inp: Input, d: Decision)
    requires Decided(inp, d) && d.direction != NoChange
    ensures CommitMoves(Commit(inp.hard, d.targets), d.direction)
  {
    hide TargetFor, HeadroomFor, GatesOpen, IsReason, RawTargetsOf, Gates, VerdictFor, Comparable;
    assert d.targets.Keys == (if d.direction == Grow then Growing(inp) else Shrinking(inp)) != {};
    hide Growing, Shrinking, IsDecision, TargetsOf;
    forall res | res in d.targets
      ensures res in inp.hard
      ensures if d.direction == Grow then d.targets[res] > inp.hard[res] else d.targets[res] < inp.hard[res]
    {
      DecisionFollowsRule(inp, d, res);
    }
  }

  lemma StatusKeepsSafe(w: World, id: int, status: Status)
    requires Safe(w) && status != Open
    ensures Safe(w.(prs := WithStatus(w.prs, id, status)))
  {
    hide Decided, PcSound, Tracks, CommitMoves;
    var prs' := WithStatus(w.prs, id, status);
    TracksExtended(w.versions, w.pc, w.merges, w.prs, prs');
  }

  lemma MutatedKeepsSafe(w: World, l: Lease, entry: Option<Entry>, outcome: Outcome)
    requires Safe(w) && Tracks(l, w.prs)
    ensures Safe(Mutated(w, l, entry, outcome))
  {
    hide Tracks, PRSound;
  }

  lemma AmendedKeepsSafe(w: World, st: Lease, inp: Input, d: Decision)
    requires Safe(w) && w.pc == Update(st, inp, d)
    ensures Safe(w.(prs := w.prs[st.prid := Amended(w.prs[st.prid], Commit(inp.hard, d.targets))], pc := Idle))
  {
    hide Decided, Tracks, CommitMoves;
    DecisionMoves(inp, d);
    TracksExtended(w.versions, Idle, w.merges, w.prs,
                   w.prs[st.prid := Amended(w.prs[st.prid], Commit(inp.hard, d.targets))]);
  }

  lemma OnlyOneOpened(prs: map<int, PR>, id: int, pr: PR, pc: PC)
    requires NoneOpen(prs) && !pc.Create?
    ensures OneOpen(prs[id := pr], pc)
  {
  }

  lemma NewPRIsSound(inp: Input, d: Decision, scanFailed: bool, clock: int, creation: Creation)
    requires Proposes(inp, d, scanFailed)
    ensures var pr := NewPR(inp, d, scanFailed, clock, creation); PRSound(pr) && pr.direction == d.direction
  {
    DecisionMoves(inp, d);
    hide Decided, CommitMoves;
  }

  lemma AddedKeepsSafe(w: World, id: int, pr: PR, pc: PC, log: seq<Entry>)
    requires Safe(w) && (w.missed || NoneOpen(w.prs)) && id > 0 && id !in w.prs && PRSound(pr)
    requires PcSound(pc, w.prs[id := pr]) && !pc.Create?
    ensures Safe(w.(prs := w.prs[id := pr], pc := pc, log := log))
  {
    hide Decided, Tracks, PRSound, NoneOpen;
    TracksExtended(w.versions, Idle, w.merges, w.prs, w.prs[id := pr]);
    if !w.missed { OnlyOneOpened(w.prs, id, pr, pc); }
  }

  lemma OpenedKeepsSafe(w: World, id: int, creation: Creation, inp: Input, d: Decision, scanFailed: bool)
    requires Safe(w) && w.pc == Create(inp, d, scanFailed) && id > 0 && id !in w.prs
    ensures Safe(OpenedIn(w, id, creation))
  {
    hide Decided, PRSound, NoneOpen, NewPR, Safe;
    PcHolds(w);
    PcMoves(w, Idle);
    CreatesWhenNoneOpen(w);
    NewPRIsSound(inp, d, scanFailed, w.clock, creation);
    var pr := NewPR(inp, d, scanFailed, w.clock, creation);
    var log := w.log + [Created(id, w.clock, inp)];
    AddedKeepsSafe(w, id, pr, Record(id, d.direction), log);
    AddedKeepsSafe(w, id, pr, Idle, log);
  }

  lemma CreatesWhenNoneOpen(w: World)
    requires Safe(w) && w.pc.Create?
    ensures w.missed || NoneOpen(w.prs)
  {
  }

  lemma CallKeepsSafe(w: World, outcome: Outcome)
    requires Safe(w)
    ensures Safe(Call(w, outcome))
  {
    PcHolds(w);
    CurrentTracks(w);
    hide Decided, VersionsTrack, PRSound, OneOpen, Safe;
    var l := Current(w);
    match w.pc
    case Release(merged, at) =>
      MutatedKeepsSafe(w, ReleasedIn(l, merged, at), Some(Released(l.prid, at, merged)), outcome);
    case ReleaseExpired(at) => MutatedKeepsSafe(w, ExpiredIn(l, at), Some(Released(l.prid, at, false)), outcome);
    case ReleaseMerged(at) => MutatedKeepsSafe(w, AutoMergedIn(l, at), Some(Released(l.prid, at, true)), outcome);
    case Adopt(id, direction) =>
      MutatedKeepsSafe(w, AdoptedIn(l, id, direction), None, outcome);
    case Record(id, direction) =>
      MutatedKeepsSafe(w, RecordedIn(l, id, direction, w.clock), Some(Recorded(id, w.clock)), outcome);
    case Update(st, inp, d) =>
      PcMoves(w, Idle);
      if outcome != Fails { AmendedKeepsSafe(w, st, inp, d); }
    case Expire(st) =>
      var next := if outcome == Done then ReleaseExpired(w.clock) else Idle;
      PcMoves(w, next);
      PcMoves(w, Idle);
      StatusKeepsSafe(w.(pc := next), st.prid, Closed);
    case Merge(st, inp, d) => MergeKeepsSafe(w, st, inp, d, outcome);
    case _ =>
  }

  lemma PcHolds(w: World)
    requires Safe(w)
    ensures PcSound(w.pc, w.prs)
  {
  }

  lemma CurrentTracks(w: World)
    requires Safe(w)
    ensures w.versions != [] && Tracks(Current(w), w.prs)
  {
  }

  lemma PcMoves(w: World, pc: PC)
    requires Safe(w) && PcSound(pc, w.prs) && (pc.Create? ==> w.missed || NoneOpen(w.prs))
    ensures Safe(w.(pc := pc))
  {
    hide Decided, PcSound, Tracks, PRSound;
  }

  lemma MergeKeepsSafe(w: World, st: Lease, inp: Input, d: Decision, outcome: Outcome)
    requires Safe(w) && w.pc == Merge(st, inp, d)
    ensures Safe(Call(w, outcome))
  {
    hide Decided, VersionsTrack, PRSound;
    var next := Call(w, outcome).pc;
    var w' := w.(pc := next, merges := w.merges + {st.prid});
    assert Safe(w');
    hide Safe;
    StatusKeepsSafe(w', st.prid, Merged);
  }

  lemma BeginKeepsSafe(w: World, version: nat, inp: Input, d: Decision, scanFailed: bool)
    requires Safe(w)
    ensures Safe(Step(w, Begin(version, inp, d, scanFailed)))
  {
    hide IsDecision, PRSound, OneOpen;
    if CanBegin(w, version, inp, d) {
      var st := w.versions[version];
      assert Tracks(st, w.prs) && Decided(inp, d);
      hide CanBegin, VersionsTrack, Decided;
      if !w.missed { OneOpenMoves(w.prs, w.pc, Begun(st, inp, d, scanFailed)); }
    }
  }

  lemma OneOpenMoves(prs: map<int, PR>, pc: PC, pc': PC)
    requires OneOpen(prs, pc) && !pc'.Create?
    ensures OneOpen(prs, pc')
  {
  }

  lemma StatusReadKeepsSafe(w: World, outcome: Outcome, lagging: bool, readiness: Readiness)
    requires Safe(w)
    ensures Safe(Step(w, StatusRead(outcome, lagging, readiness)))
  {
    hide Decided, CommitMoves, OneOpen, VersionsTrack;
    if w.pc.CheckStatus? && !w.missed {
      OneOpenMoves(w.prs, w.pc, Step(w, StatusRead(outcome, lagging, readiness)).pc);
    }
  }

  lemma FoundKeepsSafe(w: World, outcome: Outcome, id: int, noop: bool)
    requires Safe(w)
    ensures Safe(Step(w, Found(outcome, id, noop)))
  {
    hide Decided, PRSound, VersionsTrack;
    var w' := Step(w, Found(outcome, id, noop));
    if w.pc.Find? {
      MissKeepsSafe(w, w'.missed);
      PcMoves(w.(missed := w'.missed), w'.pc);
    }
  }

  lemma MissKeepsSafe(w: World, missed: bool)
    requires Safe(w) && (w.missed ==> missed)
    ensures Safe(w.(missed := missed))
  {
    hide PcSound, Tracks, PRSound, OneOpen;
  }

  lemma QuietKeepsSafe(w: World, seconds: nat)
    requires Safe(w)
    ensures w.versions != []
    ensures Safe(w.(clock := w.clock + seconds)) && Safe(w.(pc := Idle))
    ensures Safe(w.(versions := w.versions + [Current(w)]))
  {
    hide Tracks, PRSound, CommitMoves, Decided;
  }

  lemma StepKeepsSafe(w: World, e: Event)
    requires Safe(w)
    ensures Safe(Step(w, e))
  {
    hide Safe, Call, OpenedIn, CanBegin, WithStatus, StatusKnown, Proposal, CanFind;
    QuietKeepsSafe(w, if e.Tick? then e.seconds else 0);
    match e
    case HumanMerges(id) => StatusKeepsSafe(w, id, Merged);
    case HumanCloses(id) => StatusKeepsSafe(w, id, Closed);
    case Called(outcome) => CallKeepsSafe(w, outcome);
    case Opens(id, creation) =>
      if w.pc.Create? && id > 0 && id !in w.prs {
        OpenedKeepsSafe(w, id, creation, w.pc.inp, w.pc.d, w.pc.scanFailed);
      }
    case Begin(version, inp, d, scanFailed) => BeginKeepsSafe(w, version, inp, d, scanFailed);
    case StatusRead(outcome, lagging, readiness) => StatusReadKeepsSafe(w, outcome, lagging, readiness);
    case Found(outcome, id, noop) => FoundKeepsSafe(w, outcome, id, noop);
    case _ =>
  }

  lemma {:induction false} RunIsSafe(events: seq<Event>)
    ensures Safe(After(events))
  {
    hide Step, Safe;
    if events == [] {
      InitIsSafe();
    } else {
      RunIsSafe(events[..|events| - 1]);
      StepKeepsSafe(After(events[..|events| - 1]), events[|events| - 1]);
    }
  }

  lemma InitIsSafe()
    ensures Safe(INIT)
  {
  }

  /** In every run, the controller only ever asks to merge a pull request whose branch says grow, and
      every value that was ever written to it exceeded the limit in force when it was decided. */
  lemma OnlyGrowthIsAutoMerged(events: seq<Event>, id: int, i: nat, res: Resource)
    requires id in After(events).merges
    ensures var prs := After(events).prs; id in prs && prs[id].direction == Grow
    ensures var cs := After(events).prs[id].commits;
            i < |cs| && res in cs[i].targets ==> res in cs[i].hard && cs[i].targets[res] > cs[i].hard[res]
  {
    RunIsSafe(events);
    var w := After(events);
    assert HasDirection(w.prs, id, Grow) && PRSound(w.prs[id]);
    var cs := w.prs[id].commits;
    if i < |cs| && res in cs[i].targets { assert CommitMoves(cs[i], Grow); }
  }

  /** In every run in which no search missed an open pull request, at most one is open. */
  lemma AtMostOneOpen(events: seq<Event>, a: int, b: int)
    requires !After(events).missed
    requires var prs := After(events).prs; a in prs && b in prs && prs[a].status == Open && prs[b].status == Open
    ensures a == b
  {
    RunIsSafe(events);
  }

  /** A version of the Lease that holds a pull request says what its branch says. */
  lemma LeaseKnowsDirection(events: seq<Event>, i: nat)
    requires i < |After(events).versions|
    ensures var w := After(events);
            var l := w.versions[i];
            l.prid != 0 ==> l.prid in w.prs && l.direction == Some(w.prs[l.prid].direction)
  {
    RunIsSafe(events);
    assert Tracks(After(events).versions[i], After(events).prs);
  }

  /** Every shrink that was ever proposed knew the pending shortages and lowered what it touched. */
  lemma ShrinksComeFromScans(events: seq<Event>, id: int)
    requires var prs := After(events).prs; id in prs && prs[id].direction == Shrink
    ensures !After(events).prs[id].scanFailed
    ensures forall c, res :: c in After(events).prs[id].commits && res in c.targets ==>
      res in c.hard && c.targets[res] < c.hard[res]
  {
    RunIsSafe(events);
    var pr := After(events).prs[id];
    assert PRSound(pr);
    forall c | c in pr.commits ensures CommitMoves(c, Shrink) {}
  }
}
