/** The pull-request protocol of one quota (internal/controller/resourcequota_controller.go) as a state
    machine: one reconciler, people who merge and close, and a forge and an API server that fail
    before or after taking effect. A crash is possible between any two calls. */
module Protocol {
  import opened Options
  import opened Calls
  import opened Policies
  import opened WindowModel
  import opened DecisionRule

  datatype Status = Open | Merged | Closed

  /** One commit to the branch of a pull request, and the limits the decision behind it saw. */
  datatype Commit = Commit(hard: map<Resource, int>, targets: map<Resource, int>)

  /** The direction is the one in the branch name; scanFailed says that the decision behind it missed the
      pending shortages. */
  datatype PR = PR(direction: Direction, status: Status, createdAt: int, commits: seq<Commit>, scanFailed: bool)

  /** One version of the Lease, without the observation window. */
  datatype Lease = Lease(
    prid: int,
    direction: Option<Direction>,
    lastModified: Option<int>,
    lastGrow: Option<int>,
    lastShrink: Option<int>)

  const FREE := Lease(0, None, None, None, None)

  /** What the checks on an open pull request allow. */
  datatype Readiness = AutoMergeOff | Unknown | CanMerge | NotReady

  /** The ways CreatePR ends: nothing was opened, the answer was lost (or the process died) after the
      pull request was opened, or it was opened and the labels were or were not attached. */
  datatype Creation = NotCreated | AnswerLost | Unlabelled(closes: bool) | Labelled

  datatype Entry =
    | Created(id: int, at: int, inp: Input)
    | Recorded(id: int, at: int)
    | Released(id: int, at: int, merged: bool)

  /** What the reconciler is about to do. */
  datatype PC =
    | Idle
    | CheckStatus(st: Lease, inp: Input, d: Decision)
    | Release(merged: bool, at: int)
    | Expire(st: Lease)
    | ReleaseExpired(at: int)
    | Merge(st: Lease, inp: Input, d: Decision)
    | ReleaseMerged(at: int)
    | Update(st: Lease, inp: Input, d: Decision)
    | Find(st: Lease, inp: Input, d: Decision, scanFailed: bool)
    | Adopt(id: int, direction: Direction)
    | Create(inp: Input, d: Decision, scanFailed: bool)
    | Record(id: int, direction: Direction)

  datatype World = World(
    prs: map<int, PR>,
    versions: seq<Lease>,
    clock: int,
    pc: PC,
    log: seq<Entry>,
    merges: set<int>,
    stale: bool,
    missed: bool)

  const INIT := World(map[], [FREE], 0, Idle, [], {}, false, false)

  datatype Event =
    | Tick(seconds: nat)
    | HumanMerges(id: int)
    | HumanCloses(id: int)
    | WindowWritten
    | Stop
    | Begin(version: nat, inp: Input, d: Decision, scanFailed: bool)
    | StatusRead(outcome: Outcome, lagging: bool, readiness: Readiness)
    | Called(outcome: Outcome)
    | Found(outcome: Outcome, id: int, noop: bool)
    | Opens(id: int, creation: Creation)

  function Current(w: World): Lease
    requires w.versions != []
  {
    w.versions[|w.versions| - 1]
  }

  predicate NoneOpen(prs: map<int, PR>)
  {
    forall id :: id in prs ==> prs[id].status != Open
  }

  function WithStatus(prs: map<int, PR>, id: int, status: Status): map<int, PR>
  {
    if id in prs && prs[id].status == Open then prs[id := prs[id].(status := status)] else prs
  }

  /* ---------- the closures that MutateState applies ---------- */

  function ReleasedIn(l: Lease, merged: bool, at: int): Lease
  {
    var shrink, free := l.direction == Some(Shrink), l.(prid := 0, direction := None);
    if !merged then if shrink then free.(lastShrink := Some(at)) else free
    else if shrink then free.(lastModified := Some(at), lastShrink := Some(at))
    else free.(lastModified := Some(at), lastGrow := Some(at))
  }

  function ExpiredIn(l: Lease, at: int): Lease
  {
    l.(prid := 0, direction := None, lastShrink := Some(at))
  }

  function AutoMergedIn(l: Lease, at: int): Lease
  {
    l.(prid := 0, direction := None, lastModified := Some(at), lastGrow := Some(at))
  }

  function AdoptedIn(l: Lease, id: int, direction: Direction): Lease
  {
    l.(prid := id, direction := Some(direction))
  }

  function RecordedIn(l: Lease, id: int, direction: Direction, at: int): Lease
  {
    var held := AdoptedIn(l, id, direction);
    if direction == Shrink then held.(lastShrink := Some(at)) else held.(lastGrow := Some(at))
  }

  /** MutateState: atomic on the current version, whatever version was read before. */
  function Mutated(w: World, l: Lease, entry: Option<Entry>, outcome: Outcome): World
  {
    if outcome == Fails then w.(pc := Idle)
    else w.(versions := w.versions + [l], pc := Idle, log := if entry.Some? then w.log + [entry.value] else w.log)
  }

  /* ---------- the steps ---------- */

  /** GetState and Decide: any version may be read, and what follows depends on it. */
  ghost predicate CanBegin(w: World, version: nat, inp: Input, d: Decision)
  {
    && w.pc == Idle && version < |w.versions|
    && inp.now == w.clock && ValidPolicy(inp.policy)
    && inp.lastGrow == w.versions[version].lastGrow && inp.lastShrink == w.versions[version].lastShrink
    && IsDecision(d, inp)
  }

  function Begun(st: Lease, inp: Input, d: Decision, scanFailed: bool): PC
  {
    if st.prid != 0 then CheckStatus(st, inp, d)
    else if (d.direction == Shrink && scanFailed) || d.direction == NoChange then Idle
    else Find(st, inp, d, scanFailed)
  }

  predicate ShouldClose(inp: Input, pr: PR, d: Decision, clock: int)
  {
    d.direction == Grow || clock - pr.createdAt > inp.policy.shrinkPRTTL
  }

  function AfterMerging(st: Lease, inp: Input, d: Decision): PC
  {
    if d.direction == Grow then Update(st, inp, d) else Idle
  }

  /** GetPRStatus; the forge may still call a pull request open that was just merged or closed. */
  function StatusKnown(w: World, pr: PR, lagging: bool, readiness: Readiness): PC
    requires w.pc.CheckStatus?
  {
    var CheckStatus(st, inp, d) := w.pc;
    if pr.status != Open && !lagging then Release(pr.status == Merged, w.clock)
    else if st.direction == Some(Shrink) && ShouldClose(inp, pr, d, w.clock) then Expire(st)
    else if st.direction != Some(Shrink) && readiness == Unknown then Idle
    else if st.direction != Some(Shrink) && readiness == CanMerge then Merge(st, inp, d)
    else AfterMerging(st, inp, d)
  }

  /** Nothing is open: propose, unless nothing would change or growing has to wait. */
  function Proposing(pc: PC, noop: bool, clock: int): PC
    requires pc.Find?
  {
    var Find(st, inp, d, scanFailed) := pc;
    if noop then Idle
    else if d.direction == Grow && st.lastModified.Some?
            && clock - st.lastModified.value < inp.policy.growCooldown then Idle
    else Create(inp, d, scanFailed)
  }

  /** FindOpenPR answered: adopt what is open, or propose. */
  function Proposal(w: World, id: int, noop: bool): PC
    requires w.pc.Find? && (id == 0 || id in w.prs)
  {
    if id != 0 then Adopt(id, w.prs[id].direction) else Proposing(w.pc, noop, w.clock)
  }

  /** A search answers with an open pull request, or with none. It can miss one that is open, when its
      pages are not of one list (see Branches). */
  predicate CanFind(w: World, id: int)
  {
    id == 0 || (id in w.prs && w.prs[id].status == Open)
  }

  predicate Misses(w: World, id: int)
  {
    id == 0 && !NoneOpen(w.prs)
  }

  /** CreatePR takes back a shrink that it could not label. */
  function NewPR(inp: Input, d: Decision, scanFailed: bool, clock: int, creation: Creation): PR
  {
    var closes := creation.Unlabelled? && creation.closes && d.direction == Shrink;
    PR(d.direction, if closes then Closed else Open, clock, [Commit(inp.hard, d.targets)], scanFailed)
  }

  function OpenedIn(w: World, id: int, creation: Creation): World
    requires w.pc.Create?
  {
    var Create(inp, d, scanFailed) := w.pc;
    var known := creation == Labelled || (creation.Unlabelled? && d.direction == Grow);
    if creation == NotCreated then w.(pc := Idle)
    else w.(prs := w.prs[id := NewPR(inp, d, scanFailed, w.clock, creation)],
            log := w.log + [Created(id, w.clock, inp)],
            pc := if known then Record(id, d.direction) else Idle)
  }

  /** A remote call of the reconciler other than reading a status, searching and creating. */
  function Call(w: World, outcome: Outcome): World
    requires w.versions != []
  {
    var l := Current(w);
    match w.pc
    case Release(merged, at) => Mutated(w, ReleasedIn(l, merged, at), Some(Released(l.prid, at, merged)), outcome)
    case Expire(st) =>
      if outcome == Fails then w.(pc := Idle)
      else w.(prs := WithStatus(w.prs, st.prid, Closed),
              pc := if outcome == Done then ReleaseExpired(w.clock) else Idle)
    case ReleaseExpired(at) => Mutated(w, ExpiredIn(l, at), Some(Released(l.prid, at, false)), outcome)
    case Merge(st, inp, d) =>
      if outcome == Fails || !(st.prid in w.prs && w.prs[st.prid].status == Open)
      then w.(merges := w.merges + {st.prid}, pc := AfterMerging(st, inp, d))
      else w.(prs := WithStatus(w.prs, st.prid, Merged), merges := w.merges + {st.prid},
              pc := if outcome == Done then ReleaseMerged(w.clock) else AfterMerging(st, inp, d))
    case ReleaseMerged(at) => Mutated(w, AutoMergedIn(l, at), Some(Released(l.prid, at, true)), outcome)
    case Update(st, inp, d) =>
      if outcome == Fails || st.prid !in w.prs then w.(pc := Idle)
      else w.(prs := w.prs[st.prid := Amended(w.prs[st.prid], Commit(inp.hard, d.targets))], pc := Idle)
    case Adopt(id, direction) => Mutated(w, AdoptedIn(l, id, direction), None, outcome)
    case Record(id, direction) =>
      Mutated(w, RecordedIn(l, id, direction, w.clock), Some(Recorded(id, w.clock)), outcome)
    case _ => w
  }

  function Amended(pr: PR, c: Commit): PR
  {
    pr.(commits := pr.commits + [c])
  }

  /** An event that is not possible in a state changes nothing. */
  ghost function Step(w: World, e: Event): (next: World)
    requires w.versions != []
    ensures next.versions != []
  {
    match e
    case Tick(seconds) => w.(clock := w.clock + seconds)
    case HumanMerges(id) => w.(prs := WithStatus(w.prs, id, Merged))
    case HumanCloses(id) => w.(prs := WithStatus(w.prs, id, Closed))
    case WindowWritten => w.(versions := w.versions + [Current(w)])
    case Stop => w.(pc := Idle)
    case Begin(version, inp, d, scanFailed) =>
      if CanBegin(w, version, inp, d) then
        w.(pc := Begun(w.versions[version], inp, d, scanFailed),
           stale := w.stale || w.versions[version] != Current(w))
      else w
    case StatusRead(outcome, lagging, readiness) =>
      if !w.pc.CheckStatus? then w
      else if outcome != Done || w.pc.st.prid !in w.prs then w.(pc := Idle)
      else w.(pc := StatusKnown(w, w.prs[w.pc.st.prid], lagging, readiness))
    case Called(outcome) => Call(w, outcome)
    case Found(outcome, id, noop) =>
      if !w.pc.Find? then w
      else if outcome != Done then w.(pc := Idle)
      else if CanFind(w, id) then w.(pc := Proposal(w, id, noop), missed := w.missed || Misses(w, id)) else w
    case Opens(id, creation) =>
      if w.pc.Create? && id > 0 && id !in w.prs then OpenedIn(w, id, creation) else w
  }

  ghost function After(events: seq<Event>): (w: World)
    ensures w.versions != []
  {
    if events == [] then INIT else Step(After(events[..|events| - 1]), events[|events| - 1])
  }

  lemma AfterOne(events: seq<Event>, e: Event)
    ensures After(events + [e]) == Step(After(events), e)
  {
    hide Step;
    assert (events + [e])[..|events|] == events;
  }

  lemma AfterCall(events: seq<Event>, outcome: Outcome)
    ensures After(events + [Called(outcome)]) == Call(After(events), outcome)
  {
    AfterOne(events, Called(outcome));
  }
}
