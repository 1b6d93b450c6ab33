/** The reconciler itself (internal/controller/resourcequota_controller.go): handlers that call the forge
    and the API server in order. Every execution is a run of the protocol, so that what holds of all
    runs holds of it; a crash leaves a prefix of such a run. */
module Reconciling {
  import opened Options
  import opened Calls
  import opened Policies
  import opened WindowModel
  import opened DecisionRule
  import Deciding
  import opened Protocol
  import opened ProtocolSafety

  datatype MergeState = UnknownState | Clean | Blocked | OtherState

  /** What GetPRStatus returns. */
  datatype PRStatus = PRStatus(
    isOpen: bool,
    isMerged: bool,
    createdAt: int,
    mergeable: bool,
    state: MergeState,
    checksPassed: bool,
    checks: nat)

  predicate Mergeable(s: PRStatus)
  {
    s.mergeable && (s.state == Clean || (s.state == Blocked && (s.checksPassed || s.checks == 0)))
  }

  function ReadinessOf(autoMerge: bool, s: PRStatus): Readiness
  {
    if !autoMerge then AutoMergeOff
    else if s.state == UnknownState then Unknown
    else if Mergeable(s) then CanMerge
    else NotReady
  }

  /** What an open pull request leads to. */
  function Answered(st: Lease, inp: Input, d: Decision, s: PRStatus, autoMerge: bool, clock: int): PC
  {
    var r := ReadinessOf(autoMerge, s);
    if st.direction == Some(Shrink) && (d.direction == Grow || clock - s.createdAt > inp.policy.shrinkPRTTL)
    then Expire(st)
    else if st.direction != Some(Shrink) && r == Unknown then Idle
    else if st.direction != Some(Shrink) && r == CanMerge then Merge(st, inp, d)
    else AfterMerging(st, inp, d)
  }

  /** What GetPRStatus answered, and when; how MergePR ended; what UpdatePR was given; what FindOpenPR
      answered, and when. */
  datatype StatusCall = StatusCall(id: int, answer: Option<PRStatus>, at: int)
  datatype MergeCall = MergeCall(id: int, ok: bool)
  datatype UpdateCall = UpdateCall(id: int, targets: map<Resource, int>)
  datatype SearchCall = SearchCall(answer: Option<int>, at: int)

  /** The calls of the reconciler so far, by kind, and the decisions it made. */
  datatype CallLog = CallLog(
    lookups: seq<Option<Lease>>,
    begun: seq<(Input, Decision)>,
    statuses: seq<StatusCall>,
    merges: seq<MergeCall>,
    closes: seq<int>,
    updates: seq<UpdateCall>,
    searches: seq<SearchCall>,
    creates: seq<Decision>)

  function MergedIds(merges: seq<MergeCall>): (ids: set<int>)
    ensures merges == [] ==> ids == {}
  {
    set c | c in merges :: c.id
  }

  lemma OneMoreMerged(merges: seq<MergeCall>, c: MergeCall)
    ensures MergedIds(merges + [c]) == MergedIds(merges) + {c.id}
  {
    assert c in merges + [c];
    forall x | x in merges ensures x in merges + [c] {}
  }

  const NO_CALLS := CallLog([], [], [], [], [], [], [], [])

  /** What the flags and the annotation of the namespace configure. */
  datatype Config = Config(enableAutoMerge: bool, annotation: Option<string>)

  /** An open pull request that is not closed: a merge is asked for exactly when auto-merge is on for the
      namespace, the Lease does not say shrink, and the forge says mergeable, and clean or only blocked without a
      failing check; an update with the targets exactly when one that is no shrink meets a decision to grow,
      unless it was just merged or the forge still computes whether it can be. */
  ghost predicate HandledOpen(before: CallLog, after: CallLog, st: Lease, d: Decision, config: Config, s: PRStatus)
  {
    var on, shrink := config.enableAutoMerge && config.annotation != Some("false"), st.direction == Some(Shrink);
    var merging := !shrink && on && s.mergeable
                   && (s.state == Clean || (s.state == Blocked && (s.checksPassed || s.checks == 0)));
    var n := |before.merges|;
    var merged := merging && |after.merges| > n && after.merges[n].ok;
    var updating := !shrink && d.direction == Grow && !(on && s.state == UnknownState) && !merged;
    && after.merges == (if merging then before.merges + [MergeCall(st.prid, merged)] else before.merges)
    && after.updates == (if updating then before.updates + [UpdateCall(st.prid, d.targets)] else before.updates)
    && after == before.(merges := after.merges, updates := after.updates)
  }

  /** One status was read; an open shrink is closed exactly when it gives way to growth or is too old. */
  ghost predicate HandledActive(before: CallLog, after: CallLog, st: Lease, inp: Input, d: Decision, config: Config)
  {
    var n := |before.statuses|;
    && |after.statuses| == n + 1 && after.statuses == before.statuses + [after.statuses[n]]
    && after.statuses[n].id == st.prid
    && var s, at := after.statuses[n].answer, after.statuses[n].at;
    var read := before.(statuses := after.statuses);
    if s.None? || !s.value.isOpen then after == read
    else if st.direction == Some(Shrink) && (d.direction == Grow || at - s.value.createdAt > inp.policy.shrinkPRTTL)
    then after == read.(closes := before.closes + [st.prid])
    else HandledOpen(read, after, st, d, config, s.value)
  }

  /** One search was made, and a pull request is created exactly when it found none, some target is not in the
      spec yet, and growing need not wait. */
  ghost predicate HandledProposal(before: CallLog, after: CallLog, st: Lease, spec: map<Resource, int>, inp: Input,
                                  d: Decision)
  {
    var n := |before.searches|;
    && |after.searches| == n + 1 && after.searches == before.searches + [after.searches[n]]
    && var found, at := after.searches[n].answer, after.searches[n].at;
    var noop := forall res :: res in d.targets ==> res in spec && spec[res] == d.targets[res];
    var waits := d.direction == Grow && st.lastModified.Some? && at - st.lastModified.value < inp.policy.growCooldown;
    && after.creates == (if found == Some(0) && !noop && !waits then before.creates + [d] else before.creates)
    && after == before.(searches := after.searches, creates := after.creates)
  }

  /** One pass: nothing in a namespace that opted out; otherwise the Lease is read, and with it a decision on
      exactly these readings is made and followed. */
  ghost predicate HandledPass(before: CallLog, after: CallLog, inp: Input, spec: map<Resource, int>, scanned: bool,
                              config: Config)
  {
    var n := |before.lookups|;
    if !inp.policy.enabled then after == before
    else
      && |after.lookups| == n + 1 && after.lookups == before.lookups + [after.lookups[n]]
      && if after.lookups[n].None? then after == before.(lookups := after.lookups)
         else
           var st, m := after.lookups[n].value, |before.begun|;
           && |after.begun| == m + 1 && after.begun == before.begun + [after.begun[m]]
           && var read, d := after.begun[m].0, after.begun[m].1;
           var begun := before.(lookups := after.lookups, begun := after.begun);
           && read == inp.(now := read.now, lastGrow := st.lastGrow, lastShrink := st.lastShrink) && IsDecision(d, read)
           && if st.prid != 0 then HandledActive(begun, after, st, read, d, config)
              else if d.direction == NoChange || (d.direction == Shrink && !scanned) then after == begun
              else HandledProposal(begun, after, st, spec, read, d)
  }

  lemma OpenKeeps(before: CallLog, after: CallLog, st: Lease, d: Decision, config: Config, s: PRStatus)
    requires HandledOpen(before, after, st, d, config, s)
    ensures after == before.(merges := after.merges, updates := after.updates)
  {
  }

  lemma OffMeansNoMerge(before: CallLog, after: CallLog, inp: Input, spec: map<Resource, int>, scanned: bool,
                        config: Config)
    requires HandledPass(before, after, inp, spec, scanned, config)
    ensures !config.enableAutoMerge || config.annotation == Some("false") ==> after.merges == before.merges
  {
    hide IsDecision;
  }

  lemma HandlersKeep(before: CallLog, after: CallLog, st: Lease, spec: map<Resource, int>, inp: Input, d: Decision,
                     config: Config)
    ensures HandledActive(before, after, st, inp, d, config) || HandledProposal(before, after, st, spec, inp, d) ==>
      after.lookups == before.lookups && after.begun == before.begun
  {
  }

  /** The forge and the API server. Before each call takes effect, people, the observer and the clock
      may move, and each call may fail. The ghost fields record the run. */
  class Services {
    var prs: map<int, PR>
    var versions: seq<Lease>
    var clock: int
    ghost var pc: PC
    ghost var log: seq<Entry>
    ghost var merges: set<int>
    ghost var stale: bool
    ghost var missed: bool
    ghost var trace: seq<Event>
    ghost var calls: CallLog

    ghost function State(): World
      reads this
    {
      World(prs, versions, clock, pc, log, merges, stale, missed)
    }

    ghost predicate Valid()
      reads this
    {
      versions != [] && After(trace) == State() && merges == MergedIds(calls.merges)
    }

    constructor ()
      ensures Valid() && pc == Idle && trace == [] && calls == NO_CALLS
    {
      prs, versions, clock := map[], [FREE], 0;
      pc, log, merges, stale, missed, trace := Idle, [], {}, false, false, [];
      calls := NO_CALLS;
    }

    /** What others do in between. */
    method Interleave()
      requires Valid()
      modifies this
      ensures Valid() && pc == old(pc) && old(trace) <= trace && old(versions) <= versions && calls == old(calls)
    {
      var n: nat := *;
      for i := 0 to if n < 0 then 0 else n
        invariant Valid() && pc == old(pc) && old(trace) <= trace && old(versions) <= versions && calls == old(calls)
      {
        var e: Event := *;
        if e.Tick? || e.HumanMerges? || e.HumanCloses? || e.WindowWritten? {
          Others(e);
        }
      }
    }

    method Others(e: Event)
      requires Valid() && (e.Tick? || e.HumanMerges? || e.HumanCloses? || e.WindowWritten?)
      modifies this
      ensures Valid() && pc == old(pc) && old(trace) <= trace && old(versions) <= versions && calls == old(calls)
    {
      hide After, CanBegin, Call, StatusKnown, Proposal, CanFind, OpenedIn, WithStatus;
      AfterOne(trace, e);
      match e {
        case Tick(seconds) => clock := clock + seconds;
        case HumanMerges(id) => prs := WithStatus(prs, id, Merged);
        case HumanCloses(id) => prs := WithStatus(prs, id, Closed);
        case WindowWritten => versions := versions + [versions[|versions| - 1]];
      }
      trace := trace + [e];
    }

    /** A read of the Lease, possibly of an older version. */
    method GetState() returns (st: Option<Lease>, ghost version: nat)
      requires Valid()
      modifies this
      ensures Valid() && pc == old(pc) && old(trace) <= trace
      ensures st.Some? ==> version < |versions| && st.value == versions[version]
      ensures calls == old(calls).(lookups := old(calls.lookups) + [st])
    {
      Interleave();
      var k: nat := *;
      if 0 <= k < |versions| {
        st, version := Some(versions[k]), k;
      } else {
        st, version := None, 0;
      }
      calls := calls.(lookups := calls.lookups + [st]);
    }

    /** The decision is made. */
    ghost method Began(version: nat, inp: Input, d: Decision, scanFailed: bool)
      requires Valid() && CanBegin(State(), version, inp, d)
      modifies `pc, `stale, `trace, `calls
      ensures Valid() && old(trace) <= trace
      ensures pc == Begun(versions[version], inp, d, scanFailed)
      ensures calls == old(calls).(begun := old(calls.begun) + [(inp, d)])
    {
      hide IsDecision, ValidPolicy;
      var e := Begin(version, inp, d, scanFailed);
      AfterOne(trace, e);
      var w := Step(State(), e);
      pc, stale, trace := w.pc, w.stale, trace + [e];
      calls := calls.(begun := calls.begun + [(inp, d)]);
    }

    method GetPRStatus(id: int, ghost autoMerge: bool) returns (status: Option<PRStatus>)
      requires Valid() && pc.CheckStatus? && pc.st.prid == id
      modifies this
      ensures Valid() && old(trace) <= trace
      ensures status.None? ==> pc == Idle
      ensures status.Some? ==>
        && status.value.isOpen == !pc.Release?
        && old(pc).CheckStatus?
        && var CheckStatus(st, inp, d) := old(pc);
        && (pc.Release? ==> pc == Release(status.value.isMerged, clock))
        && (!pc.Release? ==> pc == Answered(st, inp, d, status.value, autoMerge, clock))
      ensures calls == old(calls).(statuses := old(calls.statuses) + [StatusCall(id, status, clock)])
    {
      hide After, CanBegin, Call, Proposal, OpenedIn, WithStatus;
      Interleave();
      var fails: bool, lagging: bool := *, *;
      if fails || id !in prs {
        Advance(StatusRead(Fails, false, NotReady));
        calls := calls.(statuses := calls.statuses + [StatusCall(id, None, clock)]);
        return None;
      }
      var pr := prs[id];
      var s: PRStatus := *;
      s := s.(isOpen := pr.status == Open || lagging, isMerged := pr.status == Merged, createdAt := pr.createdAt);
      status := Some(s);
      Advance(StatusRead(Done, lagging, ReadinessOf(autoMerge, s)));
      calls := calls.(statuses := calls.statuses + [StatusCall(id, status, clock)]);
    }

    /** A step of the reconciler that changes nothing but what it is about to do. */
    ghost method Advance(e: Event)
      requires Valid() && (e.StatusRead? || e.Found? || (e.Stop? && pc.Create?))
      modifies `pc, `missed, `trace
      ensures Valid() && old(trace) <= trace && State() == Step(old(State()), e)
    {
      hide After, CanBegin, Call, StatusKnown, Proposal, CanFind, Misses, OpenedIn, WithStatus;
      AfterOne(trace, e);
      var w := Step(State(), e);
      pc, missed, trace := w.pc, w.missed, trace + [e];
    }

    /** Some outcome; the caller learns only whether the call reported success. */
    method Draw() returns (outcome: Outcome)
    {
      outcome := *;
    }

    method ClosePR(id: int) returns (ok: bool)
      requires Valid() && pc.Expire? && pc.st.prid == id
      modifies this
      ensures Valid() && old(trace) <= trace
      ensures pc == if ok then ReleaseExpired(clock) else Idle
      ensures calls == old(calls).(closes := old(calls.closes) + [id])
    {
      hide After;
      Interleave();
      var outcome := Draw();
      var e := Called(outcome);
      AfterCall(trace, outcome);
      ok := outcome == Done;
      if outcome != Fails {
        prs := WithStatus(prs, id, Closed);
      }
      pc, trace := if ok then ReleaseExpired(clock) else Idle, trace + [e];
      calls := calls.(closes := calls.closes + [id]);
    }

    method MergePR(id: int) returns (ok: bool)
      requires Valid() && pc.Merge? && pc.st.prid == id
      modifies this
      ensures Valid() && old(trace) <= trace
      ensures old(pc).Merge? && pc == if ok then ReleaseMerged(clock)
                                      else AfterMerging(old(pc.st), old(pc.inp), old(pc.d))
      ensures calls == old(calls).(merges := old(calls.merges) + [MergeCall(id, ok)])
    {
      hide After;
      Interleave();
      var outcome := Draw();
      var e := Called(outcome);
      AfterCall(trace, outcome);
      var open := id in prs && prs[id].status == Open;
      ok := outcome == Done && open;
      pc, merges := if ok then ReleaseMerged(clock) else AfterMerging(pc.st, pc.inp, pc.d), merges + {id};
      if outcome != Fails && open {
        prs := WithStatus(prs, id, Merged);
      }
      trace := trace + [e];
      OneMoreMerged(calls.merges, MergeCall(id, ok));
      calls := calls.(merges := calls.merges + [MergeCall(id, ok)]);
    }

    method UpdatePR(id: int, hard: map<Resource, int>, targets: map<Resource, int>) returns (ok: bool)
      requires Valid() && pc.Update? && pc.st.prid == id && pc.inp.hard == hard && pc.d.targets == targets
      modifies this
      ensures Valid() && old(trace) <= trace && pc == Idle
      ensures calls == old(calls).(updates := old(calls.updates) + [UpdateCall(id, targets)])
    {
      hide After;
      Interleave();
      var outcome := Draw();
      var e := Called(outcome);
      AfterCall(trace, outcome);
      ok := outcome == Done && id in prs;
      if outcome != Fails && id in prs {
        prs := prs[id := Amended(prs[id], Commit(hard, targets))];
      }
      pc, trace := Idle, trace + [e];
      calls := calls.(updates := calls.updates + [UpdateCall(id, targets)]);
    }

    /** The number and the direction of an open pull request of the quota, or zero, which a listing whose
        pages do not fit together can also answer when one is open. */
    method FindOpenPR(ghost noop: bool) returns (found: Option<(int, Direction)>)
      requires Valid() && pc.Find?
      modifies this
      ensures Valid() && old(trace) <= trace
      ensures found.None? ==> pc == Idle
      ensures found.Some? && found.value.0 != 0 ==> pc == Adopt(found.value.0, found.value.1)
      ensures found.Some? && found.value.0 == 0 ==> old(pc).Find? && pc == Proposing(old(pc), noop, clock)
      ensures var answer := if found.Some? then Some(found.value.0) else None;
              calls == old(calls).(searches := old(calls.searches) + [SearchCall(answer, clock)])
    {
      Interleave();
      var fails: bool, torn: bool := *, *;
      if fails {
        Advance(Found(Fails, 0, noop));
        calls := calls.(searches := calls.searches + [SearchCall(None, clock)]);
        return None;
      }
      if id :| id in prs && id != 0 && prs[id].status == Open && !torn {
        found := Some((id, prs[id].direction));
        Advance(Found(Done, id, noop));
      } else {
        found := Some((0, NoChange));
        Advance(Found(Done, 0, noop));
      }
      calls := calls.(searches := calls.searches + [SearchCall(Some(found.value.0), clock)]);
    }

    method CreatePR(inp: Input, d: Decision, scanFailed: bool) returns (created: Option<int>)
      requires Valid() && pc == Create(inp, d, scanFailed)
      modifies this
      ensures Valid() && old(trace) <= trace
      ensures pc == if created.Some? then Record(created.value, d.direction) else Idle
      ensures calls == old(calls).(creates := old(calls.creates) + [d])
    {
      Interleave();
      calls := calls.(creates := calls.creates + [d]);
      var id: int := *;
      var creation: Creation := *;
      if id <= 0 || id in prs {
        Advance(Stop);
        return None;
      }
      created := None;
      if creation == Labelled || (creation.Unlabelled? && d.direction == Grow) {
        created := Some(id);
      }
      Add(id, inp, d, scanFailed, creation);
    }

    method Add(id: int, inp: Input, d: Decision, scanFailed: bool, creation: Creation)
      requires Valid() && pc == Create(inp, d, scanFailed) && id > 0 && id !in prs
      modifies this
      ensures Valid() && old(trace) <= trace
      ensures pc == if creation == Labelled || (creation.Unlabelled? && d.direction == Grow)
                    then Record(id, d.direction) else Idle
      ensures calls == old(calls)
    {
      hide After, CanBegin, Call, StatusKnown, Proposal, CanFind, WithStatus;
      ghost var e := Opens(id, creation);
      AfterOne(trace, e);
      ghost var w := OpenedIn(State(), id, creation);
      if creation != NotCreated {
        var closes := creation.Unlabelled? && creation.closes && d.direction == Shrink;
        var status := if closes then Closed else Open;
        prs := prs[id := PR(d.direction, status, clock, [Commit(inp.hard, d.targets)], scanFailed)];
      }
      pc, log, trace := w.pc, w.log, trace + [e];
    }

    /** Applies a closure to the current version of the Lease, or fails; see ProtocolLease for why this is atomic. */
    method MutateState(fn: (Lease, int) -> Lease) returns (ok: bool)
      requires Valid() && Mutates(pc) && forall l, now :: fn(l, now) == AppliedBy(pc, l, now)
      modifies this
      ensures Valid() && old(trace) <= trace && pc == Idle && calls == old(calls)
    {
      hide After;
      Interleave();
      var outcome := Draw();
      var e := Called(outcome);
      AfterCall(trace, outcome);
      CallMutates(State(), outcome);
      hide Call, AppliedBy;
      ok := outcome == Done;
      ghost var entry := EntryOf(pc, versions[|versions| - 1], clock);
      if outcome != Fails {
        versions := versions + [fn(versions[|versions| - 1], clock)];
        log := if entry.Some? then log + [entry.value] else log;
      }
      pc, trace := Idle, trace + [e];
    }
  }

  predicate Mutates(pc: PC)
  {
    pc.Release? || pc.ReleaseExpired? || pc.ReleaseMerged? || pc.Adopt? || pc.Record?
  }

  function AppliedBy(pc: PC, l: Lease, now: int): Lease
    requires Mutates(pc)
  {
    match pc
    case Release(merged, at) => ReleasedIn(l, merged, at)
    case ReleaseExpired(at) => ExpiredIn(l, at)
    case ReleaseMerged(at) => AutoMergedIn(l, at)
    case Adopt(id, direction) => AdoptedIn(l, id, direction)
    case Record(id, direction) => RecordedIn(l, id, direction, now)
  }

  function EntryOf(pc: PC, l: Lease, now: int): Option<Entry>
    requires Mutates(pc)
  {
    match pc
    case Release(merged, at) => Some(Released(l.prid, at, merged))
    case ReleaseExpired(at) => Some(Released(l.prid, at, false))
    case ReleaseMerged(at) => Some(Released(l.prid, at, true))
    case Adopt(_, _) => None
    case Record(id, _) => Some(Recorded(id, now))
  }

  lemma CallMutates(w: World, outcome: Outcome)
    requires w.versions != [] && Mutates(w.pc)
    ensures Call(w, outcome)
         == Mutated(w, AppliedBy(w.pc, Current(w), w.clock), EntryOf(w.pc, Current(w), w.clock), outcome)
  {
  }

  class Reconciler {
    const services: Services
    const config: Config

    constructor (services: Services, config: Config)
      ensures this.services == services && this.config == config
    {
      this.services, this.config := services, config;
    }

    /** One pass. A missing map of deficits says that the event scan failed. */
    method Reconcile(hard: map<Resource, int>, spec: map<Resource, int>, used: map<Resource, int>, window: Snapshot,
                     deficits: Option<map<Resource, int>>, policy: Policy)
      requires services.Valid() && services.pc == Idle && ValidPolicy(policy)
      modifies services
      ensures services.Valid() && services.pc == Idle && old(services.trace) <= services.trace
      ensures var shortage := if deficits.Some? then deficits.value else map[];
              HandledPass(old(services.calls), services.calls,
                          Input(0, hard, used, shortage, window, policy, None, None), spec, deficits.Some?, config)
    {
      hide IsDecision, ValidPolicy, After, HandledActive, HandledProposal, MergedIds;
      if !policy.enabled {
        return;
      }
      ghost var before := services.calls;
      var st, version := services.GetState();
      if st.None? {
        return;
      }
      assert services.calls.lookups[|before.lookups|] == st;
      var shortage := if deficits.Some? then deficits.value else map[];
      var inp := Input(services.clock, hard, used, shortage, window, policy, st.value.lastGrow, st.value.lastShrink);
      var d := Deciding.Decide(inp);
      services.Began(version, inp, d, deficits.None?);
      assert services.calls.begun[|before.begun|] == (inp, d);
      ghost var begun := services.calls;
      if st.value.prid != 0 {
        HandleActivePR(st.value, inp, d);
        HandlersKeep(begun, services.calls, st.value, spec, inp, d, config);
        return;
      }
      if d.direction == Shrink && deficits.None? {
        return;
      }
      if d.direction != NoChange {
        HandleNewProposal(st.value, spec, inp, d, deficits.None?);
        HandlersKeep(begun, services.calls, st.value, spec, inp, d, config);
      }
    }

    /** The work queue calls Reconcile again and again, on whatever it reads each time. With auto-merge off, or
        in a namespace that opted out, no merge is ever asked for. */
    method Serve()
      requires services.Valid() && services.pc == Idle
      modifies services
      ensures services.Valid() && services.pc == Idle && old(services.trace) <= services.trace
      ensures !config.enableAutoMerge || config.annotation == Some("false") ==>
        services.calls.merges == old(services.calls.merges) && services.merges == old(services.merges)
    {
      var n: nat := *;
      for i := 0 to if n < 0 then 0 else n
        invariant services.Valid() && services.pc == Idle && old(services.trace) <= services.trace
        invariant !config.enableAutoMerge || config.annotation == Some("false") ==>
          services.calls.merges == old(services.calls.merges)
      {
        var hard: map<Resource, int>, spec: map<Resource, int>, used: map<Resource, int> := *, *, *;
        var window: Snapshot, deficits: Option<map<Resource, int>>, policy: Policy := *, *, *;
        if ValidPolicy(policy) {
          ghost var before := services.calls;
          Reconcile(hard, spec, used, window, deficits, policy);
          ghost var shortage := if deficits.Some? then deficits.value else map[];
          OffMeansNoMerge(before, services.calls, Input(0, hard, used, shortage, window, policy, None, None), spec,
                          deficits.Some?, config);
        }
      }
    }

    method HandleActivePR(st: Lease, inp: Input, d: Decision)
      requires services.Valid() && services.pc == CheckStatus(st, inp, d)
      modifies services
      ensures services.Valid() && services.pc == Idle && old(services.trace) <= services.trace
      ensures HandledActive(old(services.calls), services.calls, st, inp, d, config)
    {
      hide After, IsDecision, ValidPolicy, HandledOpen, Mergeable, MergedIds;
      var autoMerge := config.enableAutoMerge && config.annotation != Some("false");
      ghost var before := services.calls;
      var answer := services.GetPRStatus(st.prid, autoMerge);
      ghost var asked := services.calls;
      assert asked.statuses[|before.statuses|] == StatusCall(st.prid, answer, services.clock);
      if answer.None? {
        return;
      }
      var status, now := answer.value, services.clock;
      if !status.isOpen {
        var _ := services.MutateState((l, _) => ReleasedIn(l, status.isMerged, now));
        return;
      }
      if st.direction == Some(Shrink) {
        if d.direction == Grow || now - status.createdAt > inp.policy.shrinkPRTTL {
          CloseShrink(st);
          return;
        }
      }
      MergeOrUpdate(st, inp, d, status, autoMerge);
      OpenKeeps(asked, services.calls, st, d, config, status);
    }

    /** The rest of it, for an open pull request that stays open. */
    method MergeOrUpdate(st: Lease, inp: Input, d: Decision, status: PRStatus, autoMerge: bool)
      requires services.Valid() && autoMerge == (config.enableAutoMerge && config.annotation != Some("false"))
      requires services.pc == Answered(st, inp, d, status, autoMerge, services.clock) && !services.pc.Expire?
      modifies services
      ensures services.Valid() && services.pc == Idle && old(services.trace) <= services.trace
      ensures HandledOpen(old(services.calls), services.calls, st, d, config, status)
    {
      hide After, MergedIds;
      if autoMerge && st.direction != Some(Shrink) {
        if status.state == UnknownState {
          return;
        }
        if Mergeable(status) {
          var merged := services.MergePR(st.prid);
          if merged {
            var at := services.clock;
            var _ := services.MutateState((l, _) => AutoMergedIn(l, at));
            return;
          }
        }
      }
      if d.direction == Grow {
        var _ := services.UpdatePR(st.prid, inp.hard, d.targets);
      }
    }

    method CloseShrink(st: Lease)
      requires services.Valid() && services.pc == Expire(st)
      modifies services
      ensures services.Valid() && services.pc == Idle && old(services.trace) <= services.trace
      ensures services.calls == old(services.calls).(closes := old(services.calls.closes) + [st.prid])
    {
      hide After;
      var closed := services.ClosePR(st.prid);
      if closed {
        var now := services.clock;
        var _ := services.MutateState((l, _) => ExpiredIn(l, now));
      }
    }

    method IsNoop(spec: map<Resource, int>, targets: map<Resource, int>) returns (noop: bool)
      ensures noop <==> forall res :: res in targets ==> res in spec && spec[res] == targets[res]
    {
      var todo := targets.Keys;
      while todo != {}
        invariant todo <= targets.Keys
        invariant forall res :: res in targets && res !in todo ==> res in spec && spec[res] == targets[res]
      {
        var res :| res in todo;
        if res !in spec || spec[res] != targets[res] {
          return false;
        }
        todo := todo - {res};
      }
      noop := true;
    }

    method HandleNewProposal(st: Lease, spec: map<Resource, int>, inp: Input, d: Decision, scanFailed: bool)
      requires services.Valid() && services.pc == Find(st, inp, d, scanFailed)
      modifies services
      ensures services.Valid() && services.pc == Idle && old(services.trace) <= services.trace
      ensures HandledProposal(old(services.calls), services.calls, st, spec, inp, d)
    {
      hide After, IsDecision, ValidPolicy, CanBegin, Begun, MergedIds, NewPR, Misses;
      var noop := IsNoop(spec, d.targets);
      var found := services.FindOpenPR(noop);
      if found.None? {
        return;
      }
      var (existing, direction) := found.value;
      if existing != 0 {
        var _ := services.MutateState((l, _) => AdoptedIn(l, existing, direction));
        return;
      }
      if noop {
        return;
      }
      if d.direction == Grow && st.lastModified.Some? {
        if services.clock - st.lastModified.value < inp.policy.growCooldown {
          return;
        }
      }
      var created := services.CreatePR(inp, d, scanFailed);
      if created.Some? {
        var id := created.value;
        var _ := services.MutateState((l, now) => RecordedIn(l, id, d.direction, now));
      }
    }
  }

  /** However the reconciler was interrupted: it asked to merge nothing but growth, and unless a search missed
      an open pull request, one is open at most. */
  lemma ReconcilerIsSafe(s: Services, a: int, b: int)
    requires s.Valid()
    ensures a in s.merges ==> a in s.prs && s.prs[a].direction == Grow
    ensures !s.missed && a in s.prs && b in s.prs && s.prs[a].status == Open && s.prs[b].status == Open ==> a == b
  {
    RunIsSafe(s.trace);
    hide VersionsTrack, PcSound, PRSound;
  }
}
