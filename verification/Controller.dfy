/** The whole controller for one quota: each pass observes, which may write the Lease, and decides on the
    window that this returned. One clock, one Lease and one process serve observation and protocol. */
module Controller {
  import opened Options
  import opened Clock
  import opened Policies
  import opened WindowModel
  import opened ObserverModel
  import opened DecisionRule
  import opened PeakRuns
  import opened EndToEnd
  import O = CoverageRuns
  import P = Protocol
  import ProtocolSafety
  import ProtocolHistory

  /** Acts stands for the clock, people, and the calls of the reconciler. */
  datatype Event =
    | Observe(uid: string, used: map<Resource, int>, windowDays: int, fault: Fault)
    | Forget
    | Crash
    | Acts(e: P.Event)

  /** What happened on both sides so far, and the window that the pass under way was given. */
  datatype World = World(observations: seq<O.Event>, steps: seq<P.Event>, window: Option<Snapshot>)

  const INIT := World([], [], None)

  /** The call stores a window in the Lease. */
  predicate Reaches(st: Store, s: Sample, windowDays: int, fault: Fault)
  {
    !(st.cache.None? && fault == ReadFails) && Writes(st, s, windowDays) && fault != WriteFails
  }

  ghost function Now(w: World): int
  {
    P.After(w.steps).clock
  }

  ghost function Step(w: World, e: Event): World
  {
    match e
    case Observe(uid, used, windowDays, fault) =>
      if P.After(w.steps).pc != P.Idle || uid == "" || windowDays <= 0 || Now(w) < 0 then w
      else
        var s, st := Sample(Now(w), uid, used), O.After(w.observations).store;
        World(w.observations + [O.Observe(s, windowDays, fault)],
              if Reaches(st, s, windowDays, fault) then w.steps + [P.WindowWritten] else w.steps,
              if Errs(st, s, windowDays, fault) then None else ObserverModel.Step(st, s, windowDays, fault).cache)
    case Forget => World(w.observations + [O.Restart], w.steps, None)
    case Crash => World(w.observations + [O.Restart], w.steps + [P.Stop], None)
    case Acts(act) =>
      if act.WindowWritten? || (act.Begin? && w.window != Some(act.inp.window)) then w
      else World(w.observations, w.steps + [act], if act.Begin? || act.Stop? then None else w.window)
  }

  ghost function After(run: seq<Event>): World
  {
    if run == [] then INIT else Step(After(run[..|run| - 1]), run[|run| - 1])
  }

  /* ---------- what the protocol does with inputs ---------- */

  function InputOf(pc: P.PC): Option<Input>
  {
    match pc
    case CheckStatus(_, inp, _) => Some(inp)
    case Merge(_, inp, _) => Some(inp)
    case Update(_, inp, _) => Some(inp)
    case Find(_, inp, _, _) => Some(inp)
    case Create(inp, _, _) => Some(inp)
    case _ => None
  }

  /** A step keeps its input or begins on one, and logs no other. */
  ghost predicate InputsFrom(w: P.World, e: P.Event, next: P.World)
  {
    && w.clock <= next.clock
    && (InputOf(next.pc).Some? ==>
          InputOf(next.pc) == InputOf(w.pc) || (e.Begin? && InputOf(next.pc) == Some(e.inp) && e.inp.now == w.clock))
    && (next.log == w.log
        || exists x :: next.log == w.log + [x] && (x.Created? ==> InputOf(w.pc) == Some(x.inp)))
  }

  lemma MutatedInputs(w: P.World, l: P.Lease, entry: Option<P.Entry>, outcome: P.Calls.Outcome)
    requires entry.Some? ==> !entry.value.Created?
    ensures InputsFrom(w, P.Called(outcome), P.Mutated(w, l, entry, outcome))
  {
  }

  lemma CallInputs(w: P.World, outcome: P.Calls.Outcome)
    requires w.versions != []
    ensures InputsFrom(w, P.Called(outcome), P.Call(w, outcome))
  {
    hide P.WithStatus, P.ReleasedIn, P.ExpiredIn, P.AutoMergedIn, P.AdoptedIn, P.RecordedIn, P.Amended, P.Mutated;
    var l := P.Current(w);
    match w.pc
    case Release(merged, at) =>
      MutatedInputs(w, P.ReleasedIn(l, merged, at), Some(P.Released(l.prid, at, merged)), outcome);
    case ReleaseExpired(at) => MutatedInputs(w, P.ExpiredIn(l, at), Some(P.Released(l.prid, at, false)), outcome);
    case ReleaseMerged(at) => MutatedInputs(w, P.AutoMergedIn(l, at), Some(P.Released(l.prid, at, true)), outcome);
    case Adopt(id, direction) => MutatedInputs(w, P.AdoptedIn(l, id, direction), None, outcome);
    case Record(id, direction) =>
      MutatedInputs(w, P.RecordedIn(l, id, direction, w.clock), Some(P.Recorded(id, w.clock)), outcome);
    case _ =>
  }

  lemma StepInputs(w: P.World, e: P.Event)
    requires w.versions != []
    ensures InputsFrom(w, e, P.Step(w, e))
  {
    hide P.Call, P.WithStatus, P.NewPR, P.NoneOpen, P.ShouldClose, IsDecision, ValidPolicy;
    if e.Called? { CallInputs(w, e.outcome); }
  }

  /* ---------- decisions are made on what was observed ---------- */

  /** The window of an input was the cached one at some moment, and whatever was observed later was observed
      no earlier than the decision. */
  ghost predicate Seen(observations: seq<O.Event>, inp: Input, n: nat)
  {
    && n <= |observations| && DecidesOn(observations[..n], inp)
    && forall i :: n <= i < |observations| && observations[i].Observe? ==> observations[i].s.now >= inp.now
  }

  ghost predicate IsSeen(observations: seq<O.Event>, inp: Input, now: int)
  {
    inp.now <= now && exists n: nat :: Seen(observations, inp, n)
  }

  predicate UpTo(observations: seq<O.Event>, now: int)
  {
    forall i :: 0 <= i < |observations| && observations[i].Observe? ==> observations[i].s.now <= now
  }

  ghost predicate LogSeen(observations: seq<O.Event>, log: seq<P.Entry>, now: int)
  {
    forall k :: 0 <= k < |log| && log[k].Created? ==> IsSeen(observations, log[k].inp, now)
  }

  ghost predicate Inv(w: World)
  {
    var p := P.After(w.steps);
    && O.Admissible(w.observations) && UpTo(w.observations, p.clock)
    && (w.window.Some? ==> O.After(w.observations).store.cache == w.window)
    && (InputOf(p.pc).Some? ==> IsSeen(w.observations, InputOf(p.pc).value, p.clock))
    && LogSeen(w.observations, p.log, p.clock)
  }

  lemma SeenLater(observations: seq<O.Event>, inp: Input, now: int, o: O.Event, later: int)
    requires IsSeen(observations, inp, now) && now <= later && (o.Observe? ==> o.s.now >= now)
    ensures IsSeen(observations + [o], inp, later) && IsSeen(observations, inp, later)
  {
    hide DecidesOn;
    var n: nat :| Seen(observations, inp, n);
    assert (observations + [o])[..n] == observations[..n];
    assert Seen(observations + [o], inp, n);
  }

  lemma LogSeenLater(observations: seq<O.Event>, log: seq<P.Entry>, now: int, o: O.Event, later: int)
    requires LogSeen(observations, log, now) && now <= later && (o.Observe? ==> o.s.now >= now)
    ensures LogSeen(observations + [o], log, later) && LogSeen(observations, log, later)
  {
    hide IsSeen;
    forall k | 0 <= k < |log| && log[k].Created?
      ensures IsSeen(observations + [o], log[k].inp, later) && IsSeen(observations, log[k].inp, later)
    {
      SeenLater(observations, log[k].inp, now, o, later);
    }
  }

  /** One more event on the side of the observer. */
  lemma ObservedKeepsInv(w: World, o: O.Event, window: Option<Snapshot>)
    requires Inv(w) && (o.Observe? ==> o.s.uid != "" && o.windowDays > 0 && o.s.now == Now(w))
    requires window.Some? ==> O.After(w.observations + [o]).store.cache == window
    ensures Inv(World(w.observations + [o], w.steps, window))
  {
    hide IsSeen, P.After, O.After;
    var p := P.After(w.steps);
    if InputOf(p.pc).Some? { SeenLater(w.observations, InputOf(p.pc).value, p.clock, o, p.clock); }
    LogSeenLater(w.observations, p.log, p.clock, o, p.clock);
    hide LogSeen;
  }

  lemma SeenNow(observations: seq<O.Event>, inp: Input)
    requires O.After(observations).store.cache == Some(inp.window)
    ensures IsSeen(observations, inp, inp.now)
  {
    assert observations[..|observations|] == observations;
    assert Seen(observations, inp, |observations|);
  }

  /** One more step of the protocol. */
  lemma ActedKeepsInv(w: World, e: P.Event, window: Option<Snapshot>)
    requires Inv(w) && (window.Some? ==> window == w.window)
    requires e.Begin? ==> w.window == Some(e.inp.window)
    ensures Inv(World(w.observations, w.steps + [e], window))
  {
    hide IsSeen, P.After, O.After, P.Step, InputOf;
    var p, next := P.After(w.steps), P.After(w.steps + [e]);
    P.AfterOne(w.steps, e);
    StepInputs(p, e);
    SameObservations(w.observations, p, e, next);
  }

  lemma SameObservations(observations: seq<O.Event>, p: P.World, e: P.Event, next: P.World)
    requires InputsFrom(p, e, next) && LogSeen(observations, p.log, p.clock) && UpTo(observations, p.clock)
    requires InputOf(p.pc).Some? ==> IsSeen(observations, InputOf(p.pc).value, p.clock)
    requires e.Begin? ==> O.After(observations).store.cache == Some(e.inp.window)
    ensures UpTo(observations, next.clock) && LogSeen(observations, next.log, next.clock)
    ensures InputOf(next.pc).Some? ==> IsSeen(observations, InputOf(next.pc).value, next.clock)
  {
    hide IsSeen, O.After, InputOf;
    LogSeenLater(observations, p.log, p.clock, O.Restart, next.clock);
    if InputOf(p.pc).Some? { SeenLater(observations, InputOf(p.pc).value, p.clock, O.Restart, next.clock); }
    if e.Begin? {
      SeenNow(observations, e.inp);
      if e.inp.now == p.clock { SeenLater(observations, e.inp, e.inp.now, O.Restart, next.clock); }
    }
  }

  lemma StoreNext(w: O.World, s: Sample, windowDays: int, fault: Fault)
    ensures O.Next(w, O.Observe(s, windowDays, fault)).store == ObserverModel.Step(w.store, s, windowDays, fault)
  {
    hide Commit, Tainted, Observed, Changed, Loaded;
  }

  lemma CachedAfter(observations: seq<O.Event>, s: Sample, windowDays: int, fault: Fault)
    ensures O.After(observations + [O.Observe(s, windowDays, fault)]).store
         == ObserverModel.Step(O.After(observations).store, s, windowDays, fault)
  {
    hide ObserverModel.Step, O.Next, O.After;
    var o := O.Observe(s, windowDays, fault);
    assert (observations + [o])[..|observations|] == observations;
    O.AfterLast(observations + [o]);
    StoreNext(O.After(observations), s, windowDays, fault);
  }

  lemma ObserveKeepsInv(w: World, uid: string, used: map<Resource, int>, windowDays: int, fault: Fault)
    requires Inv(w)
    ensures Inv(Step(w, Observe(uid, used, windowDays, fault)))
  {
    hide Inv, P.After, O.After, Reaches, Errs, ObserverModel.Step;
    if P.After(w.steps).pc == P.Idle && uid != "" && windowDays > 0 && Now(w) >= 0 {
      var s, st := Sample(Now(w), uid, used), O.After(w.observations).store;
      var o := O.Observe(s, windowDays, fault);
      var window := if Errs(st, s, windowDays, fault) then None else ObserverModel.Step(st, s, windowDays, fault).cache;
      CachedAfter(w.observations, s, windowDays, fault);
      ObservedKeepsInv(w, o, window);
      var w' := World(w.observations + [o], w.steps, window);
      if Reaches(st, s, windowDays, fault) { ActedKeepsInv(w', P.WindowWritten, window); }
    }
  }

  /** In every run, whatever objects follow one another under the name of the quota: every decision under way,
      and every one that was proposed, was made on a window that was cached at that moment. */
  lemma {:induction false} RunKeepsInv(run: seq<Event>)
    ensures Inv(After(run))
  {
    if run == [] {
      InitInv();
    } else {
      hide Inv, P.After, O.After;
      var w, e := After(run[..|run| - 1]), run[|run| - 1];
      RunKeepsInv(run[..|run| - 1]);
      match e
      case Observe(uid, used, windowDays, fault) => ObserveKeepsInv(w, uid, used, windowDays, fault);
      case Forget => ObservedKeepsInv(w, O.Restart, None);
      case Crash =>
        ObservedKeepsInv(w, O.Restart, None);
        ActedKeepsInv(World(w.observations + [O.Restart], w.steps, None), P.Stop, None);
      case Acts(act) =>
        var w' := Step(w, e);
        if w' != w { ActedKeepsInv(w, act, w'.window); }
    }
  }

  lemma InitInv()
    ensures Inv(INIT)
  {
  }

  /* ---------- down to the pull requests ---------- */

  /** The observations before the decision behind an entry. */
  lemma Moment(run: seq<Event>, k: nat) returns (n: nat)
    requires k < |P.After(After(run).steps).log| && P.After(After(run).steps).log[k].Created?
    ensures var w := After(run);
            && O.Admissible(w.observations) && Seen(w.observations, P.After(w.steps).log[k].inp, n)
  {
    hide After, P.After, Seen, O.Admissible;
    RunKeepsInv(run);
    var w := After(run);
    assert IsSeen(w.observations, P.After(w.steps).log[k].inp, Now(w));
    n :| Seen(w.observations, P.After(w.steps).log[k].inp, n);
  }

  lemma DecidedShrink(inp: Input, d: Decision)
    requires ProtocolSafety.Decided(inp, d)
    ensures ValidPolicy(inp.policy) && IsDecision(d, inp)
  {
  }

  lemma FirstCalls(observations: seq<O.Event>, n: nat)
    requires n <= |observations| && O.Admissible(observations)
    ensures O.Admissible(observations[..n]) && (Reliable(observations) ==> Reliable(observations[..n]))
  {
  }

  /** A sample that was taken before the day of the decision, in the window. */
  predicate OnCompletedDay(s: Sample, inp: Input, res: Resource)
  {
    res in s.used && Day(inp.now) - inp.policy.windowDays <= Day(s.now) < Day(inp.now)
  }

  /** In every run of the controller without a failed write of the window, whatever else fails: a shrink pull
      request covers, in every commit it ever gets, every sample of its quota object that was taken before it,
      since the UID changed, on the completed days of the window, with headroom. Whatever was observed later
      was observed no earlier than the decision. */
  lemma EveryShrinkPRCoversHistory(run: seq<Event>, k: nat, res: Resource, c: P.Commit) returns (n: nat)
    requires Reliable(After(run).observations)
    requires var p := P.After(After(run).steps);
             && k < |p.log| && p.log[k].Created? && p.log[k].id in p.prs
             && p.prs[p.log[k].id].direction == Shrink && c in p.prs[p.log[k].id].commits && res in c.targets
    ensures var w := After(run);
            var inp := P.After(w.steps).log[k].inp;
            && Seen(w.observations, inp, n)
            && var h := O.Stretch(O.Folded(w.observations[..n]));
            && (AllMeasurable(h, res) ==> forall i :: 0 <= i < |h| && OnCompletedDay(h[i], inp, res) ==>
                  StillCovers(inp, res, c.targets[res], h[i].used[res]))
    ensures res in c.hard && c.targets[res] < c.hard[res]
  {
    hide After, P.After, O.After, O.Folded, O.Stretch, IsDecision, ValidPolicy, AllMeasurable, Reliable, StillCovers,
         O.Admissible;
    var w := After(run);
    var e, obs := P.After(w.steps).log[k], w.observations;
    n := Moment(run, k);
    var d := ProtocolHistory.CreatedFromDecision(w.steps, k);
    assert c == P.Commit(e.inp.hard, d.targets);
    DecidedShrink(e.inp, d);
    ShrinkTarget(e.inp, d, res);
    FirstCalls(obs, n);
    var h := O.Stretch(O.Folded(obs[..n]));
    if AllMeasurable(h, res) {
      forall i: nat | i < |h| && OnCompletedDay(h[i], e.inp, res)
        ensures StillCovers(e.inp, res, c.targets[res], h[i].used[res])
      {
        ShrinkCoversHistory(obs[..n], e.inp, d, res, i);
      }
    }
  }

  /** The day was observed by these samples, which are the last ones of their object; and by all of them exactly
      unless the first one of the day came late and nothing was stored before. */
  predicate BorneOut(h: seq<Sample>, own: seq<Sample>, date: int)
  {
    && O.DayObserved(h, date)
    && own == O.Lost(h, own) + h
    && (O.DayObserved(own, date) <==> !O.StartsLate(O.Lost(h, own), h, date))
  }

  /** And its completed days were really observed, whatever failed on either side, by samples of its own object;
      and by all samples ever taken of it exactly unless the first one of the day came late and nothing was stored
      before. */
  lemma EveryShrinkPRWasObserved(run: seq<Event>, k: nat) returns (n: nat)
    requires var p := P.After(After(run).steps);
             k < |p.log| && p.log[k].Created? && p.log[k].id in p.prs && p.prs[p.log[k].id].direction == Shrink
    ensures var w := After(run);
            var inp := P.After(w.steps).log[k].inp;
            && Seen(w.observations, inp, n)
            && var h, own := O.After(w.observations[..n]).cached, O.Own(O.Folded(w.observations[..n]), inp.window.uid);
            && (forall i :: 0 <= i < |h| ==> h[i].uid == inp.window.uid)
            && forall date :: Day(inp.now) - inp.policy.windowDays <= date < Day(inp.now) ==>
                 BorneOut(h, own, date)
  {
    hide After, P.After, O.After, O.Folded, O.Lost, O.Own, IsDecision, ValidPolicy, O.Admissible, O.DayObserved,
         O.StartsLate, DecidesOn;
    var w := After(run);
    var e, obs := P.After(w.steps).log[k], w.observations;
    n := Moment(run, k);
    var d := ProtocolHistory.CreatedFromDecision(w.steps, k);
    DecidedShrink(e.inp, d);
    FirstCalls(obs, n);
    SeenDecides(obs, e.inp, n);
    var h, own := O.After(obs[..n]).cached, O.Own(O.Folded(obs[..n]), e.inp.window.uid);
    OwnCached(obs[..n], e.inp);
    forall date | Day(e.inp.now) - e.inp.policy.windowDays <= date < Day(e.inp.now)
      ensures BorneOut(h, own, date)
    {
      ShrinkRestsOnObservation(obs[..n], e.inp, d, date);
    }
  }

  lemma SeenDecides(obs: seq<O.Event>, inp: Input, n: nat)
    requires Seen(obs, inp, n)
    ensures n <= |obs| && DecidesOn(obs[..n], inp)
  {
  }

  lemma OwnCached(obs: seq<O.Event>, inp: Input)
    requires O.Admissible(obs) && DecidesOn(obs, inp)
    ensures var h := O.After(obs).cached; forall i :: 0 <= i < |h| ==> h[i].uid == inp.window.uid
  {
    hide O.After, O.Sound;
    O.RunKeepsInv(obs);
  }

  /* ---------- and the controller does go on ---------- */

  lemma AfterOne(run: seq<Event>, e: Event)
    ensures After(run + [e]) == Step(After(run), e)
  {
    hide Step;
    assert (run + [e])[..|run|] == run;
  }

  /** A pass that is not disturbed observes a sample taken now, caches the window with it, and may decide on exactly
      this window; and every later step of the pull requests, of people and of the clock is taken as well. */
  lemma PassGoesOn(run: seq<Event>, uid: string, used: map<Resource, int>, windowDays: int, act: P.Event)
    requires P.After(After(run).steps).pc == P.Idle && Now(After(run)) >= 0 && uid != "" && windowDays > 0
    requires !act.WindowWritten?
    ensures Now(After(run)) >= 0
    ensures var w, observed := After(run), After(run + [Observe(uid, used, windowDays, Works)]);
            && observed.observations == w.observations + [O.Observe(Sample(Now(w), uid, used), windowDays, Works)]
            && observed.window.Some? && observed.window == O.After(observed.observations).store.cache
            && observed.window.value.uid == uid && observed.window.value.lastSample == Some(Now(w))
    ensures var observed := After(run + [Observe(uid, used, windowDays, Works)]);
            var acted := After(run + [Observe(uid, used, windowDays, Works)] + [Acts(act)]);
            !act.Begin? || observed.window == Some(act.inp.window) ==>
              P.After(acted.steps) == P.Step(P.After(observed.steps), act)
  {
    hide After, P.After, P.Step, ObserverModel.Step;
    var e := Observe(uid, used, windowDays, Works);
    AfterOne(run, e);
    AfterOne(run + [e], Acts(act));
    var w, observed := After(run), After(run + [e]);
    P.AfterOne(observed.steps, act);
    ObservedNow(w.observations, Sample(Now(w), uid, used), windowDays);
  }

  lemma ObservedNow(observations: seq<O.Event>, s: Sample, windowDays: int)
    ensures var st := O.After(observations).store;
            && !Errs(st, s, windowDays, Works)
            && O.After(observations + [O.Observe(s, windowDays, Works)]).store
               == ObserverModel.Step(st, s, windowDays, Works)
            && ObserverModel.Step(st, s, windowDays, Works).cache.value.uid == s.uid
            && ObserverModel.Step(st, s, windowDays, Works).cache.value.lastSample == Some(s.now)
  {
    hide Changed, SharedAfter, Opened, FoldedDays, Writes;
    assert (observations + [O.Observe(s, windowDays, Works)])[..|observations|] == observations;
  }
}
