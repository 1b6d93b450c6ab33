/** Any number of clients updating one Lease with optimistic concurrency: MutateState
    (internal/lock/state.go) and AcquireLock (internal/lock/lease.go), interleaved call by call. */
module LeaseClients {
  import opened Options
  import opened Calls
  import opened LeaseCodec

  /** What a client wants to do to the Lease. */
  datatype Op = Mutate(fn: State -> State) | Acquire(prid: int)

  /** DefaultRetry tries five times. */
  const ATTEMPTS := 5

  datatype Phase =
    | Ensuring
    | Getting(left: nat)
    | Creating(left: nat)
    | Updating(left: nat, version: nat, copy: LeaseObject)
    | Ended(ok: bool)

  datatype Client = Client(op: Op, phase: Phase)

  /** An update that took effect. */
  datatype Commit = Commit(client: int, op: Op)

  /** The resource version counts the updates. */
  datatype World = World(stored: Option<LeaseObject>, clients: map<int, Client>, commits: seq<Commit>)

  const NEW := LeaseObject(map[], None)
  const INIT := World(None, map[], [])

  datatype Event =
    | Start(c: int, op: Op)
    | Ensure(c: int, outcome: Outcome)
    | Get(c: int, outcome: Outcome)
    | Put(c: int, outcome: Outcome)

  function Effect(op: Op, l: LeaseObject): LeaseObject
  {
    match op
    case Mutate(fn) => Applied(fn(StateFrom(l)), l)
    case Acquire(prid) => l.(holder := Some(FormatHolder(prid)))
  }

  function Moved(w: World, c: int, phase: Phase): World
    requires c in w.clients
  {
    w.(clients := w.clients[c := w.clients[c].(phase := phase)])
  }

  /** RetryOnConflict: read again, unless the attempts are used up. */
  function Conflicted(w: World, c: int, left: nat): World
    requires c in w.clients
  {
    Moved(w, c, if left > 1 then Getting(left - 1) else Ended(false))
  }

  function Committed(w: World, c: int, l: LeaseObject, outcome: Outcome): World
    requires c in w.clients
  {
    Moved(w, c, Ended(outcome == Done)).(stored := Some(l), commits := w.commits + [Commit(c, w.clients[c].op)])
  }

  predicate HeldByOther(l: LeaseObject, prid: int)
  {
    l.holder.Some? && l.holder.value != FormatHolder(prid)
  }

  function Answer(w: World, c: int, left: nat): World
    requires c in w.clients
  {
    var op := w.clients[c].op;
    if w.stored.None? then Moved(w, c, if op.Mutate? then Ended(false) else Creating(left))
    else if op.Acquire? && HeldByOther(w.stored.value, op.prid) then Moved(w, c, Ended(false))
    else Moved(w, c, Updating(left, |w.commits|, w.stored.value))
  }

  /** The write of an attempt: a create loses to one that came first, an update to any newer version. */
  function Written(w: World, c: int, outcome: Outcome): World
    requires c in w.clients
  {
    var op := w.clients[c].op;
    match w.clients[c].phase
    case Creating(left) =>
      if outcome == Fails then Moved(w, c, Ended(false))
      else if w.stored.Some? then Conflicted(w, c, left)
      else Committed(w, c, Effect(op, NEW), outcome)
    case Updating(left, version, copy) =>
      if outcome == Fails then Moved(w, c, Ended(false))
      else if version != |w.commits| then Conflicted(w, c, left)
      else Committed(w, c, Effect(op, copy), outcome)
    case _ => w
  }

  function Step(w: World, e: Event): World
  {
    match e
    case Start(c, op) =>
      if c in w.clients then w
      else w.(clients := w.clients[c := Client(op, if op.Mutate? then Ensuring else Getting(ATTEMPTS))])
    case Ensure(c, outcome) =>
      if c !in w.clients || !w.clients[c].phase.Ensuring? then w
      else if outcome == Fails then Moved(w, c, Ended(false))
      else
        Moved(w, c, if outcome == Done then Getting(ATTEMPTS) else Ended(false))
          .(stored := if w.stored.Some? then w.stored else Some(NEW))
    case Get(c, outcome) =>
      if c !in w.clients || !w.clients[c].phase.Getting? then w
      else if outcome != Done then Moved(w, c, Ended(false))
      else Answer(w, c, w.clients[c].phase.left)
    case Put(c, outcome) => if c in w.clients then Written(w, c, outcome) else w
  }

  function After(events: seq<Event>): World
  {
    if events == [] then INIT else Step(After(events[..|events| - 1]), events[|events| - 1])
  }

  /** The Lease if the updates that took effect had run one after the other. */
  function Replay(commits: seq<Commit>): LeaseObject
  {
    if commits == [] then NEW
    else Effect(commits[|commits| - 1].op, Replay(commits[..|commits| - 1]))
  }

  function Times(commits: seq<Commit>, c: int): nat
  {
    if commits == [] then 0
    else Times(commits[..|commits| - 1], c) + if commits[|commits| - 1].client == c then 1 else 0
  }

  /** A copy of the current version is the current Lease, and an attempt to lock has seen it free. */
  predicate ClientSound(w: World, c: int)
    requires c in w.clients
  {
    var Client(op, phase) := w.clients[c];
    && (phase.Updating? ==> w.stored.Some? && phase.version <= |w.commits|)
    && (phase.Updating? && phase.version == |w.commits| ==> w.stored == Some(phase.copy))
    && (phase.Updating? && op.Acquire? ==> !HeldByOther(phase.copy, op.prid))
    && (if phase.Ended? then Times(w.commits, c) <= 1 && (phase.ok ==> Times(w.commits, c) == 1)
        else Times(w.commits, c) == 0)
  }

  /** A lock was taken only while it was free or held for the same pull request. */
  predicate CommitSound(commits: seq<Commit>, i: int)
    requires 0 <= i < |commits|
  {
    commits[i].op.Acquire? ==> !HeldByOther(Replay(commits[..i]), commits[i].op.prid)
  }

  /** An update carries the closure, or the pull request, of the client that made it. */
  ghost predicate CommitOwned(x: Commit, clients: map<int, Client>)
  {
    x.client in clients && x.op == clients[x.client].op
  }

  ghost predicate Inv(w: World)
  {
    && (w.stored.None? ==> w.commits == [])
    && (w.stored.Some? ==> w.stored.value == Replay(w.commits))
    && (forall c :: c in w.clients ==> ClientSound(w, c))
    && (forall i :: 0 <= i < |w.commits| ==> CommitSound(w.commits, i))
    && (forall c :: c !in w.clients ==> Times(w.commits, c) == 0)
    && (forall i :: 0 <= i < |w.commits| ==> CommitOwned(w.commits[i], w.clients))
  }

  lemma MovedKeepsInv(w: World, c: int, phase: Phase, stored: Option<LeaseObject>)
    requires Inv(w) && c in w.clients && (stored == w.stored || (w.stored.None? && stored == Some(NEW)))
    requires ClientSound(Moved(w, c, phase).(stored := stored), c)
    ensures Inv(Moved(w, c, phase).(stored := stored))
  {
    hide Effect, HeldByOther, Times, CommitSound;
    var w' := Moved(w, c, phase).(stored := stored);
    forall k | k in w'.clients ensures ClientSound(w', k) {
      if k != c { assert ClientSound(w, k); }
    }
  }

  lemma TimesAppend(commits: seq<Commit>, x: Commit, c: int)
    ensures Times(commits + [x], c) == Times(commits, c) + if x.client == c then 1 else 0
  {
    assert (commits + [x])[..|commits|] == commits;
  }

  lemma CommitsSoundAppend(commits: seq<Commit>, x: Commit)
    requires forall i :: 0 <= i < |commits| ==> CommitSound(commits, i)
    requires x.op.Acquire? ==> !HeldByOther(Replay(commits), x.op.prid)
    ensures forall i :: 0 <= i < |commits| + 1 ==> CommitSound(commits + [x], i)
    ensures Replay(commits + [x]) == Effect(x.op, Replay(commits))
  {
    hide Effect, HeldByOther;
    var next := commits + [x];
    assert next[..|commits|] == commits;
    forall i | 0 <= i < |commits| + 1 ensures CommitSound(next, i) {
      if i < |commits| {
        assert CommitSound(commits, i);
        assert next[..i] == commits[..i];
      }
    }
  }

  lemma CommittedKeepsInv(w: World, c: int, outcome: Outcome)
    requires Inv(w) && c in w.clients && !w.clients[c].phase.Ended?
    requires var op := w.clients[c].op; op.Acquire? ==> !HeldByOther(Replay(w.commits), op.prid)
    ensures Inv(Committed(w, c, Effect(w.clients[c].op, Replay(w.commits)), outcome))
  {
    hide Effect, HeldByOther, CommitSound, Times, Replay;
    var x := Commit(c, w.clients[c].op);
    var w' := Committed(w, c, Effect(x.op, Replay(w.commits)), outcome);
    CommitsSoundAppend(w.commits, x);
    assert ClientSound(w, c);
    TimesAppend(w.commits, x, c);
    forall k | k in w'.clients ensures ClientSound(w', k) {
      TimesAppend(w.commits, x, k);
      if k != c { assert ClientSound(w, k); }
    }
    forall k | k !in w'.clients ensures Times(w'.commits, k) == 0 { TimesAppend(w.commits, x, k); }
  }

  lemma ConflictKeepsInv(w: World, c: int, left: nat)
    requires Inv(w) && c in w.clients && !w.clients[c].phase.Ended?
    ensures Inv(Conflicted(w, c, left)) && Inv(Moved(w, c, Ended(false)))
  {
    hide Replay, Times, CommitSound, HeldByOther;
    assert ClientSound(w, c);
    MovedKeepsInv(w, c, Ended(false), w.stored);
    if left > 1 { MovedKeepsInv(w, c, Getting(left - 1), w.stored); }
  }

  lemma PutKeepsInv(w: World, c: int, outcome: Outcome)
    requires Inv(w) && c in w.clients
    ensures Inv(Written(w, c, outcome))
  {
    hide Times, CommitSound, HeldByOther, Effect;
    assert ClientSound(w, c);
    match w.clients[c].phase
    case Creating(left) =>
      ConflictKeepsInv(w, c, left);
      if outcome != Fails && w.stored.None? {
        FreshIsFree(w.clients[c].op);
        CommittedKeepsInv(w, c, outcome);
      }
    case Updating(left, version, copy) =>
      ConflictKeepsInv(w, c, left);
      if outcome != Fails && version == |w.commits| { CommittedKeepsInv(w, c, outcome); }
    case _ =>
  }

  lemma FreshIsFree(op: Op)
    ensures op.Acquire? ==> !HeldByOther(NEW, op.prid)
  {
  }

  lemma GetKeepsInv(w: World, c: int)
    requires Inv(w) && c in w.clients && w.clients[c].phase.Getting?
    ensures Inv(Answer(w, c, w.clients[c].phase.left)) && Inv(Moved(w, c, Ended(false)))
  {
    hide Times, CommitSound, HeldByOther, Replay;
    assert ClientSound(w, c);
    ConflictKeepsInv(w, c, 1);
    var left, op := w.clients[c].phase.left, w.clients[c].op;
    if w.stored.None? {
      if op.Acquire? { MovedKeepsInv(w, c, Creating(left), w.stored); }
    } else if !(op.Acquire? && HeldByOther(w.stored.value, op.prid)) {
      MovedKeepsInv(w, c, Updating(left, |w.commits|, w.stored.value), w.stored);
    }
  }

  lemma EnsureKeepsInv(w: World, c: int, outcome: Outcome)
    requires Inv(w) && c in w.clients && w.clients[c].phase.Ensuring?
    ensures Inv(Step(w, Ensure(c, outcome)))
  {
    hide Times, CommitSound, HeldByOther, Replay;
    assert ClientSound(w, c);
    ConflictKeepsInv(w, c, 1);
    if outcome != Fails {
      MovedKeepsInv(w, c, if outcome == Done then Getting(ATTEMPTS) else Ended(false),
                    if w.stored.Some? then w.stored else Some(NEW));
    }
  }

  lemma StartKeepsInv(w: World, c: int, op: Op)
    requires Inv(w)
    ensures Inv(Step(w, Start(c, op)))
  {
    hide Times, CommitSound, HeldByOther, Replay;
    var w' := Step(w, Start(c, op));
    forall k | k in w'.clients ensures ClientSound(w', k) {
      if k in w.clients { assert ClientSound(w, k); }
    }
  }

  lemma StepKeepsInv(w: World, e: Event)
    requires Inv(w)
    ensures Inv(Step(w, e))
  {
    hide Inv, Answer, Written;
    match e
    case Start(c, op) => StartKeepsInv(w, c, op);
    case Ensure(c, outcome) => if c in w.clients && w.clients[c].phase.Ensuring? { EnsureKeepsInv(w, c, outcome); }
    case Get(c, _) => if c in w.clients && w.clients[c].phase.Getting? { GetKeepsInv(w, c); }
    case Put(c, outcome) => if c in w.clients { PutKeepsInv(w, c, outcome); }
  }

  lemma {:induction false} RunKeepsInv(events: seq<Event>)
    ensures Inv(After(events))
  {
    hide Inv, Step;
    if events == [] {
      InitHolds();
    } else {
      RunKeepsInv(events[..|events| - 1]);
      StepKeepsInv(After(events[..|events| - 1]), events[|events| - 1]);
    }
  }

  lemma InitHolds()
    ensures Inv(INIT)
  {
  }

  lemma {:induction false} TimesFinds(commits: seq<Commit>, c: int) returns (i: nat)
    requires Times(commits, c) >= 1
    ensures i < |commits| && commits[i].client == c
  {
    if commits[|commits| - 1].client == c {
      i := |commits| - 1;
    } else {
      i := TimesFinds(commits[..|commits| - 1], c);
    }
  }

  /** The update with which a call that succeeded took effect: its own closure, or its own pull request. */
  lemma CommitOf(events: seq<Event>, c: int) returns (i: nat)
    requires var w := After(events); c in w.clients && w.clients[c].phase == Ended(true)
    ensures i < |After(events).commits|
    ensures var w := After(events); w.commits[i] == Commit(c, w.clients[c].op)
  {
    hide Times, Replay, CommitSound, After, Step;
    RunKeepsInv(events);
    var w := After(events);
    assert ClientSound(w, c);
    i := TimesFinds(w.commits, c);
    assert CommitOwned(w.commits[i], w.clients);
  }

  /** However the calls interleave, the Lease is what the updates that took effect make of it one after
      the other. A call that succeeded is one of them exactly once, one that failed at most once, and an
      update is always the one that its client asked for. */
  lemma Linearizable(events: seq<Event>, c: int)
    requires c in After(events).clients
    ensures var w := After(events);
            && (w.stored.Some? ==> w.stored.value == Replay(w.commits))
            && (w.clients[c].phase == Ended(true) ==> Times(w.commits, c) == 1)
            && Times(w.commits, c) <= 1
            && (forall i :: 0 <= i < |w.commits| && w.commits[i].client == c ==> w.commits[i].op == w.clients[c].op)
  {
    hide Times, Replay, CommitSound;
    RunKeepsInv(events);
    var w := After(events);
    assert ClientSound(w, c);
    assert forall i :: 0 <= i < |w.commits| ==> CommitOwned(w.commits[i], w.clients);
  }

  /* ---------- the lock ---------- */

  lemma {:induction false} FirstChange(commits: seq<Commit>, a: nat, b: nat, holder: Option<string>) returns (k: nat)
    requires a <= b <= |commits| && Replay(commits[..a]).holder == holder && Replay(commits[..b]).holder != holder
    ensures a <= k < b && Replay(commits[..k]).holder == holder && Replay(commits[..k + 1]).holder != holder
    decreases b - a
  {
    hide Replay;
    if Replay(commits[..b - 1]).holder == holder {
      k := b - 1;
    } else {
      k := FirstChange(commits, a, b - 1, holder);
    }
  }

  lemma ReplayOne(commits: seq<Commit>, k: nat)
    requires k < |commits|
    ensures Replay(commits[..k + 1]) == Effect(commits[k].op, Replay(commits[..k]))
  {
    assert commits[..k + 1][..k] == commits[..k];
  }

  lemma AcquiredHolder(p: int, l: LeaseObject)
    ensures Effect(Acquire(p), l).holder == Some(FormatHolder(p))
    ensures l.holder == Some(FormatHolder(p)) ==> Effect(Acquire(p), l) == l
  {
  }

  lemma FormatInjective(p: int, q: int)
    requires FitsInt(p) && FitsInt(q) && FormatHolder(p) == FormatHolder(q)
    ensures p == q
  {
    HolderRoundTrip(p);
    HolderRoundTrip(q);
  }

  /** Between two updates that take the lock for different pull requests, MutateState took it away. */
  lemma CommitsExclude(events: seq<Event>, a: nat, b: nat, p: int, q: int) returns (k: nat)
    requires a < b < |After(events).commits| && p != q && FitsInt(p) && FitsInt(q)
    requires After(events).commits[a].op == Acquire(p) && After(events).commits[b].op == Acquire(q)
    ensures a < k < b && After(events).commits[k].op.Mutate?
    ensures Replay(After(events).commits[..k]).holder == Some(FormatHolder(p))
    ensures Replay(After(events).commits[..k + 1]).holder != Some(FormatHolder(p))
  {
    hide Replay, Effect, FormatHolder;
    RunKeepsInv(events);
    var commits := After(events).commits;
    hide After;
    assert CommitSound(commits, b);
    if FormatHolder(p) == FormatHolder(q) { FormatInjective(p, q); }
    ReplayOne(commits, a);
    AcquiredHolder(p, Replay(commits[..a]));
    k := FirstChange(commits, a + 1, b, Some(FormatHolder(p)));
    ReplayOne(commits, k);
    if commits[k].op.Acquire? {
      assert CommitSound(commits, k);
      AcquiredHolder(commits[k].op.prid, Replay(commits[..k]));
    }
  }

  /** Two calls of AcquireLock for different pull requests both succeed only if MutateState took the lock away
      from the first of them in between. */
  lemma LockExcludes(events: seq<Event>, a: int, b: int, p: int, q: int) returns (i: nat, j: nat, k: nat)
    requires var cs := After(events).clients;
             && a in cs && b in cs
             && cs[a] == Client(Acquire(p), Ended(true)) && cs[b] == Client(Acquire(q), Ended(true))
    requires p != q && FitsInt(p) && FitsInt(q)
    ensures i < |After(events).commits| && After(events).commits[i] == Commit(a, Acquire(p))
    ensures j < |After(events).commits| && After(events).commits[j] == Commit(b, Acquire(q))
    ensures (if i < j then i < k < j else j < k < i) && After(events).commits[k].op.Mutate?
    ensures var commits, first := After(events).commits, if i < j then p else q;
            && Replay(commits[..k]).holder == Some(FormatHolder(first))
            && Replay(commits[..k + 1]).holder != Some(FormatHolder(first))
  {
    hide Replay, FormatHolder, After;
    i := CommitOf(events, a);
    j := CommitOf(events, b);
    if i < j {
      k := CommitsExclude(events, i, j, p, q);
    } else {
      k := CommitsExclude(events, j, i, q, p);
    }
  }

  /** Undisturbed, a pull request that holds the lock acquires it again, and nothing changes. */
  lemma ReacquireIsIdempotent(w: World, c: int, p: int)
    requires Inv(w) && c !in w.clients && w.stored.Some? && w.stored.value.holder == Some(FormatHolder(p))
    ensures var w' := Step(Step(Step(w, Start(c, Acquire(p))), Get(c, Done)), Put(c, Done));
            w'.clients[c].phase == Ended(true) && w'.stored == w.stored
  {
    hide Times, Replay, FormatHolder;
    AcquiredHolder(p, w.stored.value);
  }

  /* ---------- windows and pull requests do not overwrite each other ---------- */

  /** A closure that sets the window, whatever it finds, and nothing else. */
  ghost predicate SetsWindow(fn: State -> State)
  {
    forall s: State, t: State :: fn(s) == s.(window := fn(t).window)
  }

  /** A closure that neither reads nor writes the window. */
  ghost predicate IgnoresWindow(fn: State -> State)
  {
    forall s: State, v: Text :: fn(s.(window := v)) == fn(s).(window := v)
  }

  /** Every update goes through MutateState, is of one of the two kinds, and keeps pull-request numbers
      in the range of a Go int. */
  ghost predicate Disciplined(x: Commit)
  {
    && x.op.Mutate? && (SetsWindow(x.op.fn) || IgnoresWindow(x.op.fn))
    && forall s: State :: FitsInt(s.prid) ==> FitsInt(x.op.fn(s).prid)
  }

  ghost predicate AllDisciplined(commits: seq<Commit>)
  {
    forall i :: 0 <= i < |commits| ==> Disciplined(commits[i])
  }

  ghost predicate IsWindowUpdate(x: Commit)
  {
    x.op.Mutate? && SetsWindow(x.op.fn)
  }

  /** The updates of one kind, in order. */
  ghost function Only(commits: seq<Commit>, windows: bool): seq<Commit>
  {
    if commits == [] then []
    else
      var last := commits[|commits| - 1];
      Only(commits[..|commits| - 1], windows) + (if IsWindowUpdate(last) == windows then [last] else [])
  }

  /** The state that a sequence of updates leaves. */
  function Result(commits: seq<Commit>): State
  {
    StateFrom(Replay(commits))
  }

  lemma ReadFits(l: LeaseObject)
    ensures FitsInt(StateFrom(l).prid)
  {
  }

  lemma ResultOfOne(commits: seq<Commit>, x: Commit)
    requires Disciplined(x)
    ensures Result(commits + [x]) == x.op.fn(Result(commits))
  {
    hide StateFrom, Applied;
    assert (commits + [x])[..|commits|] == commits;
    ReadFits(Replay(commits));
    PutGet(x.op.fn(Result(commits)), Replay(commits));
  }

  lemma KeepsWindow(fn: State -> State, s: State)
    requires IgnoresWindow(fn)
    ensures fn(s).window == s.window
  {
    assert s.(window := s.window) == s;
  }

  /** What one update of either kind does to two states that agree on their rest. */
  lemma RestAgrees(fn: State -> State, s: State, t: State)
    requires IgnoresWindow(fn) && s.(window := EMPTY_TEXT) == t.(window := EMPTY_TEXT)
    ensures fn(s).(window := EMPTY_TEXT) == fn(t).(window := EMPTY_TEXT)
  {
    assert fn(s.(window := EMPTY_TEXT)) == fn(t.(window := EMPTY_TEXT));
  }

  /** The window is what the window updates alone would leave, and the rest of the state is what the
      other updates alone would leave: neither side ever loses an update to the other. */
  lemma {:induction false} NothingIsLost(commits: seq<Commit>)
    requires AllDisciplined(commits)
    ensures Result(commits).window == Result(Only(commits, true)).window
    ensures Result(commits).(window := EMPTY_TEXT) == Result(Only(commits, false)).(window := EMPTY_TEXT)
  {
    hide Result, IsWindowUpdate, SetsWindow, IgnoresWindow, AllDisciplined;
    if commits != [] {
      var front, x := commits[..|commits| - 1], commits[|commits| - 1];
      LastIsDisciplined(commits);
      NothingIsLost(front);
      assert commits == front + [x];
      ResultOfOne(front, x);
      ResultOfOne(Only(front, true), x);
      ResultOfOne(Only(front, false), x);
      hide Disciplined, Only;
      KindOf(x, Result(front), Result(Only(front, true)), Result(Only(front, false)));
      OnlyLast(front, x, true);
      OnlyLast(front, x, false);
      assert Only(front, true) + [] == Only(front, true) && Only(front, false) + [] == Only(front, false);
    }
  }

  /** In every run of clients with closures of these two kinds, the stored Lease holds the window that the
      window updates alone would leave and the rest that the others alone would leave. */
  lemma RunLosesNothing(events: seq<Event>)
    requires forall c :: c in After(events).clients ==> Disciplined(Commit(c, After(events).clients[c].op))
    requires After(events).stored.Some?
    ensures var w := After(events);
            var state := StateFrom(w.stored.value);
            && state.window == Result(Only(w.commits, true)).window
            && state.(window := EMPTY_TEXT) == Result(Only(w.commits, false)).(window := EMPTY_TEXT)
  {
    hide Disciplined, Only, StateFrom, Replay, Times, ClientSound, CommitSound, After;
    RunKeepsInv(events);
    var w := After(events);
    forall i | 0 <= i < |w.commits| ensures Disciplined(w.commits[i]) {
      assert CommitOwned(w.commits[i], w.clients);
    }
    NothingIsLost(w.commits);
  }

  lemma OnlyLast(front: seq<Commit>, x: Commit, windows: bool)
    ensures Only(front + [x], windows) == Only(front, windows) + if IsWindowUpdate(x) == windows then [x] else []
  {
    hide IsWindowUpdate;
    assert (front + [x])[..|front|] == front;
  }

  lemma LastIsDisciplined(commits: seq<Commit>)
    requires AllDisciplined(commits) && commits != []
    ensures Disciplined(commits[|commits| - 1]) && AllDisciplined(commits[..|commits| - 1])
  {
    hide Disciplined;
  }

  /** One update, from three states: the whole, the window and the rest. */
  lemma KindOf(x: Commit, s: State, t: State, u: State)
    requires Disciplined(x)
    ensures IsWindowUpdate(x) ==> x.op.fn(s) == s.(window := x.op.fn(t).window)
    ensures !IsWindowUpdate(x) ==> x.op.fn(s).window == s.window
    ensures !IsWindowUpdate(x) && s.(window := EMPTY_TEXT) == u.(window := EMPTY_TEXT) ==>
      x.op.fn(s).(window := EMPTY_TEXT) == x.op.fn(u).(window := EMPTY_TEXT)
  {
    if !IsWindowUpdate(x) {
      KeepsWindow(x.op.fn, s);
      if s.(window := EMPTY_TEXT) == u.(window := EMPTY_TEXT) { RestAgrees(x.op.fn, s, u); }
    }
  }

  /* ---------- the closures of the controller ---------- */

  const SHRINK := Plain("shrink")

  function WritesWindow(v: Text): State -> State
  {
    (s: State) => s.(window := v)
  }

  function Records(prid: int, direction: Text, now: int): State -> State
  {
    (s: State) =>
      if direction == SHRINK then s.(prid := prid, direction := direction, lastShrink := Some(now))
      else s.(prid := prid, direction := direction, lastGrow := Some(now))
  }

  function Adopts(prid: int, direction: Text): State -> State
  {
    (s: State) => s.(prid := prid, direction := direction)
  }

  function Releases(merged: bool, now: int): State -> State
  {
    (s: State) =>
      var free := s.(prid := 0, direction := EMPTY_TEXT);
      if !merged then if s.direction == SHRINK then free.(lastShrink := Some(now)) else free
      else if s.direction == SHRINK then free.(lastModified := Some(now), lastShrink := Some(now))
      else free.(lastModified := Some(now), lastGrow := Some(now))
  }

  function Expires(now: int): State -> State
  {
    (s: State) => s.(prid := 0, direction := EMPTY_TEXT, lastShrink := Some(now))
  }

  function AutoMerges(now: int): State -> State
  {
    (s: State) => s.(prid := 0, direction := EMPTY_TEXT, lastModified := Some(now), lastGrow := Some(now))
  }

  lemma WindowWritesAreDisciplined(c: int, v: Text)
    ensures Disciplined(Commit(c, Mutate(WritesWindow(v)))) && IsWindowUpdate(Commit(c, Mutate(WritesWindow(v))))
  {
    assert SetsWindow(WritesWindow(v));
    hide IgnoresWindow;
  }

  lemma RecordsAreDisciplined(c: int, prid: int, direction: Text, now: int)
    requires FitsInt(prid)
    ensures Disciplined(Commit(c, Mutate(Records(prid, direction, now))))
  {
    var fn := Records(prid, direction, now);
    forall s: State, v: Text ensures fn(s.(window := v)) == fn(s).(window := v) {}
    assert IgnoresWindow(fn);
    hide IgnoresWindow, SetsWindow;
  }

  lemma AdoptionsAreDisciplined(c: int, prid: int, direction: Text)
    requires FitsInt(prid)
    ensures Disciplined(Commit(c, Mutate(Adopts(prid, direction))))
  {
    var fn := Adopts(prid, direction);
    forall s: State, v: Text ensures fn(s.(window := v)) == fn(s).(window := v) {}
    assert IgnoresWindow(fn);
    hide IgnoresWindow, SetsWindow;
  }

  lemma ReleasesAreDisciplined(c: int, merged: bool, now: int)
    ensures Disciplined(Commit(c, Mutate(Releases(merged, now))))
  {
    var fn := Releases(merged, now);
    forall s: State, v: Text ensures fn(s.(window := v)) == fn(s).(window := v) {}
    assert IgnoresWindow(fn);
    hide IgnoresWindow, SetsWindow;
  }

  lemma ExpiriesAreDisciplined(c: int, now: int)
    ensures Disciplined(Commit(c, Mutate(Expires(now))))
  {
    var fn := Expires(now);
    forall s: State, v: Text ensures fn(s.(window := v)) == fn(s).(window := v) {}
    assert IgnoresWindow(fn);
    hide IgnoresWindow, SetsWindow;
  }

  lemma AutoMergesAreDisciplined(c: int, now: int)
    ensures Disciplined(Commit(c, Mutate(AutoMerges(now))))
  {
    var fn := AutoMerges(now);
    forall s: State, v: Text ensures fn(s.(window := v)) == fn(s).(window := v) {}
    assert IgnoresWindow(fn);
    hide IgnoresWindow, SetsWindow;
  }

  /* ---------- progress ---------- */

  /** A call with nobody in between: it begins, makes sure of the Lease if it is MutateState, reads and writes. */
  function Alone(w: World, c: int, op: Op): World
  {
    Step(Step(Step(Step(w, Start(c, op)), Ensure(c, Done)), Get(c, Done)), Put(c, Done))
  }

  /** MutateState then succeeds, and leaves what its closure makes of the Lease, or of an empty one. */
  lemma AloneMutates(w: World, c: int, fn: State -> State)
    requires c !in w.clients
    ensures var w' := Alone(w, c, Mutate(fn));
            var l := if w.stored.Some? then w.stored.value else LeaseObject(map[], None);
            && c in w'.clients && w'.clients[c].phase == Ended(true)
            && w'.stored == Some(Applied(fn(StateFrom(l)), l))
  {
    hide Applied, StateFrom;
  }

  /** AcquireLock succeeds unless another pull request holds the Lease, and changes the holder alone. */
  lemma AloneAcquires(w: World, c: int, prid: int)
    requires c !in w.clients
    ensures var w', pr := Alone(w, c, Acquire(prid)), FormatHolder(prid);
            var l := if w.stored.Some? then w.stored.value else LeaseObject(map[], None);
            var free := l.holder == None || l.holder == Some(pr);
            && c in w'.clients && w'.clients[c].phase == Ended(free)
            && w'.stored == if free then Some(l.(holder := Some(pr))) else w.stored
  {
    hide FormatHolder;
    var started := Step(w, Start(c, Acquire(prid)));
    assert Step(started, Ensure(c, Done)) == started;
    var read := Step(started, Get(c, Done));
    if w.stored.Some? && HeldByOther(w.stored.value, prid) { assert Step(read, Put(c, Done)) == read; }
  }
}

/** MutateState as the loop it is, while other clients write in between. */
module LeaseLocking {
  import opened Options
  import opened Strings
  import opened LeaseCodec
  import opened LeaseClients

  datatype Answer = Stored | Conflict | Error

  /** A request of one call, and how it ended: whether the Lease was made sure of, what was read, what was
      written. */
  datatype Try = Ensured(ok: bool) | Read(failed: bool, l: Option<LeaseObject>)
    | Wrote(next: LeaseObject, answer: Answer)

  /** What an attempt writes after it has read: nothing means that it gives up. */
  function Changed(op: Op, read: Option<LeaseObject>): Option<LeaseObject>
  {
    match op
    case Mutate(fn) => if read.Some? then Some(Applied(fn(StateFrom(read.value)), read.value)) else None
    case Acquire(prid) =>
      var pr := "pr-" + Decimal(prid);
      if read.None? then Some(LeaseObject(map[], Some(pr)))
      else if read.value.holder.Some? && read.value.holder.value != pr then None
      else Some(read.value.(holder := Some(pr)))
  }

  /** An attempt that ended in a conflict. */
  predicate Conflicted(op: Op, read: Try, wrote: Try)
  {
    && read.Read? && !read.failed && wrote.Wrote? && wrote.answer == Conflict
    && Changed(op, read.l) == Some(wrote.next)
  }

  /** An attempt that ended in anything else: it could not read, gave up on what it read, or wrote. */
  predicate Concluded(op: Op, tries: seq<Try>, ok: bool)
  {
    && 1 <= |tries| <= 2 && tries[0].Read?
    && if tries[0].failed || Changed(op, tries[0].l).None? then |tries| == 1 && !ok
       else
         && |tries| == 2 && tries[1].Wrote? && Changed(op, tries[0].l) == Some(tries[1].next)
         && tries[1].answer != Conflict && ok == (tries[1].answer == Stored)
  }

  /** So many attempts that ended in conflicts. */
  predicate Collided(op: Op, tries: seq<Try>, n: nat)
  {
    |tries| == 2 * n && forall k :: 0 <= k < n ==> Conflicted(op, tries[2 * k], tries[2 * k + 1])
  }

  /** Attempts until one does not end in a conflict, and five at most. */
  ghost predicate Attempted(op: Op, tries: seq<Try>, ok: bool)
  {
    || (!ok && Collided(op, tries, 5))
    || exists n: nat :: n < 5 && 2 * n <= |tries| && Collided(op, tries[..2 * n], n)
                        && Concluded(op, tries[2 * n..], ok)
  }

  lemma CollidedAgain(op: Op, tries: seq<Try>, n: nat, read: Try, wrote: Try)
    requires Collided(op, tries, n) && Conflicted(op, read, wrote)
    ensures Collided(op, tries + [read, wrote], n + 1)
  {
    hide Conflicted;
    var all := tries + [read, wrote];
    forall k | 0 <= k < n + 1 ensures Conflicted(op, all[2 * k], all[2 * k + 1]) {
      if k < n { assert all[2 * k] == tries[2 * k] && all[2 * k + 1] == tries[2 * k + 1]; }
    }
  }

  lemma AttemptEnds(op: Op, before: seq<Try>, mine: seq<Try>, last: seq<Try>, n: nat, ok: bool)
    requires n < 5 && Collided(op, mine, n) && Concluded(op, last, ok)
    ensures Attempted(op, (before + mine + last)[|before|..], ok)
  {
    var all := mine + last;
    assert (before + mine + last)[|before|..] == all;
    assert all[..2 * n] == mine && all[2 * n..] == last;
  }

  class ApiServer {
    var stored: Option<LeaseObject>
    var version: nat
    ghost var commits: seq<Commit>
    ghost var tries: seq<Try>

    ghost predicate Valid()
      reads this
    {
      && version == |commits|
      && (stored.None? ==> commits == [])
      && (stored.Some? ==> stored.value == Replay(commits))
    }

    constructor ()
      ensures Valid() && commits == [] && tries == []
    {
      stored, version, commits, tries := None, 0, [], [];
    }

    /** Updates of other clients. */
    method Others(me: int)
      requires Valid()
      modifies this
      ensures Valid() && old(commits) <= commits && Times(commits, me) == Times(old(commits), me)
      ensures old(stored).Some? ==> stored.Some?
      ensures tries == old(tries)
    {
      var updates: seq<Commit> := *;
      for i := 0 to |updates|
        invariant Valid() && old(commits) <= commits && Times(commits, me) == Times(old(commits), me)
        invariant old(stored).Some? ==> stored.Some?
        invariant tries == old(tries)
      {
        if updates[i].client != me && stored.Some? {
          Append(updates[i], Effect(updates[i].op, stored.value));
        }
      }
    }

    method Append(x: Commit, l: LeaseObject)
      requires Valid() && stored.Some? && l == Effect(x.op, stored.value)
      modifies this
      ensures Valid() && commits == old(commits) + [x] && stored == Some(l) && tries == old(tries)
      ensures forall c :: Times(commits, c) == Times(old(commits), c) + if x.client == c then 1 else 0
    {
      hide Effect;
      forall c ensures Times(commits + [x], c) == Times(commits, c) + if x.client == c then 1 else 0 {
        TimesAppend(commits, x, c);
      }
      assert (commits + [x])[..|commits|] == commits;
      stored, version, commits := Some(l), version + 1, commits + [x];
    }

    method EnsureExists(me: int) returns (ok: bool)
      requires Valid()
      modifies this
      ensures Valid() && old(commits) <= commits && Times(commits, me) == Times(old(commits), me)
      ensures ok ==> stored.Some?
      ensures tries == old(tries) + [Ensured(ok)]
    {
      Others(me);
      ok := *;
      if stored.None? {
        stored := Some(NEW);
      }
      tries := tries + [Ensured(ok)];
    }

    method Get(me: int) returns (l: Option<LeaseObject>, v: nat)
      requires Valid() && stored.Some?
      modifies this
      ensures Valid() && old(commits) <= commits && Times(commits, me) == Times(old(commits), me) && stored.Some?
      ensures l.Some? ==> v == version && l == stored
      ensures tries == old(tries) + [Read(l.None?, l)]
    {
      Others(me);
      var fails: bool := *;
      l, v := if fails then None else stored, version;
      tries := tries + [Read(l.None?, l)];
    }

    /** Succeeds only on the version that was read; an error may hide a success. */
    method Update(me: int, l: LeaseObject, v: nat, ghost op: Op) returns (a: Answer)
      requires Valid() && stored.Some? && v <= version && (v == version ==> l == Effect(op, stored.value))
      modifies this
      ensures Valid() && old(commits) <= commits && stored.Some?
      ensures a == Stored ==> commits != [] && commits[|commits| - 1] == Commit(me, op)
      ensures Times(commits, me) == Times(old(commits), me) || Times(commits, me) == Times(old(commits), me) + 1
      ensures a == Conflict ==> Times(commits, me) == Times(old(commits), me)
      ensures a == Stored ==> v == old(version) && commits == old(commits) + [Commit(me, op)]
      ensures a == Stored ==> Times(commits, me) == Times(old(commits), me) + 1
      ensures tries == old(tries) + [Wrote(l, a)]
    {
      ghost var start := commits;
      Others(me);
      var fails: bool, lost: bool := *, *;
      a := if fails then Error else if v != version then Conflict else if lost then Error else Stored;
      tries := tries + [Wrote(l, a)];
      if fails || v != version {
        return;
      }
      TimesAppend(commits, Commit(me, op), me);
      Same(start, commits);
      hide Effect;
      assert (commits + [Commit(me, op)])[..|commits|] == commits;
      stored, version, commits := Some(l), version + 1, commits + [Commit(me, op)];
    }

    /** A create that comes second is turned into a conflict. */
    method Create(me: int, l: LeaseObject, ghost op: Op) returns (a: Answer)
      requires Valid() && l == Effect(op, NEW)
      modifies this
      ensures Valid() && old(commits) <= commits
      ensures a == Stored ==> stored == Some(l) && commits == [Commit(me, op)]
      ensures tries == old(tries) + [Wrote(l, a)]
    {
      Others(me);
      var fails: bool, lost: bool := *, *;
      a := if fails then Error else if stored.Some? then Conflict else if lost then Error else Stored;
      tries := tries + [Wrote(l, a)];
      if fails || stored.Some? {
        return;
      }
      assert [Commit(me, op)][..0] == [];
      stored, version, commits := Some(l), 1, [Commit(me, op)];
    }

    method Find(me: int) returns (failed: bool, l: Option<LeaseObject>, v: nat)
      requires Valid()
      modifies this
      ensures Valid() && old(commits) <= commits
      ensures !failed ==> l == stored && v == version
      ensures tries == old(tries) + [Read(failed, l)]
    {
      Others(me);
      failed := *;
      l, v := stored, version;
      tries := tries + [Read(failed, l)];
    }
  }

  lemma Same(a: seq<Commit>, b: seq<Commit>)
    requires a <= b && |a| == |b|
    ensures a == b
  {
  }

  lemma NoneCollided(op: Op)
    ensures Collided(op, [], 0)
  {
  }

  lemma FiveCollided(op: Op, tries: seq<Try>)
    requires Collided(op, tries, ATTEMPTS)
    ensures Attempted(op, tries, false)
  {
  }

  lemma MutateChanges(fn: State -> State, l: LeaseObject)
    ensures Changed(Mutate(fn), Some(l)) == Some(Applied(fn(StateFrom(l)), l))
  {
    hide Applied, StateFrom;
  }

  lemma AcquireChanges(prid: int, l: Option<LeaseObject>)
    ensures Changed(Acquire(prid), l)
         == if l.None? then Some(NEW.(holder := Some(FormatHolder(prid))))
            else if HeldByOther(l.value, prid) then None
            else Some(l.value.(holder := Some(FormatHolder(prid))))
  {
    hide Decimal;
  }

  class LeaseLocker {
    const server: ApiServer

    constructor (server: ApiServer)
      ensures this.server == server
    {
      this.server := server;
    }

    /** On success the closure took effect exactly once, on the version that was current then; it gives up only when
        a request fails, or after five conflicts. */
    method MutateState(me: int, fn: State -> State) returns (ok: bool)
      requires server.Valid() && Times(server.commits, me) == 0
      modifies server
      ensures server.Valid() && old(server.commits) <= server.commits
      ensures ok ==>
        && Times(server.commits, me) == 1
        && server.commits[|server.commits| - 1] == Commit(me, Mutate(fn))
        && server.stored == Some(Applied(fn(StateFrom(Replay(server.commits[..|server.commits| - 1]))),
                                         Replay(server.commits[..|server.commits| - 1])))
      ensures Times(server.commits, me) <= 1
      ensures var n := |old(server.tries)|;
              && |server.tries| > n && server.tries[..n] == old(server.tries)
              && if server.tries[n] == Ensured(true) then Attempted(Mutate(fn), server.tries[n + 1..], ok)
                 else server.tries[n..] == [Ensured(false)] && !ok
    {
      hide StateFrom, Applied, Times, Attempted, Collided, Changed;
      var ready := server.EnsureExists(me);
      if !ready {
        return false;
      }
      ghost var before, mine := server.tries, [];
      NoneCollided(Mutate(fn));
      for attempt := 0 to ATTEMPTS
        invariant server.Valid() && old(server.commits) <= server.commits && server.stored.Some?
        invariant Times(server.commits, me) == 0
        invariant server.tries == before + mine && Collided(Mutate(fn), mine, attempt)
      {
        var lease, version := server.Get(me);
        if lease.None? {
          AttemptEnds(Mutate(fn), before, mine, [Read(true, None)], attempt, false);
          return false;
        }
        var state := StateFrom(lease.value);
        var next := Applied(fn(state), lease.value);
        var answer := server.Update(me, next, version, Mutate(fn));
        MutateChanges(fn, lease.value);
        if answer != Conflict {
          AttemptEnds(Mutate(fn), before, mine, [Read(false, lease), Wrote(next, answer)], attempt, answer == Stored);
          assert server.tries == before + mine + [Read(false, lease), Wrote(next, answer)];
          return answer == Stored;
        }
        CollidedAgain(Mutate(fn), mine, attempt, Read(false, lease), Wrote(next, answer));
        mine := mine + [Read(false, lease), Wrote(next, answer)];
      }
      FiveCollided(Mutate(fn), mine);
      assert server.tries[|before|..] == mine;
      ok := false;
    }

    /** On success the Lease was free or already held for this pull request, and is now held for it; it gives up only
        when a request fails, the Lease is held for another one, or after five conflicts. */
    method AcquireLock(me: int, prid: int) returns (ok: bool)
      requires server.Valid()
      modifies server
      ensures server.Valid() && old(server.commits) <= server.commits
      ensures ok ==>
        && server.stored.Some? && server.stored.value.holder == Some(FormatHolder(prid))
        && server.commits != [] && server.commits[|server.commits| - 1] == Commit(me, Acquire(prid))
        && !HeldByOther(Replay(server.commits[..|server.commits| - 1]), prid)
      ensures var n := |old(server.tries)|;
              && |server.tries| >= n && server.tries[..n] == old(server.tries)
              && Attempted(Acquire(prid), server.tries[n..], ok)
    {
      hide StateFrom, Applied, Times, FormatHolder, Attempted, Collided, Changed;
      ghost var before, mine := server.tries, [];
      NoneCollided(Acquire(prid));
      for attempt := 0 to ATTEMPTS
        invariant server.Valid() && old(server.commits) <= server.commits
        invariant server.tries == before + mine && Collided(Acquire(prid), mine, attempt)
      {
        var failed, lease, version := server.Find(me);
        AcquireChanges(prid, lease);
        if failed {
          AttemptEnds(Acquire(prid), before, mine, [Read(true, lease)], attempt, false);
          return false;
        }
        var next, answer;
        if lease.None? {
          next := NEW.(holder := Some(FormatHolder(prid)));
          answer := server.Create(me, next, Acquire(prid));
        } else {
          if lease.value.holder.Some? && lease.value.holder.value != FormatHolder(prid) {
            AttemptEnds(Acquire(prid), before, mine, [Read(false, lease)], attempt, false);
            return false;
          }
          next := lease.value.(holder := Some(FormatHolder(prid)));
          answer := server.Update(me, next, version, Acquire(prid));
        }
        if answer != Conflict {
          AttemptEnds(Acquire(prid), before, mine, [Read(false, lease), Wrote(next, answer)], attempt,
                      answer == Stored);
          assert server.tries == before + mine + [Read(false, lease), Wrote(next, answer)];
          return answer == Stored;
        }
        CollidedAgain(Acquire(prid), mine, attempt, Read(false, lease), Wrote(next, answer));
        mine := mine + [Read(false, lease), Wrote(next, answer)];
      }
      FiveCollided(Acquire(prid), mine);
      assert server.tries[|before|..] == mine;
      ok := false;
    }
  }
}
