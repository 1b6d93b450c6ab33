/** Growth is served: whatever state crashes, failures and people have left behind, a few undisturbed
    passes of the reconciler bring the targets of a grow decision into an open pull request that the Lease
    holds. */
module ProtocolProgress {
  import opened Options
  import opened Calls
  import opened Policies
  import opened SortedLines
  import opened WindowModel
  import opened DecisionRule
  import opened DecisionProperties
  import opened Protocol
  import opened ProtocolSafety
  import opened ProtocolSpacing
  import opened ProtocolPasses
  import R = ProtocolRepeats

  ghost function Passes(w: World, inp: Input, d: Decision, answers: Answers, n: nat): (next: World)
    requires w.versions != []
    ensures next.versions != []
  {
    if n == 0 then w else Pass(Passes(w, inp, d, answers, n - 1), inp, d, answers)
  }

  /* ---------- a grow decision does not depend on the stamps ---------- */

  lemma {:induction false} SameLines(keys: set<string>, f: string -> string, g: string -> string)
    requires forall k :: f(k) == g(k)
    ensures LinesOf(keys, f) == LinesOf(keys, g)
  {
    if keys != {} { SameLines(keys - {Pick(keys)}, f, g); }
  }

  lemma SameVerdict(inp: Input, l: Lease, res: string)
    ensures VerdictFor(R.Reread(inp, l), res) == VerdictFor(inp, res)
    ensures Describe(R.Reread(inp, l), res) == Describe(inp, res)
    ensures Comparable(R.Reread(inp, l), res) <==> Comparable(inp, res)
    ensures Comparable(inp, res) ==> RawTarget(R.Reread(inp, l), res) == RawTarget(inp, res)
  {
    hide VerdictOn, HeadroomFor, MinFor, Scaled, DriverText;
  }

  lemma GrowIgnoresStamps(inp: Input, d: Decision, l: Lease)
    requires IsDecision(d, inp) && d.direction == Grow
    ensures IsDecision(d, R.Reread(inp, l))
  {
    hide VerdictFor, Describe, Comparable, RawTarget, Sorted;
    var inp' := R.Reread(inp, l);
    forall res
      ensures VerdictFor(inp', res) == VerdictFor(inp, res) && Describe(inp', res) == Describe(inp, res)
      ensures Comparable(inp', res) <==> Comparable(inp, res)
      ensures Comparable(inp, res) ==> RawTarget(inp', res) == RawTarget(inp, res)
    {
      SameVerdict(inp, l, res);
    }
    assert Growing(inp') == Growing(inp);
    assert TargetsOf(inp', Growing(inp)) == TargetsOf(inp, Growing(inp));
    assert RawTargetsOf(inp', inp.hard.Keys) == RawTargetsOf(inp, inp.hard.Keys);
    SameLines(Growing(inp), r => Describe(inp', r), r => Describe(inp, r));
    hide Growing, TargetsOf, RawTargetsOf;
  }

  /* ---------- the states between a shortage and its pull request ---------- */

  /** The Lease holds an open pull request whose branch says grow. */
  predicate Holds(w: World)
  {
    && w.versions != [] && Current(w).prid in w.prs
    && w.prs[Current(w).prid].status == Open && w.prs[Current(w).prid].direction == Grow
  }

  /** And its last commit proposes exactly these values. */
  predicate Carries(w: World, targets: map<Resource, int>)
  {
    && Holds(w)
    && var commits := w.prs[Current(w).prid].commits;
    commits != [] && commits[|commits| - 1].targets == targets
  }

  /** The Lease holds no pull request, and none is open. */
  predicate Free(w: World)
  {
    w.versions != [] && Current(w).prid == 0 && NoneOpen(w.prs)
  }

  /** A pull request was found merged, or merged by the controller, after so many entries. */
  predicate MergedSince(w: World, n: nat)
  {
    exists k :: n <= k < |w.log| && w.log[k].Released? && w.log[k].merged
  }

  /** How far the state is from an open grow with these targets that the Lease holds: it holds a pull request
      that is closed (4), it is free while a shrink is open (3), it is free while a grow is open or holds an
      open shrink (2), nothing is open, or it holds an open grow with other targets (1). */
  ghost function Distance(w: World, targets: map<Resource, int>): nat
    requires w.versions != []
  {
    var l := Current(w);
    if l.prid != 0 && l.prid in w.prs then
      if w.prs[l.prid].status != Open then 4
      else if w.prs[l.prid].direction == Shrink then 2
      else if Carries(w, targets) then 0 else 1
    else if OpenId(w.prs) in w.prs && w.prs[OpenId(w.prs)].status == Open then
      if w.prs[OpenId(w.prs)].direction == Shrink then 3 else 2
    else 1
  }

  /** A shortage that need not wait for the cooldown. */
  ghost predicate Short(w: World, inp: Input, d: Decision)
  {
    && w.versions != [] && w.pc == Idle && inp.now == w.clock
    && Decided(inp, d) && d.direction == Grow && GrowWaited(inp, Current(w), w.clock)
  }

  /** A pass that served nothing left the shortage, the clock and the log, and came closer. */
  ghost predicate Closer(w: World, w': World, targets: map<Resource, int>)
  {
    && w.versions != [] && w'.versions != [] && w'.pc == Idle && w'.clock == w.clock && w.log <= w'.log
    && Current(w').lastModified == Current(w).lastModified && Distance(w', targets) < Distance(w, targets)
  }

  lemma ShortIsReady(w: World, inp: Input, d: Decision)
    requires Short(w, inp, d)
    ensures Ready(w, inp, d) && d.direction == Grow
  {
    hide IsDecision, ValidPolicy, GrowWaited;
    GrowIgnoresStamps(inp, d, Current(w));
  }

  /* ---------- one pass comes closer ---------- */

  lemma ReleasesFinished(w: World, inp: Input, d: Decision, answers: Answers)
    requires Safe(w) && !w.missed && Short(w, inp, d) && Distance(w, d.targets) == 4
    ensures var w' := Pass(w, inp, d, answers); MergedSince(w', |w.log|) || Closer(w, w', d.targets)
  {
    hide Safe, Decided, GrowWaited, Pass, Ready;
    ShortIsReady(w, inp, d);
    PassOnFinished(w, inp, d, answers);
    var w' := Pass(w, inp, d, answers);
    assert w'.log[|w.log|] == Released(Current(w).prid, w.clock, w.prs[Current(w).prid].status == Merged);
  }

  lemma ClosesShrink(w: World, inp: Input, d: Decision, answers: Answers)
    requires Safe(w) && !w.missed && Short(w, inp, d)
    requires Current(w).prid in w.prs && w.prs[Current(w).prid].status == Open
    requires w.prs[Current(w).prid].direction == Shrink
    ensures Closer(w, Pass(w, inp, d, answers), d.targets)
  {
    hide Safe, Decided, GrowWaited, Pass, Ready;
    SafeIds(w);
    OnlyThisOpen(w);
    ShortIsReady(w, inp, d);
    PassOnHeldShrink(w, inp, d, answers);
    assert NoneOpen(Pass(w, inp, d, answers).prs);
  }

  lemma OnlyThisOpen(w: World)
    requires Safe(w) && !w.missed && Current(w).prid in w.prs && w.prs[Current(w).prid].status == Open
    ensures forall id :: id in w.prs && w.prs[id].status == Open ==> id == Current(w).prid
  {
    hide PcSound, Tracks, PRSound;
  }

  lemma AdoptsStray(w: World, inp: Input, d: Decision, answers: Answers)
    requires Safe(w) && Short(w, inp, d) && Current(w).prid == 0 && !NoneOpen(w.prs)
    ensures Closer(w, Pass(w, inp, d, answers), d.targets)
  {
    hide Safe, Decided, GrowWaited, Pass, Ready, NoneOpen;
    SafeIds(w);
    ShortIsReady(w, inp, d);
    PassOnStray(w, inp, d, answers);
  }

  lemma UpdatesGrow(w: World, inp: Input, d: Decision, answers: Answers)
    requires Safe(w) && Short(w, inp, d) && Holds(w)
    ensures var w' := Pass(w, inp, d, answers);
            Carries(w', d.targets) || MergedSince(w', |w.log|) || (answers.readiness == Unknown && w' == w)
  {
    hide Safe, Decided, GrowWaited, Pass, Ready;
    ShortIsReady(w, inp, d);
    PassOnHeldGrow(w, inp, d, answers);
    if answers.readiness == CanMerge {
      assert Pass(w, inp, d, answers).log[|w.log|] == Released(Current(w).prid, w.clock, true);
    }
  }

  lemma ProposesGrow(w: World, inp: Input, d: Decision, answers: Answers)
    requires Safe(w) && Short(w, inp, d) && Free(w)
    ensures var w' := Pass(w, inp, d, answers); Carries(w', d.targets) || (answers.noop && w' == w)
  {
    hide Safe, Decided, Pass, Ready, NoneOpen;
    ShortIsReady(w, inp, d);
    PassOnFree(w, inp, d, answers);
  }

  /** One pass serves the shortage or comes closer. */
  lemma PassServes(w: World, inp: Input, d: Decision, answers: Answers)
    requires Safe(w) && !w.missed && Short(w, inp, d) && !Carries(w, d.targets)
    ensures var w' := Pass(w, inp, d, answers);
            || Carries(w', d.targets) || MergedSince(w', |w.log|) || Closer(w, w', d.targets)
            || (answers.noop && w' == w && Free(w)) || (answers.readiness == Unknown && w' == w && Holds(w))
  {
    hide Safe, Pass, Closer, MergedSince, Carries, GrowWaited, Decided;
    if Current(w).prid != 0 {
      HeldDirection(w);
      if Distance(w, d.targets) == 4 {
        ReleasesFinished(w, inp, d, answers);
      } else if w.prs[Current(w).prid].direction == Shrink {
        ClosesShrink(w, inp, d, answers);
      } else {
        UpdatesGrow(w, inp, d, answers);
      }
    } else if NoneOpen(w.prs) {
      ProposesGrow(w, inp, d, answers);
    } else {
      AdoptsStray(w, inp, d, answers);
    }
  }

  /* ---------- and a few passes serve it ---------- */

  lemma NextKeeps(w: World, answers: Answers)
    requires Safe(w) && !w.missed
    ensures Safe(Next(w, answers)) && !Next(w, answers).missed
  {
    hide Safe, StatusKnown, Proposal, Call, OpenedIn;
    CurrentTracks(w);
    SafeIds(w);
    StepKeepsSafe(w, Success(w, answers));
    CallSeesNothing(w, Done);
    OpeningSeesNothing(w, NewId(w.prs), if answers.labelled then Labelled else Unlabelled(true));
  }

  lemma OpeningSeesNothing(w: World, id: int, creation: Creation)
    ensures w.pc.Create? ==> OpenedIn(w, id, creation).missed == w.missed
  {
  }

  lemma CallSeesNothing(w: World, outcome: Outcome)
    requires w.versions != []
    ensures Call(w, outcome).missed == w.missed
  {
  }

  lemma PassKeeps(w: World, inp: Input, d: Decision, answers: Answers)
    requires Safe(w) && !w.missed
    ensures Safe(Pass(w, inp, d, answers)) && !Pass(w, inp, d, answers).missed
  {
    hide Safe, Next, CanBegin;
    CurrentTracks(w);
    var begun := ProtocolPasses.Begun(w, inp, d, answers.scanned);
    StepKeepsSafe(w, Begin(|w.versions| - 1, R.Reread(inp, Current(w)), d, !answers.scanned));
    NextKeeps(begun, answers);
    NextKeeps(Next(begun, answers), answers);
    NextKeeps(Next(Next(begun, answers), answers), answers);
  }

  lemma {:induction false} PassesSplit(w: World, inp: Input, d: Decision, answers: Answers, n: nat)
    requires w.versions != []
    ensures Passes(Pass(w, inp, d, answers), inp, d, answers, n) == Passes(w, inp, d, answers, n + 1)
  {
    hide Pass;
    if n > 0 { PassesSplit(w, inp, d, answers, n - 1); }
  }

  lemma StillShort(w: World, w': World, inp: Input, d: Decision)
    requires Short(w, inp, d) && Closer(w, w', d.targets)
    ensures Short(w', inp, d)
  {
    hide Decided, Distance;
  }

  /** What the passes lead to: the targets are in an open pull request that the Lease holds, or one was merged
      meanwhile, or the spec already has them and nothing is open, or the forge still computes whether the open
      grow that the Lease holds can be merged. */
  predicate Served(w: World, d: Decision, answers: Answers, n: nat)
  {
    || Carries(w, d.targets) || MergedSince(w, n) || (answers.noop && Free(w))
    || (answers.readiness == Unknown && Holds(w))
  }

  /** From any safe state, as many passes as its distance are enough. */
  lemma PassesServe(w: World, inp: Input, d: Decision, answers: Answers) returns (n: nat)
    requires Safe(w) && !w.missed && Short(w, inp, d)
    ensures n <= Distance(w, d.targets)
    ensures Served(Passes(w, inp, d, answers, n), d, answers, |w.log|)
    decreases Distance(w, d.targets)
  {
    hide Safe, Pass, Short, Holds, Distance, MergedSince, Free, Carries;
    ShortHasLease(w, inp, d);
    if Carries(w, d.targets) {
      n := 0;
      return;
    }
    NotCarriedIsFar(w, d.targets);
    PassServes(w, inp, d, answers);
    var w' := Pass(w, inp, d, answers);
    PassesSplit(w, inp, d, answers, 0);
    if Served(w', d, answers, |w.log|) {
      n := 1;
      return;
    }
    PassKeeps(w, inp, d, answers);
    StillShort(w, w', inp, d);
    var rest := PassesServe(w', inp, d, answers);
    PassesSplit(w, inp, d, answers, rest);
    n := rest + 1;
    var last := Passes(w, inp, d, answers, n);
    if MergedSince(last, |w'.log|) { MergedEarlier(last, |w.log|, |w'.log|); }
  }

  lemma ShortHasLease(w: World, inp: Input, d: Decision)
    requires Short(w, inp, d)
    ensures w.versions != []
  {
  }

  lemma MergedEarlier(w: World, n: nat, m: nat)
    requires n <= m && MergedSince(w, m)
    ensures MergedSince(w, n)
  {
  }

  lemma NotCarriedIsFar(w: World, targets: map<Resource, int>)
    requires Safe(w) && !Carries(w, targets)
    ensures w.versions != [] && Distance(w, targets) > 0
  {
    hide Safe, Carries;
    CurrentTracks(w);
  }

  lemma FourAtMost(w: World, targets: map<Resource, int>)
    requires w.versions != []
    ensures Distance(w, targets) <= 4
  {
    hide Carries;
  }

  /** From every reachable state in which no search missed an open pull request, restarted at any point: a
      shortage that need not wait is served within four undisturbed passes. The Lease then holds an open pull
      request whose branch says grow and whose last commit has exactly the targets of the decision; or one was
      merged meanwhile, or nothing is open and the spec already has every target, or the forge still computes
      whether the open grow can be merged. */
  lemma ShortageIsServed(events: seq<Event>, inp: Input, d: Decision, answers: Answers) returns (n: nat)
    requires !After(events + [Stop]).missed && Short(After(events + [Stop]), inp, d)
    ensures n <= 4
    ensures var w := After(events + [Stop]);
            var w' := Passes(w, inp, d, answers, n);
            || Carries(w', d.targets) || MergedSince(w', |w.log|) || (answers.noop && Free(w'))
            || (answers.readiness == Unknown && Holds(w'))
  {
    hide After, Short, Passes, Holds, MergedSince, Distance, Safe, Free, Carries;
    RunIsSafe(events + [Stop]);
    var w := After(events + [Stop]);
    ShortHasLease(w, inp, d);
    FourAtMost(w, d.targets);
    n := PassesServe(w, inp, d, answers);
  }

  /** And one pass is enough for an open grow that the Lease holds, waiting or not: it gets a commit with the
      targets, or is merged, or nothing changes while the forge computes whether it can be. */
  lemma HeldGrowIsUpdated(events: seq<Event>, inp: Input, d: Decision, answers: Answers)
    requires var w := After(events + [Stop]); Holds(w) && inp.now == w.clock && Decided(inp, d) && d.direction == Grow
    ensures var w := After(events + [Stop]);
            var id, w' := Current(w).prid, Pass(w, inp, d, answers);
            && id in w'.prs
            && var pr, pr' := w.prs[id], w'.prs[id];
            && (answers.readiness == CanMerge ==> pr'.status == Merged && pr'.commits == pr.commits)
            && (answers.readiness in {AutoMergeOff, NotReady} ==>
                  pr'.status == Open && pr'.commits == pr.commits + [Commit(inp.hard, d.targets)])
            && (answers.readiness == Unknown ==> w' == w)
  {
    hide IsDecision, ValidPolicy, Safe, Pass;
    AfterOne(events, Stop);
    RunIsSafe(events + [Stop]);
    var w := After(events + [Stop]);
    assert w.pc == Idle by { hide After; }
    hide After;
    GrowIgnoresStamps(inp, d, Current(w));
    PassOnHeldGrow(w, inp, d, answers);
  }
}
