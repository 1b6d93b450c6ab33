/** What the log of a run says about the pull requests: each was opened from a decision, and a shrink holds
    that decision and nothing else. */
module ProtocolHistory {
  import opened Options
  import opened Calls
  import opened DecisionRule
  import opened Protocol
  import opened ProtocolSafety

  /** The first commit is the decision; later ones, which only a grow gets, come after it. */
  ghost predicate Carries(pr: PR, inp: Input, d: Decision)
  {
    && Decided(inp, d) && pr.direction == d.direction
    && pr.commits != [] && pr.commits[0] == Commit(inp.hard, d.targets)
    && (pr.direction == Shrink ==> |pr.commits| == 1)
  }

  ghost predicate FromDecision(e: Entry, prs: map<int, PR>)
  {
    e.Created? ==> e.id in prs && exists d :: Carries(prs[e.id], e.inp, d)
  }

  ghost predicate LogDecided(log: seq<Entry>, prs: map<int, PR>)
  {
    forall k :: 0 <= k < |log| ==> FromDecision(log[k], prs)
  }

  /** Pull requests keep their decision when they change their status or a grow gets another commit. */
  predicate Keeps(a: PR, b: PR)
  {
    && b.direction == a.direction && a.commits <= b.commits
    && (a.direction == Shrink ==> b.commits == a.commits)
  }

  lemma LogKept(log: seq<Entry>, prs: map<int, PR>, prs': map<int, PR>)
    requires LogDecided(log, prs) && forall id :: id in prs ==> id in prs' && Keeps(prs[id], prs'[id])
    ensures LogDecided(log, prs')
  {
    hide Decided;
    forall k | 0 <= k < |log| ensures FromDecision(log[k], prs') {
      assert FromDecision(log[k], prs);
      if log[k].Created? {
        var d :| Carries(prs[log[k].id], log[k].inp, d);
        assert Carries(prs'[log[k].id], log[k].inp, d);
      }
    }
  }

  lemma LogGrows(log: seq<Entry>, prs: map<int, PR>, e: Entry)
    requires LogDecided(log, prs) && FromDecision(e, prs)
    ensures LogDecided(log + [e], prs)
  {
    hide FromDecision;
  }

  lemma StatusKeepsDecided(w: World, id: int, status: Status)
    requires LogDecided(w.log, w.prs)
    ensures LogDecided(w.log, WithStatus(w.prs, id, status))
  {
    hide FromDecision;
    LogKept(w.log, w.prs, WithStatus(w.prs, id, status));
  }

  lemma AmendKeepsDecided(w: World, st: Lease, inp: Input, d: Decision)
    requires LogDecided(w.log, w.prs) && HasDirection(w.prs, st.prid, Grow)
    ensures LogDecided(w.log, w.prs[st.prid := Amended(w.prs[st.prid], Commit(inp.hard, d.targets))])
  {
    hide FromDecision;
    LogKept(w.log, w.prs, w.prs[st.prid := Amended(w.prs[st.prid], Commit(inp.hard, d.targets))]);
  }

  lemma OpenKeepsDecided(w: World, id: int, creation: Creation, inp: Input, d: Decision, scanFailed: bool)
    requires LogDecided(w.log, w.prs) && Decided(inp, d) && id !in w.prs
    ensures var prs := w.prs[id := NewPR(inp, d, scanFailed, w.clock, creation)];
            LogDecided(w.log, prs) && LogDecided(w.log + [Created(id, w.clock, inp)], prs)
  {
    hide Decided;
    var pr := NewPR(inp, d, scanFailed, w.clock, creation);
    var prs := w.prs[id := pr];
    assert Carries(pr, inp, d);
    assert FromDecision(Created(id, w.clock, inp), prs);
    hide FromDecision, NewPR;
    LogKept(w.log, w.prs, prs);
    LogGrows(w.log, prs, Created(id, w.clock, inp));
  }

  lemma CallKeepsDecided(w: World, outcome: Outcome)
    requires Safe(w) && LogDecided(w.log, w.prs)
    ensures LogDecided(Call(w, outcome).log, Call(w, outcome).prs)
  {
    hide Safe, LogDecided, Decided;
    PcHolds(w);
    CurrentTracks(w);
    var l := Current(w);
    match w.pc
    case Release(merged, at) => NotCreated(w.log, w.prs, Released(l.prid, at, merged));
    case ReleaseExpired(at) => NotCreated(w.log, w.prs, Released(l.prid, at, false));
    case ReleaseMerged(at) => NotCreated(w.log, w.prs, Released(l.prid, at, true));
    case Record(id, _) => NotCreated(w.log, w.prs, Recorded(id, w.clock));
    case Expire(st) => StatusKeepsDecided(w, st.prid, Closed);
    case Merge(st, _, _) => StatusKeepsDecided(w, st.prid, Merged);
    case Update(st, inp, d) => AmendKeepsDecided(w, st, inp, d);
    case _ =>
  }

  lemma NotCreated(log: seq<Entry>, prs: map<int, PR>, e: Entry)
    requires LogDecided(log, prs) && !e.Created?
    ensures LogDecided(log + [e], prs)
  {
    assert FromDecision(e, prs);
    LogGrows(log, prs, e);
  }

  lemma StepKeepsDecided(w: World, e: Event)
    requires Safe(w) && LogDecided(w.log, w.prs)
    ensures LogDecided(Step(w, e).log, Step(w, e).prs)
  {
    hide Safe, LogDecided, CanBegin, StatusKnown, Proposal, Call, NoneOpen, Decided;
    CurrentTracks(w);
    match e
    case HumanMerges(id) => StatusKeepsDecided(w, id, Merged);
    case HumanCloses(id) => StatusKeepsDecided(w, id, Closed);
    case Called(outcome) => CallKeepsDecided(w, outcome);
    case Opens(id, creation) =>
      PcHolds(w);
      if w.pc.Create? && id > 0 && id !in w.prs {
        OpenKeepsDecided(w, id, creation, w.pc.inp, w.pc.d, w.pc.scanFailed);
      }
    case _ =>
  }

  lemma {:induction false} RunIsDecided(events: seq<Event>)
    ensures LogDecided(After(events).log, After(events).prs)
  {
    hide Step, Safe, FromDecision;
    if events != [] {
      RunIsDecided(events[..|events| - 1]);
      RunIsSafe(events[..|events| - 1]);
      StepKeepsDecided(After(events[..|events| - 1]), events[|events| - 1]);
    }
  }

  /** Every pull request of a run was opened from a decision on the input that the log names; a shrink holds
      exactly that decision for ever. */
  lemma CreatedFromDecision(events: seq<Event>, k: nat) returns (d: Decision)
    requires k < |After(events).log| && After(events).log[k].Created?
    ensures var w := After(events);
            var e := w.log[k];
            && e.id in w.prs && Decided(e.inp, d) && w.prs[e.id].direction == d.direction
            && w.prs[e.id].commits != [] && w.prs[e.id].commits[0] == Commit(e.inp.hard, d.targets)
            && (d.direction == Shrink ==> w.prs[e.id].commits == [Commit(e.inp.hard, d.targets)])
  {
    hide After, Decided;
    RunIsDecided(events);
    var w := After(events);
    assert FromDecision(w.log[k], w.prs);
    d :| Carries(w.prs[w.log[k].id], w.log[k].inp, d);
  }
}
