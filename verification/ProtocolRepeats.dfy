/** When the controller proposes again: shrinks that left no stamp, and searches that missed. */
module ProtocolRepeats {
  import opened Options
  import opened Calls
  import opened Clock
  import opened Policies
  import opened WindowModel
  import opened DecisionRule
  import opened DecisionProperties
  import opened Protocol
  import opened ProtocolSafety
  import opened ProtocolSpacing
  import opened ProtocolHistory
  import opened ProtocolMemory

  /* ---------- one pass up to CreatePR ---------- */

  /** A decision on the current Lease, which holds no pull request, that does not have to wait. */
  ghost predicate MayPropose(w: World, inp: Input, d: Decision)
  {
    && w.versions != [] && CanBegin(w, |w.versions| - 1, inp, d) && Current(w).prid == 0
    && d.direction != NoChange && (d.direction == Grow ==> GrowWaited(inp, Current(w), w.clock))
  }

  /** A pass whose search answers that nothing is open; noop says that the spec already has every target. */
  function Pass(w: World, inp: Input, d: Decision, id: int, creation: Creation, noop: bool): seq<Event>
    requires w.versions != []
  {
    [Begin(|w.versions| - 1, inp, d, false), Found(Done, 0, noop), Opens(id, creation)]
  }

  function Proposed(w: World, inp: Input, d: Decision, id: int, creation: Creation): World
  {
    OpenedIn(w.(pc := Create(inp, d, false), missed := w.missed || !NoneOpen(w.prs)), id, creation)
  }

  lemma Begins(w: World, inp: Input, d: Decision)
    requires MayPropose(w, inp, d)
    ensures Step(w, Begin(|w.versions| - 1, inp, d, false)) == w.(pc := Find(Current(w), inp, d, false))
  {
    hide IsDecision, ValidPolicy, GrowWaited;
  }

  lemma Finds(w: World, inp: Input, d: Decision)
    requires MayPropose(w, inp, d)
    ensures Step(w.(pc := Find(Current(w), inp, d, false)), Found(Done, 0, false))
         == w.(pc := Create(inp, d, false), missed := w.missed || !NoneOpen(w.prs))
  {
    hide CanBegin, NoneOpen;
  }

  lemma Opening(w: World, inp: Input, d: Decision, missed: bool, id: int, creation: Creation)
    requires w.versions != [] && id > 0 && id !in w.prs
    ensures var w' := w.(pc := Create(inp, d, false), missed := missed);
            Step(w', Opens(id, creation)) == OpenedIn(w', id, creation)
  {
    hide OpenedIn;
  }

  lemma ThreeSteps(events: seq<Event>, a: Event, b: Event, c: Event)
    ensures After(events + [a, b, c]) == Step(Step(Step(After(events), a), b), c)
  {
    hide Step;
    AfterOne(events, a);
    AfterOne(events + [a], b);
    AfterOne(events + [a] + [b], c);
    assert events + [a] + [b] + [c] == events + [a, b, c];
  }

  lemma PassProposes(events: seq<Event>, inp: Input, d: Decision, id: int, creation: Creation)
    requires MayPropose(After(events), inp, d) && id > 0 && id !in After(events).prs
    ensures After(events + Pass(After(events), inp, d, id, creation, false))
         == Proposed(After(events), inp, d, id, creation)
  {
    hide Step, NoneOpen, OpenedIn, After, MayPropose;
    var w := After(events);
    var p := Pass(w, inp, d, id, creation, false);
    ThreeSteps(events, p[0], p[1], p[2]);
    Begins(w, inp, d);
    Finds(w, inp, d);
    Opening(w, inp, d, w.missed || !NoneOpen(w.prs), id, creation);
  }

  /** A search that misses an open pull request leads to a second one, from every reachable state. */
  lemma MissedSearchOpensTwo(events: seq<Event>, inp: Input, d: Decision, a: int, b: int)
    requires MayPropose(After(events), inp, d)
    requires a in After(events).prs && After(events).prs[a].status == Open && b > 0 && b !in After(events).prs
    ensures var w := After(events + Pass(After(events), inp, d, b, Labelled, false));
            && w.missed && a != b && a in w.prs && w.prs[a].status == Open && b in w.prs && w.prs[b].status == Open
  {
    hide Step, MayPropose;
    PassProposes(events, inp, d, b, Labelled);
  }

  /* ---------- the same readings again ---------- */

  /** The same input with the stamps of a later version of the Lease. */
  function Reread(inp: Input, l: Lease): Input
  {
    inp.(lastGrow := l.lastGrow, lastShrink := l.lastShrink)
  }

  /** Stamps open and close gates, and change nothing else. */
  lemma StampsOnlyGate(inp: Input, l: Lease, res: string)
    ensures Exceeds(Reread(inp, l), res) <==> Exceeds(inp, res)
    ensures Recedes(Reread(inp, l), res) <==> Recedes(inp, res)
  {
    hide HeadroomFor, MinFor, Scaled;
  }

  /** A shrink decided on the same readings with other stamps is the same question to the gates that measure
      time, and never a grow. */
  lemma ShrinkAgain(inp: Input, d: Decision, l: Lease, again: Decision)
    requires Decided(inp, d) && d.direction == Shrink && IsDecision(again, Reread(inp, l))
    ensures again.direction != Grow
    ensures again.direction == Shrink <==>
      && (l.lastGrow.Some? ==> inp.now - l.lastGrow.value >= inp.policy.windowDays * 86400)
      && (l.lastShrink.Some? ==> inp.now - l.lastShrink.value >= inp.policy.shrinkCooldown)
  {
    Enabled(inp, d);
    hide Recedes, Exceeds, IsDecision, ValidPolicy;
    var inp' := Reread(inp, l);
    DecisionFollowsRule(inp, d, "");
    DecisionFollowsRule(inp', again, "");
    forall r ensures Exceeds(inp', r) <==> Exceeds(inp, r) ensures Recedes(inp', r) <==> Recedes(inp, r) {
      StampsOnlyGate(inp, l, r);
    }
  }

  lemma Enabled(inp: Input, d: Decision)
    requires IsDecision(d, inp) && d.direction == Shrink
    ensures inp.policy.enabled
  {
    hide RawTargetsOf, Growing, Shrinking, TargetsOf, Gates, IsReason;
  }

  /** At the clock at which a shrink was proposed, the same readings ask for a shrink again exactly when no
      grow was recorded or found merged since, and the shrink left no stamp or there is no cooldown. */
  lemma AskedAgainIff(events: seq<Event>, i: nat, again: Decision)
    requires !After(events).stale && i < |After(events).log|
    requires var w := After(events);
             var c := w.log[i];
             && c.Created? && HasDirection(w.prs, c.id, Shrink) && c.inp.now == w.clock
             && IsDecision(again, Reread(c.inp, Current(w)))
    ensures again.direction != Grow
    ensures var w := After(events);
            again.direction == Shrink <==>
              && NoGrowStampSince(w.log, i, w.prs)
              && (NoShrinkStampSince(w.log, i, w.prs) || w.log[i].inp.policy.shrinkCooldown == 0)
  {
    hide After, IsDecision, ShrinkStamp, GrowStamp;
    var w, c := After(events), After(events).log[i];
    var d := CreatedFromDecision(events, i);
    RunRemembers(events);
    RunIsTimed(events);
    assert Remembered(w.log, i, Current(w), w.prs);
    ShrinkAgain(c.inp, d, Current(w), again);
    ShrinkWaits(c.inp, d);
    StampsAreNow(w, i);
  }

  /** A stamp that was logged at the present clock is that clock. */
  lemma StampsAreNow(w: World, i: nat)
    requires Timed(w) && Remembering(w) && i < |w.log| && w.log[i].Created? && w.log[i].inp.now == w.clock
    ensures !NoShrinkStampSince(w.log, i, w.prs) ==> Current(w).lastShrink == Some(w.clock)
    ensures !NoGrowStampSince(w.log, i, w.prs) ==> Current(w).lastGrow == Some(w.clock)
  {
    hide ShrinkStamp, GrowStamp, MergeStamp, LogSpaced;
    assert Remembered(w.log, i, Current(w), w.prs);
    forall k | i < k < |w.log|
      ensures w.log[k].at == w.clock && EntryStamped(w.log[k], Current(w), w.prs)
    {
    }
  }

  /* ---------- exactly when a shrink is proposed ---------- */

  /** The readings ask for a shrink: something recedes on a complete window, and nothing has to grow. */
  ghost predicate Asks(inp: Input)
  {
    && inp.policy.enabled && inp.policy.shrinkEnabled
    && (!exists r :: Exceeds(inp, r)) && (exists r :: Recedes(inp, r))
    && (forall r :: Recedes(inp, r) ==> Complete(inp.window.days, r, Day(inp.now), inp.policy.windowDays))
  }

  /** Every grow that was recorded or found merged, and every shrink that was recorded or released, is long
      enough ago. */
  predicate Waited(log: seq<Entry>, prs: map<int, PR>, p: Policy, now: int)
  {
    && (forall k :: 0 <= k < |log| && GrowStamp(log[k], prs) ==> now - log[k].at >= p.windowDays * 86400)
    && (forall k :: 0 <= k < |log| && ShrinkStamp(log[k], prs) ==> now - log[k].at >= p.shrinkCooldown)
  }

  lemma GatesMeasureLog(w: World, p: Policy)
    requires Timed(w) && Remembering(w)
    ensures Waited(w.log, w.prs, p, w.clock) <==>
      && (Current(w).lastGrow.Some? ==> w.clock - Current(w).lastGrow.value >= p.windowDays * 86400)
      && (Current(w).lastShrink.Some? ==> w.clock - Current(w).lastShrink.value >= p.shrinkCooldown)
  {
    hide ShrinkStamp, GrowStamp, MergeStamp, LogSpaced, LogOrdered, LogUpTo, Remembered;
    assert StampsLogged(w.log, Current(w), w.prs);
    forall k | 0 <= k < |w.log| ensures EntryStamped(w.log[k], Current(w), w.prs) {}
  }

  lemma ShrinksIff(w: World, inp: Input, d: Decision)
    requires Timed(w) && Remembering(w) && CanBegin(w, |w.versions| - 1, inp, d)
    ensures d.direction == Shrink <==> Asks(inp) && Waited(w.log, w.prs, inp.policy, w.clock)
  {
    hide Waited, Timed, Remembering, Recedes, Exceeds, IsDecision, ValidPolicy;
    GatesMeasureLog(w, inp.policy);
    if inp.policy.enabled {
      DecisionFollowsRule(inp, d, "");
    } else {
      Disabled(inp, d);
    }
  }

  lemma Disabled(inp: Input, d: Decision)
    requires IsDecision(d, inp) && !inp.policy.enabled
    ensures d.direction == NoChange
  {
    hide RawTargetsOf, Growing, Shrinking, TargetsOf, Gates, IsReason;
  }

  /** The last entry is a new shrink pull request. */
  predicate OpenedShrink(w: World, w': World, id: int, inp: Input)
  {
    w'.log == w.log + [Created(id, w.clock, inp)] && HasDirection(w'.prs, id, Shrink)
  }

  lemma ShrinkOpened(w: World, inp: Input, d: Decision, id: int)
    requires d.direction == Shrink
    ensures OpenedShrink(w, Proposed(w, inp, d, id, Labelled), id, inp)
  {
  }

  lemma NoShrinkOpened(events: seq<Event>, inp: Input, d: Decision, id: int, noop: bool)
    requires After(events).pc == Idle && Current(After(events)).prid == 0 && id > 0 && id !in After(events).prs
    requires noop || d.direction != Shrink
    ensures !OpenedShrink(After(events), After(events + Pass(After(events), inp, d, id, Labelled, noop)), id, inp)
  {
    hide After, IsDecision, ValidPolicy, GrowWaited, NoneOpen;
    var w := After(events);
    var p := Pass(w, inp, d, id, Labelled, noop);
    ThreeSteps(events, p[0], p[1], p[2]);
    assert |w.log + [Created(id, w.clock, inp)]| == |w.log| + 1;
  }

  /** In every fresh run, at every clock and on any readings: when the Lease is free and the search finds nothing
      open, a pass opens a shrink exactly when the readings ask for one that is not yet in the spec, and every
      stamp that was ever logged is a window or a cooldown old. */
  lemma ProposesShrinkIff(events: seq<Event>, inp: Input, d: Decision, id: int, noop: bool)
    requires !After(events).stale && Current(After(events)).prid == 0 && id > 0 && id !in After(events).prs
    requires CanBegin(After(events), |After(events).versions| - 1, inp, d)
    ensures var w := After(events);
            OpenedShrink(w, After(events + Pass(w, inp, d, id, Labelled, noop)), id, inp) <==>
              !noop && Asks(inp) && Waited(w.log, w.prs, inp.policy, w.clock)
  {
    hide After, IsDecision, ValidPolicy, Asks, Waited, OpenedShrink, Timed, Remembering, Step, NoneOpen, OpenedIn,
         GrowWaited;
    var w := After(events);
    RunIsTimed(events);
    RunRemembers(events);
    ShrinksIff(w, inp, d);
    if d.direction == Shrink && !noop {
      PassProposes(events, inp, d, id, Labelled);
      ShrinkOpened(w, inp, d, id);
    } else {
      NoShrinkOpened(events, inp, d, id, noop);
    }
  }

  /** In particular, a shrink that was opened is followed at once by another one on the same readings exactly
      when it left no stamp (no cooldown aside), and nothing grew since: recording or releasing it is what
      starts the cooldown, and closing it unrecorded does not. */
  lemma RepeatedIff(events: seq<Event>, i: nat, again: Decision, id: int, noop: bool)
    requires !After(events).stale && i < |After(events).log| && id > 0 && id !in After(events).prs
    requires var w := After(events);
             var c := w.log[i];
             && c.Created? && HasDirection(w.prs, c.id, Shrink) && c.inp.now == w.clock
             && w.pc == Idle && Current(w).prid == 0
             && IsDecision(again, Reread(c.inp, Current(w)))
    ensures var w := After(events);
            var inp := Reread(w.log[i].inp, Current(w));
            OpenedShrink(w, After(events + Pass(w, inp, again, id, Labelled, noop)), id, inp) <==>
              && !noop && NoGrowStampSince(w.log, i, w.prs)
              && (NoShrinkStampSince(w.log, i, w.prs) || w.log[i].inp.policy.shrinkCooldown == 0)
  {
    hide After, IsDecision, ShrinkStamp, GrowStamp, OpenedIn, Step, OpenedShrink, NoneOpen;
    var w := After(events);
    var inp := Reread(w.log[i].inp, Current(w));
    AskedAgainIff(events, i, again);
    ValidAgain(events, i);
    if again.direction == Shrink && !noop {
      PassProposes(events, inp, again, id, Labelled);
      ShrinkOpened(w, inp, again, id);
    } else {
      NoShrinkOpened(events, inp, again, id, noop);
    }
  }

  lemma ValidAgain(events: seq<Event>, i: nat)
    requires i < |After(events).log| && After(events).log[i].Created?
    ensures ValidPolicy(After(events).log[i].inp.policy)
  {
    hide After, IsDecision;
    var d := CreatedFromDecision(events, i);
  }

  /** So from every reachable state in which a shrink may be proposed: opened, but never recorded because the
      answer was lost or it could not be labelled, and closed before it is adopted, it is proposed again
      without any delay. */
  lemma UnrecordedShrinkIsRepeated(events: seq<Event>, inp: Input, d: Decision, creation: Creation, a: int, b: int)
    requires MayPropose(After(events), inp, d) && d.direction == Shrink
    requires creation.AnswerLost? || creation.Unlabelled?
    requires 0 < a < b && a !in After(events).prs && b !in After(events).prs
    ensures var w := After(events);
            var closed := events + Pass(w, inp, d, a, creation, false) + [HumanCloses(a)];
            var w' := After(closed + Pass(After(closed), inp, d, b, Labelled, false));
            && w'.log == w.log + [Created(a, w.clock, inp), Created(b, w.clock, inp)] && w'.stale == w.stale
            && HasDirection(w'.prs, a, Shrink) && HasDirection(w'.prs, b, Shrink) && w'.prs[b].status == Open
  {
    hide Step, NoneOpen, OpenedIn, CanBegin, GrowWaited;
    var w := After(events);
    var first := events + Pass(w, inp, d, a, creation, false);
    PassProposes(events, inp, d, a, creation);
    AfterOne(first, HumanCloses(a));
    ClosedAgain(w, inp, d, creation, a, b);
    PassProposes(first + [HumanCloses(a)], inp, d, b, Labelled);
    OpensSecond(After(first + [HumanCloses(a)]), inp, d, a, b);
  }

  lemma ClosedAgain(w: World, inp: Input, d: Decision, creation: Creation, a: int, b: int)
    requires MayPropose(w, inp, d) && d.direction == Shrink && (creation.AnswerLost? || creation.Unlabelled?)
    requires 0 < a < b && a !in w.prs && b !in w.prs
    ensures Proposed(w, inp, d, a, creation).versions != []
    ensures var w' := Step(Proposed(w, inp, d, a, creation), HumanCloses(a));
            && MayPropose(w', inp, d) && b !in w'.prs && HasDirection(w'.prs, a, Shrink)
            && w'.log == w.log + [Created(a, w.clock, inp)] && w'.clock == w.clock && w'.stale == w.stale
  {
    hide NoneOpen, IsDecision, ValidPolicy;
  }

  lemma OpensSecond(w: World, inp: Input, d: Decision, a: int, b: int)
    requires d.direction == Shrink && a < b && HasDirection(w.prs, a, Shrink)
    ensures var w' := Proposed(w, inp, d, b, Labelled);
            && w'.log == w.log + [Created(b, w.clock, inp)] && w'.stale == w.stale
            && HasDirection(w'.prs, a, Shrink) && HasDirection(w'.prs, b, Shrink) && w'.prs[b].status == Open
  {
    hide NoneOpen;
  }

  /** The other half over time: of two shrinks in the log, the second comes a cooldown after the first
      whenever a shrink was recorded or released between them. */
  lemma ConsecutiveShrinks(events: seq<Event>, i: nat, k: nat, j: nat)
    requires !After(events).stale && i < k < j < |After(events).log|
    requires var w := After(events);
             && w.log[j].Created? && HasDirection(w.prs, w.log[j].id, Shrink) && ShrinkStamp(w.log[k], w.prs)
    ensures After(events).log[j].at - After(events).log[i].at >= After(events).log[j].inp.policy.shrinkCooldown
  {
    hide After;
    ShrinksAreSpaced(events, k, j);
    RunRemembers(events);
  }
}
