/** One undisturbed pass of the reconciler over one quota, told in the fields of the state: what is left of
    the pull request that the Lease holds, or of the one that is open, or that a new one is opened. */
module ProtocolPasses {
  import opened Options
  import opened Calls
  import opened Policies
  import opened DecisionRule
  import opened Protocol
  import opened ProtocolSafety
  import R = ProtocolRepeats

  /* ---------- an undisturbed pass ---------- */

  ghost function OpenId(prs: map<int, PR>): (id: int)
    ensures if NoneOpen(prs) then id == 0 else id in prs && prs[id].status == Open
  {
    if NoneOpen(prs) then 0 else var id :| id in prs && prs[id].status == Open; id
  }

  lemma {:induction false} Above(ids: set<int>) returns (m: int)
    ensures m >= 0 && forall id :: id in ids ==> id <= m
  {
    m := 0;
    if x :| x in ids {
      var rest := Above(ids - {x});
      assert forall id :: id in ids ==> id == x || id in ids - {x};
      m := if x > rest then x else rest;
    }
  }

  /** The number of the next pull request. */
  ghost function NewId(prs: map<int, PR>): (id: int)
    ensures id > 0 && id !in prs
  {
    assert exists id :: id > 0 && id !in prs by {
      var m := Above(prs.Keys);
      assert m + 1 > 0 && m + 1 !in prs;
    }
    var id :| id > 0 && id !in prs;
    id
  }

  /** Whether the pending shortages were seen, what the forge says of an open pull request, whether the spec
      already has every target, and whether the labels of a new pull request were attached. */
  datatype Answers = Answers(scanned: bool, readiness: Readiness, noop: bool, labelled: bool)

  /** The call that the reconciler is about to make succeeds, labels aside, and searches are complete. */
  ghost function Success(w: World, answers: Answers): Event
  {
    match w.pc
    case Idle => Stop
    case CheckStatus(_, _, _) => StatusRead(Done, false, answers.readiness)
    case Find(_, _, _, _) => Found(Done, OpenId(w.prs), answers.noop)
    case Create(_, _, _) => Opens(NewId(w.prs), if answers.labelled then Labelled else Unlabelled(true))
    case _ => Called(Done)
  }

  ghost function Next(w: World, answers: Answers): (next: World)
    requires w.versions != []
    ensures next.versions != []
  {
    Step(w, Success(w, answers))
  }

  ghost function Begun(w: World, inp: Input, d: Decision, scanned: bool): (next: World)
    requires w.versions != []
    ensures next.versions != []
  {
    Step(w, Begin(|w.versions| - 1, R.Reread(inp, Current(w)), d, !scanned))
  }

  /** A decision on the current Lease, and the three calls that can follow. */
  ghost function Pass(w: World, inp: Input, d: Decision, answers: Answers): (next: World)
    requires w.versions != []
    ensures next.versions != []
  {
    Next(Next(Next(Begun(w, inp, d, answers.scanned), answers), answers), answers)
  }

  /** The reconciler is about to decide, and this is a decision on what it will read. */
  ghost predicate Ready(w: World, inp: Input, d: Decision)
  {
    w.versions != [] && w.pc == Idle && inp.now == w.clock && Decided(R.Reread(inp, Current(w)), d)
  }

  /* ---------- the calls of a pass ---------- */

  lemma BeginsWith(w: World, inp: Input, d: Decision, scanned: bool)
    requires Ready(w, inp, d)
    ensures Begun(w, inp, d, scanned) == w.(pc := Protocol.Begun(Current(w), R.Reread(inp, Current(w)), d, !scanned))
  {
    hide IsDecision, ValidPolicy;
    assert CanBegin(w, |w.versions| - 1, R.Reread(inp, Current(w)), d);
    hide CanBegin;
  }

  lemma NextStatus(w: World, answers: Answers)
    requires w.versions != [] && w.pc.CheckStatus? && w.pc.st.prid in w.prs
    ensures Next(w, answers) == w.(pc := StatusKnown(w, w.prs[w.pc.st.prid], false, answers.readiness))
  {
    hide StatusKnown;
  }

  lemma NextFound(w: World, answers: Answers)
    requires w.versions != [] && w.pc.Find? && 0 !in w.prs
    ensures OpenId(w.prs) == 0 || OpenId(w.prs) in w.prs
    ensures Next(w, answers) == w.(pc := Proposal(w, OpenId(w.prs), answers.noop))
  {
    hide Proposal;
  }

  lemma NextCreate(w: World, answers: Answers)
    requires w.versions != [] && w.pc.Create?
    ensures Next(w, answers) == OpenedIn(w, NewId(w.prs), if answers.labelled then Labelled else Unlabelled(true))
  {
    hide OpenedIn;
  }

  lemma NextCall(w: World, answers: Answers)
    requires w.versions != []
    requires !w.pc.Idle? && !w.pc.CheckStatus? && !w.pc.Find? && !w.pc.Create?
    ensures Next(w, answers) == Call(w, Done)
  {
    hide Call;
  }

  lemma NextIdle(w: World, answers: Answers)
    requires w.versions != [] && w.pc == Idle
    ensures Next(w, answers) == w
  {
  }

  lemma PassIs(w: World, inp: Input, d: Decision, answers: Answers, a: World, b: World, c: World)
    requires w.versions != [] && a.versions != [] && b.versions != []
    requires a == Begun(w, inp, d, answers.scanned) && b == Next(a, answers) && c == Next(b, answers)
    ensures c.versions != [] && Pass(w, inp, d, answers) == Next(c, answers)
  {
    hide Next, Begun;
  }

  lemma SafeIds(w: World)
    requires Safe(w)
    ensures 0 !in w.prs
  {
  }

  /** The Lease knows what it holds. */
  lemma HeldDirection(w: World)
    requires Safe(w) && w.versions != [] && Current(w).prid != 0
    ensures Current(w).prid in w.prs && Current(w).direction == Some(w.prs[Current(w).prid].direction)
    ensures w.prs[Current(w).prid].direction in {Grow, Shrink}
  {
    CurrentTracks(w);
    assert PRSound(w.prs[Current(w).prid]);
  }

  /** The three calls of a pass that starts with reading a status. */
  lemma HeldPass(w: World, inp: Input, d: Decision, answers: Answers)
    requires Safe(w) && Ready(w, inp, d) && Current(w).prid in w.prs
    ensures var read := w.(pc := CheckStatus(Current(w), R.Reread(inp, Current(w)), d));
            var known := StatusKnown(read, w.prs[Current(w).prid], false, answers.readiness);
            Pass(w, inp, d, answers) == Next(Next(w.(pc := known), answers), answers)
  {
    hide Safe, Decided, Begun, Next, Pass, StatusKnown;
    SafeIds(w);
    BeginsWith(w, inp, d, answers.scanned);
    var w1 := w.(pc := CheckStatus(Current(w), R.Reread(inp, Current(w)), d));
    NextStatus(w1, answers);
    var w2 := w.(pc := StatusKnown(w1, w.prs[Current(w).prid], false, answers.readiness));
    PassIs(w, inp, d, answers, w1, w2, Next(w2, answers));
  }

  /* ---------- what a pass does ---------- */

  /** The Lease holds a pull request that was merged or closed: it is released, and the stamps of its direction
      are set, of a closed one only those of a shrink. */
  lemma PassOnFinished(w: World, inp: Input, d: Decision, answers: Answers)
    requires Safe(w) && Ready(w, inp, d) && Current(w).prid in w.prs && w.prs[Current(w).prid].status != Open
    ensures var l, pr, now := Current(w), w.prs[Current(w).prid], Some(w.clock);
            var merged, shrink := pr.status == Merged, pr.direction == Shrink;
            Pass(w, inp, d, answers) ==
              w.(versions := w.versions + [Lease(0, None, if merged then now else l.lastModified,
                                                 if merged && !shrink then now else l.lastGrow,
                                                 if shrink then now else l.lastShrink)],
                 log := w.log + [Released(l.prid, w.clock, merged)])
  {
    hide Safe, Decided, Next, Pass;
    SafeIds(w);
    HeldDirection(w);
    HeldPass(w, inp, d, answers);
    var w2 := w.(pc := Release(w.prs[Current(w).prid].status == Merged, w.clock));
    NextCall(w2, answers);
    NextIdle(Call(w2, Done), answers);
  }

  /** It holds an open shrink: a decision to grow closes it, and so does a shrink that has waited for longer than
      the policy allows; nothing else does. */
  lemma PassOnHeldShrink(w: World, inp: Input, d: Decision, answers: Answers)
    requires Safe(w) && Ready(w, inp, d) && Current(w).prid in w.prs
    requires w.prs[Current(w).prid].status == Open && w.prs[Current(w).prid].direction == Shrink
    ensures var l, pr := Current(w), w.prs[Current(w).prid];
            Pass(w, inp, d, answers) ==
              if d.direction == Grow || w.clock - pr.createdAt > inp.policy.shrinkPRTTL then
                w.(prs := w.prs[l.prid := pr.(status := Closed)],
                   versions := w.versions + [Lease(0, None, l.lastModified, l.lastGrow, Some(w.clock))],
                   log := w.log + [Released(l.prid, w.clock, false)])
              else w
  {
    hide Safe, Decided, Next, Pass;
    SafeIds(w);
    HeldDirection(w);
    HeldPass(w, inp, d, answers);
    NextIdle(w, answers);
    var l, pr := Current(w), w.prs[Current(w).prid];
    if d.direction == Grow || w.clock - pr.createdAt > inp.policy.shrinkPRTTL {
      NextCall(w.(pc := Expire(l)), answers);
      NextCall(w.(prs := w.prs[l.prid := pr.(status := Closed)], pc := ReleaseExpired(w.clock)), answers);
    }
  }

  /** It holds an open grow: that is merged when the forge allows it; otherwise, unless the forge is still
      computing whether it does, a decision to grow adds a commit with its targets. */
  lemma PassOnHeldGrow(w: World, inp: Input, d: Decision, answers: Answers)
    requires Safe(w) && Ready(w, inp, d) && Current(w).prid in w.prs
    requires w.prs[Current(w).prid].status == Open && w.prs[Current(w).prid].direction == Grow
    ensures var l, pr, now := Current(w), w.prs[Current(w).prid], Some(w.clock);
            Pass(w, inp, d, answers) ==
              if answers.readiness == CanMerge then
                w.(prs := w.prs[l.prid := pr.(status := Merged)],
                   versions := w.versions + [Lease(0, None, now, now, l.lastShrink)],
                   log := w.log + [Released(l.prid, w.clock, true)],
                   merges := w.merges + {l.prid})
              else if answers.readiness != Unknown && d.direction == Grow then
                w.(prs := w.prs[l.prid := pr.(commits := pr.commits + [Commit(inp.hard, d.targets)])])
              else w
  {
    hide Safe, Decided, Next, Pass;
    SafeIds(w);
    HeldDirection(w);
    HeldPass(w, inp, d, answers);
    NextIdle(w, answers);
    var l, inp' := Current(w), R.Reread(inp, Current(w));
    if answers.readiness == CanMerge {
      var w2 := w.(pc := Protocol.Merge(l, inp', d));
      NextCall(w2, answers);
      NextCall(Call(w2, Done), answers);
    } else if answers.readiness != Unknown && d.direction == Grow {
      var w2 := w.(pc := Update(l, inp', d));
      NextCall(w2, answers);
      NextIdle(Call(w2, Done), answers);
    }
  }

  /** It holds none, and nothing is asked for, or a shrink that may not know the pending shortages. */
  lemma PassOnQuiet(w: World, inp: Input, d: Decision, answers: Answers)
    requires Safe(w) && Ready(w, inp, d) && Current(w).prid == 0
    requires d.direction == NoChange || (d.direction == Shrink && !answers.scanned)
    ensures Pass(w, inp, d, answers) == w
  {
    hide Safe, Decided, Begun, Next, Pass;
    BeginsWith(w, inp, d, answers.scanned);
    NextIdle(w, answers);
    PassIs(w, inp, d, answers, w, w, w);
  }

  /** The three calls of a pass that starts with a search. */
  lemma SearchPass(w: World, inp: Input, d: Decision, answers: Answers)
    requires Safe(w) && Ready(w, inp, d) && Current(w).prid == 0
    requires d.direction == Grow || (d.direction == Shrink && answers.scanned)
    ensures OpenId(w.prs) == 0 || OpenId(w.prs) in w.prs
    ensures var w1 := w.(pc := Find(Current(w), R.Reread(inp, Current(w)), d, !answers.scanned));
            var w2 := w.(pc := Proposal(w1, OpenId(w.prs), answers.noop));
            Pass(w, inp, d, answers) == Next(Next(w2, answers), answers)
  {
    hide Safe, Decided, Begun, Next, Pass, Proposal;
    SafeIds(w);
    BeginsWith(w, inp, d, answers.scanned);
    var w1 := w.(pc := Find(Current(w), R.Reread(inp, Current(w)), d, !answers.scanned));
    NextFound(w1, answers);
    var w2 := w.(pc := Proposal(w1, OpenId(w.prs), answers.noop));
    PassIs(w, inp, d, answers, w1, w2, Next(w2, answers));
  }

  /** It holds none while one is open: that one is adopted, with the direction of its branch. */
  lemma PassOnStray(w: World, inp: Input, d: Decision, answers: Answers)
    requires Safe(w) && Ready(w, inp, d) && Current(w).prid == 0 && !NoneOpen(w.prs)
    requires d.direction == Grow || (d.direction == Shrink && answers.scanned)
    ensures var l, id := Current(w), OpenId(w.prs);
            && id in w.prs && w.prs[id].status == Open
            && Pass(w, inp, d, answers) == w.(versions := w.versions + [l.(prid := id,
                                                                          direction := Some(w.prs[id].direction))])
  {
    hide Safe, Decided, Next, Pass, NoneOpen;
    SafeIds(w);
    SearchPass(w, inp, d, answers);
    var id := OpenId(w.prs);
    var w2 := w.(pc := Adopt(id, w.prs[id].direction));
    NextCall(w2, answers);
    NextIdle(Call(w2, Done), answers);
  }

  /** Nothing is held and nothing is open: a pull request is opened, unless nothing would change or growing has
      to wait after the last merge. The Lease then holds it, with the stamp of its direction; but a shrink that
      could not be labelled is closed again and leaves no trace in the Lease. */
  lemma PassOnFree(w: World, inp: Input, d: Decision, answers: Answers)
    requires Safe(w) && Ready(w, inp, d) && Current(w).prid == 0 && NoneOpen(w.prs)
    requires d.direction == Grow || (d.direction == Shrink && answers.scanned)
    ensures var l, id, now, grow := Current(w), NewId(w.prs), w.clock, d.direction == Grow;
            var waits := grow && l.lastModified.Some? && now - l.lastModified.value < inp.policy.growCooldown;
            var created := Created(id, now, R.Reread(inp, l));
            var pr := PR(d.direction, Open, now, [Commit(inp.hard, d.targets)], !answers.scanned);
            Pass(w, inp, d, answers) ==
              if answers.noop || waits then w
              else if grow || answers.labelled then
                w.(prs := w.prs[id := pr],
                   versions := w.versions + [Lease(id, Some(d.direction), l.lastModified,
                                                   if grow then Some(now) else l.lastGrow,
                                                   if grow then l.lastShrink else Some(now))],
                   log := w.log + [created, Recorded(id, now)])
              else w.(prs := w.prs[id := pr.(status := Closed)], log := w.log + [created])
  {
    hide Safe, Decided, Next, Pass, NoneOpen;
    SafeIds(w);
    SearchPass(w, inp, d, answers);
    NextIdle(w, answers);
    var inp' := R.Reread(inp, Current(w));
    var w2 := w.(pc := Create(inp', d, !answers.scanned));
    NextCreate(w2, answers);
    OpensAs(w, inp', d, answers);
  }

  lemma OpensAs(w: World, inp: Input, d: Decision, answers: Answers)
    requires w.versions != [] && w.pc == Idle && d.direction in {Grow, Shrink} && Current(w).prid == 0
    ensures var l, id, now, grow := Current(w), NewId(w.prs), w.clock, d.direction == Grow;
            var created := Created(id, now, inp);
            var pr := PR(d.direction, Open, now, [Commit(inp.hard, d.targets)], !answers.scanned);
            var w3 := OpenedIn(w.(pc := Create(inp, d, !answers.scanned)), id,
                               if answers.labelled then Labelled else Unlabelled(true));
            && w3.versions != []
            && Next(w3, answers) ==
               if grow || answers.labelled then
                 w.(prs := w.prs[id := pr],
                    versions := w.versions + [Lease(id, Some(d.direction), l.lastModified,
                                                    if grow then Some(now) else l.lastGrow,
                                                    if grow then l.lastShrink else Some(now))],
                    log := w.log + [created, Recorded(id, now)])
               else w.(prs := w.prs[id := pr.(status := Closed)], log := w.log + [created])
  {
    hide Next;
    var id := NewId(w.prs);
    var w3 := OpenedIn(w.(pc := Create(inp, d, !answers.scanned)), id,
                       if answers.labelled then Labelled else Unlabelled(true));
    if w3.pc == Idle {
      NextIdle(w3, answers);
    } else {
      NextCall(w3, answers);
      assert w.log + [Created(id, w.clock, inp)] + [Recorded(id, w.clock)]
        == w.log + [Created(id, w.clock, inp), Recorded(id, w.clock)];
    }
  }
}
