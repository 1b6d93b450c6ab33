/** The Lease of the protocol is the stored one: each closure on the decoded state is the step that the
    protocol takes, so that its versions are those that the clients of the API server leave behind. */
module ProtocolLease {
  import opened Options
  import opened LeaseCodec
  import opened LeaseClients
  import opened DecisionRule
  import P = Protocol

  const GROW := Plain("grow")

  /** The direction annotation; anything unknown is neither grow nor shrink. */
  function DirectionOf(t: Text): Option<Direction>
  {
    if t == EMPTY_TEXT then None
    else if t == GROW then Some(Grow)
    else if t == SHRINK then Some(Shrink)
    else Some(NoChange)
  }

  function TextOf(d: Direction): Text
  {
    match d
    case Grow => GROW
    case Shrink => SHRINK
    case NoChange => Plain("none")
  }

  lemma TextIsRead(d: Direction)
    ensures DirectionOf(TextOf(d)) == Some(d) && (TextOf(d) == SHRINK <==> d == Shrink)
  {
    assert |"grow"| == 4 && |"shrink"| == 6 && |"none"| == 4 && "grow"[0] != "none"[0];
  }

  /** A state without its window. */
  function View(s: State): P.Lease
  {
    P.Lease(s.prid, DirectionOf(s.direction), s.lastModified, s.lastGrow, s.lastShrink)
  }

  /** The version of the Lease after the first updates. */
  function Version(commits: seq<Commit>, k: nat): P.Lease
    requires k <= |commits|
  {
    View(Result(commits[..k]))
  }

  lemma SameShrink(t: Text)
    ensures t == SHRINK <==> DirectionOf(t) == Some(Shrink)
  {
    assert |"grow"| == 4 && |"shrink"| == 6;
  }

  lemma ClosuresAgree(s: State, id: int, d: Direction, merged: bool, at: int, v: Text)
    ensures View(Releases(merged, at)(s)) == P.ReleasedIn(View(s), merged, at)
    ensures View(Expires(at)(s)) == P.ExpiredIn(View(s), at)
    ensures View(AutoMerges(at)(s)) == P.AutoMergedIn(View(s), at)
    ensures View(Adopts(id, TextOf(d))(s)) == P.AdoptedIn(View(s), id, d)
    ensures View(Records(id, TextOf(d), at)(s)) == P.RecordedIn(View(s), id, d, at)
    ensures View(WritesWindow(v)(s)) == View(s)
  {
    SameShrink(s.direction);
    TextIsRead(d);
    hide DirectionOf, TextOf;
    assert DirectionOf(EMPTY_TEXT) == None by { Empty(); }
  }

  lemma Empty()
    ensures DirectionOf(EMPTY_TEXT) == None
  {
  }

  /** One after the other, the updates take the Lease through the versions of the protocol, whichever calls
      were interleaved, repeated after a conflict or left without an answer. */
  lemma VersionsFollowProtocol(commits: seq<Commit>, k: nat, id: int, d: Direction, merged: bool, at: int, v: Text)
    requires k < |commits| && Disciplined(commits[k])
    ensures var l, next, op := Version(commits, k), Version(commits, k + 1), commits[k].op;
            && (op == Mutate(Releases(merged, at)) ==> next == P.ReleasedIn(l, merged, at))
            && (op == Mutate(Expires(at)) ==> next == P.ExpiredIn(l, at))
            && (op == Mutate(AutoMerges(at)) ==> next == P.AutoMergedIn(l, at))
            && (op == Mutate(Adopts(id, TextOf(d))) ==> next == P.AdoptedIn(l, id, d))
            && (op == Mutate(Records(id, TextOf(d), at)) ==> next == P.RecordedIn(l, id, d, at))
            && (op == Mutate(WritesWindow(v)) ==> next == l)
  {
    hide Disciplined, Result, View, DirectionOf, TextOf, Releases, Expires, AutoMerges, Adopts, Records, WritesWindow,
         P.ReleasedIn, P.ExpiredIn, P.AutoMergedIn, P.AdoptedIn, P.RecordedIn;
    assert commits[..k + 1] == commits[..k] + [commits[k]];
    ResultOfOne(commits[..k], commits[k]);
    ClosuresAgree(Result(commits[..k]), id, d, merged, at, v);
  }

  /** A call of MutateState that succeeded is one such update of its own closure; what others read before
      and after it are two neighbouring versions. */
  lemma MutateStateIsAtomic(events: seq<Event>, c: int, fn: State -> State) returns (k: nat)
    requires var cs := After(events).clients; c in cs && cs[c] == Client(Mutate(fn), Ended(true))
    requires Disciplined(Commit(c, Mutate(fn)))
    ensures k < |After(events).commits| && After(events).commits[k] == Commit(c, Mutate(fn))
    ensures var commits := After(events).commits;
            Version(commits, k + 1) == View(fn(Result(commits[..k])))
  {
    hide Disciplined, Result, View, After;
    k := CommitOf(events, c);
    var commits := After(events).commits;
    assert commits[..k + 1] == commits[..k] + [commits[k]];
    ResultOfOne(commits[..k], commits[k]);
  }
}
