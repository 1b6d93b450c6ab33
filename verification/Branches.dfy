/** Branch names and the search for an open pull request (internal/git/github.go). */
module Branches {
  import opened Options
  import opened Strings

  const GROW := "grow"
  const SHRINK := "shrink"
  const DIRECTION_LABEL := "resizer/direction:"

  function BranchName(direction: string, namespace: string, quota: string, stamp: int): string
  {
    Prefix(direction, namespace, quota) + Decimal(stamp)
  }

  function Prefix(direction: string, namespace: string, quota: string): string
  {
    "resize/" + (direction + "/" + (namespace + "/" + (quota + "/")))
  }

  function LegacyPrefix(namespace: string, quota: string): string
  {
    "resize/" + (namespace + "-" + quota + "-")
  }

  /** Names of Kubernetes objects contain no slash. */
  predicate NoSlash(s: string)
  {
    '/' !in s
  }

  /** The text before the first slash. */
  function FirstSegment(s: string): string
  {
    if s == [] || s[0] == '/' then [] else [s[0]] + FirstSegment(s[1..])
  }

  lemma {:induction false} FirstSegmentIs(a: string, x: string)
    requires NoSlash(a)
    ensures FirstSegment(a + "/" + x) == a
  {
    var s := a + "/" + x;
    if a != [] {
      assert s[0] == a[0] && s[1..] == a[1..] + "/" + x;
      FirstSegmentIs(a[1..], x);
    }
  }

  lemma {:induction false} FirstSegmentOfPrefix(p: string, q: string)
    requires p <= q && '/' in p
    ensures FirstSegment(p) == FirstSegment(q)
  {
    if p[0] != '/' { FirstSegmentOfPrefix(p[1..], q[1..]); }
  }

  lemma SegmentUnique(a: string, b: string, x: string, y: string)
    requires NoSlash(a) && NoSlash(b)
    ensures a + "/" + x <= b + "/" + y <==> a == b && x <= y
  {
    var p, q := a + "/" + x, b + "/" + y;
    FirstSegmentIs(a, x);
    FirstSegmentIs(b, y);
    assert p[|a|] == '/' && p[|a| + 1..] == x && q[|b| + 1..] == y;
    if p <= q {
      FirstSegmentOfPrefix(p, q);
    }
    if a == b && x <= y {
      assert p == q[..|p|];
    }
  }

  lemma AfterResize(x: string, y: string)
    ensures "resize/" + x <= "resize/" + y <==> x <= y
  {
    var p, q := "resize/" + x, "resize/" + y;
    assert p[7..] == x && q[7..] == y;
    if x <= y { assert p == q[..|p|]; }
  }

  /** A branch is found for a direction, a namespace and a quota exactly when it was opened for them. */
  lemma BranchIsUnambiguous(d: string, n: string, q: string, stamp: int, d': string, n': string, q': string)
    requires NoSlash(d) && NoSlash(n) && NoSlash(q) && NoSlash(d') && NoSlash(n') && NoSlash(q')
    ensures HasPrefix(BranchName(d, n, q, stamp), Prefix(d', n', q')) <==> d == d' && n == n' && q == q'
  {
    var t := Decimal(stamp);
    var rest, rest' := n + "/" + (q + "/" + t), n' + "/" + (q' + "/");
    assert BranchName(d, n, q, stamp) == "resize/" + (d + "/" + rest) by {
      assert n + "/" + (q + "/") + t == rest;
      assert d + "/" + (n + "/" + (q + "/")) + t == d + "/" + rest;
    }
    AfterResize(d' + "/" + rest', d + "/" + rest);
    SegmentUnique(d', d, rest', rest);
    SegmentUnique(n', n, q' + "/", q + "/" + t);
    assert q' + "/" + [] == q' + "/";
    SegmentUnique(q', q, [], t);
  }

  /** No branch that is opened today looks like a legacy branch of any quota. */
  lemma BranchIsNeverLegacy(d: string, n: string, q: string, stamp: int, n': string, q': string)
    requires d == GROW || d == SHRINK
    requires NoSlash(n') && NoSlash(q')
    ensures !HasPrefix(BranchName(d, n, q, stamp), LegacyPrefix(n', q'))
  {
    var legacy, rest := n' + "-" + q' + "-", d + "/" + (n + "/" + (q + "/")) + Decimal(stamp);
    assert BranchName(d, n, q, stamp) == "resize/" + rest;
    AfterResize(legacy, rest);
    assert rest[|d|] == '/' && rest[..|d|] == d;
    assert legacy[|n'|] == '-' && '-' !in d;
    assert forall i :: 0 <= i < |legacy| ==> legacy[i] == '-' || legacy[i] in n' || legacy[i] in q';
    if |legacy| > |d| {
      assert legacy[|d|] != rest[|d|];
    } else {
      assert legacy[|n'|] != d[|n'|] == rest[|n'|];
    }
  }

  /** The legacy shape cannot tell two quotas apart exactly when their joined names agree. */
  lemma LegacyCollidesIff(n: string, q: string, n': string, q': string)
    ensures LegacyPrefix(n, q) == LegacyPrefix(n', q') <==> n + "-" + q == n' + "-" + q'
  {
    var a, b := n + "-" + q, n' + "-" + q';
    assert LegacyPrefix(n, q)[7..|LegacyPrefix(n, q)| - 1] == a;
    assert LegacyPrefix(n', q')[7..|LegacyPrefix(n', q')| - 1] == b;
  }

  lemma LegacyCollision()
    ensures LegacyPrefix("team-a", "compute") == LegacyPrefix("team", "a-compute")
  {
    assert "team-a" + "-" + "compute" == "team" + "-" + "a-compute";
    LegacyCollidesIff("team-a", "compute", "team", "a-compute");
  }

  /* ---------- labels ---------- */

  predicate SaysOtherThanGrow(name: string)
  {
    HasPrefix(name, DIRECTION_LABEL) && name[|DIRECTION_LABEL|..] != GROW
  }

  /** Any direction label other than grow makes it a shrink, wherever it stands. */
  method DirectionFromLabels(labels: seq<string>) returns (direction: string)
    ensures direction == Direction(labels)
  {
    for i := 0 to |labels|
      invariant forall j :: 0 <= j < i ==> !SaysOtherThanGrow(labels[j])
    {
      var name := labels[i];
      if !HasPrefix(name, DIRECTION_LABEL) {
        continue;
      }
      if name[|DIRECTION_LABEL|..] != GROW {
        return SHRINK;
      }
    }
    direction := GROW;
  }

  function Direction(labels: seq<string>): string
  {
    if exists i :: 0 <= i < |labels| && SaysOtherThanGrow(labels[i]) then SHRINK else GROW
  }

  /* ---------- the search ---------- */

  /** An open pull request as it is listed; the head can be missing. */
  datatype Listed = Listed(number: nat, head: Option<string>, labels: seq<string>)

  datatype Answer = Failed | Nothing | Found(number: nat, direction: string)

  predicate Own(pr: Listed, namespace: string, quota: string)
  {
    pr.head.Some? && (HasPrefix(pr.head.value, Prefix(GROW, namespace, quota))
                      || HasPrefix(pr.head.value, Prefix(SHRINK, namespace, quota)))
  }

  predicate Legacy(pr: Listed, namespace: string, quota: string)
  {
    && pr.head.Some? && HasPrefix(pr.head.value, LegacyPrefix(namespace, quota))
    && !Own(pr, namespace, quota) && pr.number != 0
  }

  function OwnAnswer(pr: Listed, namespace: string, quota: string): Answer
    requires Own(pr, namespace, quota)
  {
    Found(pr.number, if HasPrefix(pr.head.value, Prefix(GROW, namespace, quota)) then GROW else SHRINK)
  }

  /** The first own pull request of a list, or the first legacy match when there is none. */
  function Search(prs: seq<Listed>, namespace: string, quota: string, fallback: Answer): Answer
  {
    if prs == [] then fallback
    else if Own(prs[0], namespace, quota) then OwnAnswer(prs[0], namespace, quota)
    else Search(prs[1..], namespace, quota, Fallback(prs[0], namespace, quota, fallback))
  }

  /** The fallback after one more pull request that is not an own one. */
  function Fallback(pr: Listed, namespace: string, quota: string, fallback: Answer): Answer
  {
    if fallback == Nothing && Legacy(pr, namespace, quota) then Found(pr.number, Direction(pr.labels)) else fallback
  }

  /** The list comes in pages, and fetching one can fail. */
  function Scan(page: seq<Listed>, rest: seq<Option<seq<Listed>>>, namespace: string, quota: string,
                fallback: Answer): Answer
    decreases |rest|, |page|
  {
    if page == [] then
      if rest == [] then fallback
      else if rest[0].None? then Failed
      else Scan(rest[0].value, rest[1..], namespace, quota, fallback)
    else if Own(page[0], namespace, quota) then OwnAnswer(page[0], namespace, quota)
    else Scan(page[1..], rest, namespace, quota, Fallback(page[0], namespace, quota, fallback))
  }

  method FindOpenPR(pages: seq<Option<seq<Listed>>>, namespace: string, quota: string) returns (a: Answer)
    ensures a == Scan([], pages, namespace, quota, Nothing)
  {
    hide Own, OwnAnswer, Direction;
    var legacyID: nat, legacyDirection := 0, "";
    for i := 0 to |pages|
      invariant Scan([], pages, namespace, quota, Nothing)
             == Scan([], pages[i..], namespace, quota, Kept(legacyID, legacyDirection))
    {
      if pages[i].None? {
        return Failed;
      }
      var prs := pages[i].value;
      assert pages[i..][1..] == pages[i + 1..];
      for j := 0 to |prs|
        invariant Scan([], pages, namespace, quota, Nothing)
               == Scan(prs[j..], pages[i + 1..], namespace, quota, Kept(legacyID, legacyDirection))
      {
        var pr := prs[j];
        assert prs[j..][1..] == prs[j + 1..];
        if Own(pr, namespace, quota) {
          return OwnAnswer(pr, namespace, quota);
        }
        if pr.head.Some? && HasPrefix(pr.head.value, LegacyPrefix(namespace, quota)) {
          if legacyID == 0 {
            var direction := DirectionFromLabels(pr.labels);
            legacyID, legacyDirection := pr.number, direction;
          }
        }
      }
      assert prs[|prs|..] == [];
    }
    a := Kept(legacyID, legacyDirection);
  }

  /** No number means nothing was found so far. */
  function Kept(number: nat, direction: string): Answer
  {
    if number == 0 then Nothing else Found(number, direction)
  }

  predicate AllFetched(pages: seq<Option<seq<Listed>>>)
  {
    forall i :: 0 <= i < |pages| ==> pages[i].Some?
  }

  function Concat(pages: seq<Option<seq<Listed>>>): seq<Listed>
    requires AllFetched(pages)
  {
    if pages == [] then [] else pages[0].value + Concat(pages[1..])
  }

  /** Where the pages are cut does not matter. */
  lemma {:induction false} ScanIsSearch(page: seq<Listed>, rest: seq<Option<seq<Listed>>>, namespace: string,
                                        quota: string, fallback: Answer)
    requires AllFetched(rest)
    ensures Scan(page, rest, namespace, quota, fallback) == Search(page + Concat(rest), namespace, quota, fallback)
    decreases |rest|, |page|
  {
    hide Own, OwnAnswer, Legacy;
    if page == [] {
      assert [] + Concat(rest) == Concat(rest);
      if rest != [] { ScanIsSearch(rest[0].value, rest[1..], namespace, quota, fallback); }
    } else {
      var all := page + Concat(rest);
      assert all[0] == page[0] && all[1..] == page[1..] + Concat(rest);
      if !Own(page[0], namespace, quota) {
        ScanIsSearch(page[1..], rest, namespace, quota, Fallback(page[0], namespace, quota, fallback));
      }
    }
  }

  /** An own pull request wins over every legacy match, wherever either is listed. */
  lemma {:induction false} SearchFindsOwn(prs: seq<Listed>, namespace: string, quota: string, fallback: Answer, i: nat)
    requires i < |prs| && Own(prs[i], namespace, quota)
    requires forall j :: 0 <= j < |prs| && Own(prs[j], namespace, quota) ==> prs[j] == prs[i]
    ensures Search(prs, namespace, quota, fallback) == OwnAnswer(prs[i], namespace, quota)
  {
    hide Own, OwnAnswer, Legacy;
    if !Own(prs[0], namespace, quota) {
      var rest := prs[1..];
      assert forall j :: 0 <= j < |rest| ==> rest[j] == prs[j + 1];
      SearchFindsOwn(rest, namespace, quota, Fallback(prs[0], namespace, quota, fallback), i - 1);
    }
  }

  /** What FindOpenPR answers for a quota with one open pull request of its own: that one, with the
      direction of its branch, in whatever order and pages the list comes and whatever else it holds. */
  lemma OwnIsFound(pages: seq<Option<seq<Listed>>>, namespace: string, quota: string, direction: string, stamp: int,
                   number: nat, labels: seq<string>)
    requires AllFetched(pages)
    requires NoSlash(namespace) && NoSlash(quota) && (direction == GROW || direction == SHRINK)
    requires Listed(number, Some(BranchName(direction, namespace, quota, stamp)), labels) in Concat(pages)
    requires forall pr :: pr in Concat(pages) && Own(pr, namespace, quota) ==> pr.number == number
    requires forall x, y :: x in Concat(pages) && y in Concat(pages) && x.number == y.number ==> x == y
    ensures Scan([], pages, namespace, quota, Nothing) == Found(number, direction)
  {
    hide Concat, Scan, Search, Own, OwnAnswer, BranchName;
    var prs, pr := Concat(pages), Listed(number, Some(BranchName(direction, namespace, quota, stamp)), labels);
    ScanIsSearch([], pages, namespace, quota, Nothing);
    assert [] + prs == prs;
    OwnBranch(pr, namespace, quota, direction, stamp);
    var i :| 0 <= i < |prs| && prs[i] == pr;
    SearchFindsOwn(prs, namespace, quota, Nothing, i);
  }

  lemma OwnBranch(pr: Listed, namespace: string, quota: string, direction: string, stamp: int)
    requires NoSlash(namespace) && NoSlash(quota) && (direction == GROW || direction == SHRINK)
    requires pr.head == Some(BranchName(direction, namespace, quota, stamp))
    ensures Own(pr, namespace, quota) && OwnAnswer(pr, namespace, quota) == Found(pr.number, direction)
  {
    hide Prefix, BranchName, HasPrefix;
    BranchIsUnambiguous(direction, namespace, quota, stamp, GROW, namespace, quota);
    BranchIsUnambiguous(direction, namespace, quota, stamp, SHRINK, namespace, quota);
  }

  /* ---------- branches of the old shape ---------- */

  /** The name of a branch that was opened before directions were part of it. */
  predicate OldShape(pr: Listed, namespace: string, quota: string)
  {
    pr.head.Some? && ("resize/" + namespace) + ("-" + quota + "-") <= pr.head.value
  }

  lemma OldShapeIsLegacy(pr: Listed, namespace: string, quota: string)
    requires !Own(pr, namespace, quota) && pr.number != 0
    ensures Legacy(pr, namespace, quota) <==> OldShape(pr, namespace, quota)
  {
    assert LegacyPrefix(namespace, quota) == ("resize/" + namespace) + ("-" + quota + "-");
  }

  /** Some label names a direction, and not "grow". */
  predicate LabelledShrink(labels: seq<string>)
  {
    exists l :: l in labels && "resizer/direction:" <= l && l != "resizer/direction:grow"
  }

  lemma LabelsMean(labels: seq<string>)
    ensures Direction(labels) == if LabelledShrink(labels) then "shrink" else "grow"
  {
    forall l: string ensures SaysOtherThanGrow(l) <==> "resizer/direction:" <= l && l != "resizer/direction:grow" {
      if "resizer/direction:" <= l { assert l == "resizer/direction:" + l[|DIRECTION_LABEL|..]; }
    }
    hide SaysOtherThanGrow;
    if i :| 0 <= i < |labels| && SaysOtherThanGrow(labels[i]) { assert labels[i] in labels; }
    if l :| l in labels && SaysOtherThanGrow(l) { var i :| 0 <= i < |labels| && labels[i] == l; }
  }

  lemma {:induction false} FallbackIsKept(prs: seq<Listed>, namespace: string, quota: string, fallback: Answer)
    requires fallback != Nothing && forall i :: 0 <= i < |prs| ==> !Own(prs[i], namespace, quota)
    ensures Search(prs, namespace, quota, fallback) == fallback
  {
    hide Own, OwnAnswer, Direction, Legacy;
    if prs != [] { FallbackIsKept(prs[1..], namespace, quota, fallback); }
  }

  lemma {:induction false} SkipsOthers(prs: seq<Listed>, namespace: string, quota: string, n: nat)
    requires n <= |prs|
    requires forall i :: 0 <= i < n ==> !Own(prs[i], namespace, quota) && !Legacy(prs[i], namespace, quota)
    ensures Search(prs, namespace, quota, Nothing) == Search(prs[n..], namespace, quota, Nothing)
  {
    hide Own, OwnAnswer, Direction, Legacy;
    if n > 0 {
      SkipsOthers(prs[1..], namespace, quota, n - 1);
      assert prs[1..][n - 1..] == prs[n..];
    } else {
      assert prs[0..] == prs;
    }
  }

  /** A quota without a pull request of its own is answered with the first branch of the old shape, and with the
      direction of its labels, whatever stands before and after it. */
  lemma OldShapeIsFound(pages: seq<Option<seq<Listed>>>, namespace: string, quota: string, k: nat)
    requires AllFetched(pages) && k < |Concat(pages)|
    requires forall pr :: pr in Concat(pages) ==> !Own(pr, namespace, quota) && pr.number != 0
    requires OldShape(Concat(pages)[k], namespace, quota)
    requires forall i :: 0 <= i < k ==> !OldShape(Concat(pages)[i], namespace, quota)
    ensures var pr := Concat(pages)[k];
            Scan([], pages, namespace, quota, Nothing) ==
            Found(pr.number, if LabelledShrink(pr.labels) then "shrink" else "grow")
  {
    hide Own, OwnAnswer, Direction, Legacy, Concat, Scan, OldShape, LabelledShrink;
    var prs := Concat(pages);
    ScanIsSearch([], pages, namespace, quota, Nothing);
    assert [] + prs == prs;
    forall i | 0 <= i < |prs| ensures Legacy(prs[i], namespace, quota) <==> OldShape(prs[i], namespace, quota) {
      OldShapeIsLegacy(prs[i], namespace, quota);
    }
    SkipsOthers(prs, namespace, quota, k);
    LabelsMean(prs[k].labels);
    FallbackIsKept(prs[k..][1..], namespace, quota, Found(prs[k].number, Direction(prs[k].labels)));
  }

  /** And nothing is found when nothing of either shape is listed. */
  lemma NeitherIsNothing(pages: seq<Option<seq<Listed>>>, namespace: string, quota: string)
    requires AllFetched(pages)
    requires forall pr :: pr in Concat(pages) ==> !Own(pr, namespace, quota) && !OldShape(pr, namespace, quota)
    ensures Scan([], pages, namespace, quota, Nothing) == Nothing
  {
    hide Own, OwnAnswer, Direction, Concat, Scan;
    var prs := Concat(pages);
    ScanIsSearch([], pages, namespace, quota, Nothing);
    assert [] + prs == prs;
    forall i | 0 <= i < |prs| ensures !Legacy(prs[i], namespace, quota) {
      if prs[i].number != 0 { OldShapeIsLegacy(prs[i], namespace, quota); }
    }
    SkipsOthers(prs, namespace, quota, |prs|);
  }

  lemma ConcatAppend(a: seq<Option<seq<Listed>>>, b: seq<Option<seq<Listed>>>)
    requires AllFetched(a) && AllFetched(b)
    ensures AllFetched(a + b) && Concat(a + b) == Concat(a) + Concat(b)
  {
    if a == [] {
      assert a + b == b;
    } else {
      assert (a + b)[0] == a[0] && (a + b)[1..] == a[1..] + b;
      ConcatAppend(a[1..], b);
    }
  }

  /** A list of open pull requests with one of the quota's own, and a number for each. */
  predicate OneOwn(prs: seq<Listed>, k: nat, namespace: string, quota: string)
  {
    && k < |prs| && Own(prs[k], namespace, quota)
    && (forall i :: 0 <= i < |prs| && Own(prs[i], namespace, quota) ==> i == k)
    && (forall i, j :: 0 <= i < j < |prs| ==> prs[i].number != prs[j].number)
  }

  /* ---------- pull requests that close between two pages ---------- */

  /** What is left of a list when the marked ones have closed. */
  function Staying(prs: seq<Listed>, gone: seq<bool>): seq<Listed>
    requires |gone| == |prs|
  {
    if prs == [] then []
    else
      var front := Staying(prs[..|prs| - 1], gone[..|prs| - 1]);
      if gone[|prs| - 1] then front else front + [prs[|prs| - 1]]
  }

  /** How many of the first k are left, and so where the next one then stands. */
  function Rank(gone: seq<bool>, k: nat): nat
    requires k <= |gone|
  {
    if k == 0 then 0 else Rank(gone, k - 1) + if gone[k - 1] then 0 else 1
  }

  lemma {:induction false} RankOfFront(gone: seq<bool>, n: nat, k: nat)
    requires k <= n <= |gone|
    ensures Rank(gone[..n], k) == Rank(gone, k)
  {
    if k > 0 { RankOfFront(gone, n, k - 1); }
  }

  lemma {:induction false} StayingAt(prs: seq<Listed>, gone: seq<bool>, k: nat)
    requires |gone| == |prs| && k < |prs| && !gone[k]
    ensures Rank(gone, k) < |Staying(prs, gone)| && Staying(prs, gone)[Rank(gone, k)] == prs[k]
  {
    var n := |prs| - 1;
    RankOfFront(gone, n, k);
    StayingLength(prs[..n], gone[..n]);
    if k < n { StayingAt(prs[..n], gone[..n], k); }
  }

  lemma {:induction false} StayingLength(prs: seq<Listed>, gone: seq<bool>)
    requires |gone| == |prs|
    ensures |Staying(prs, gone)| == Rank(gone, |gone|)
  {
    if prs != [] {
      var n := |prs| - 1;
      StayingLength(prs[..n], gone[..n]);
      RankOfFront(gone, n, n);
    }
  }

  /** Every one that is left stands where its rank says. */
  lemma {:induction false} StayingFrom(prs: seq<Listed>, gone: seq<bool>, i: nat) returns (k: nat)
    requires |gone| == |prs| && i < |Staying(prs, gone)|
    ensures k < |prs| && !gone[k] && Rank(gone, k) == i && Staying(prs, gone)[i] == prs[k]
  {
    var n := |prs| - 1;
    StayingLength(prs[..n], gone[..n]);
    RankOfFront(gone, n, n);
    if i < |Staying(prs[..n], gone[..n])| {
      k := StayingFrom(prs[..n], gone[..n], i);
      RankOfFront(gone, n, k);
    } else {
      k := n;
    }
  }

  predicate Closes(a: seq<bool>, b: seq<bool>)
  {
    |a| == |b| && forall i :: 0 <= i < |a| && a[i] ==> b[i]
  }

  lemma {:induction false} RankFalls(a: seq<bool>, b: seq<bool>, k: nat)
    requires Closes(a, b) && k <= |a|
    ensures Rank(b, k) <= Rank(a, k)
  {
    if k > 0 { RankFalls(a, b, k - 1); }
  }

  /** The requests of one search: at each of them some of the list have closed, and ever more have. The cuts
      say where the pages begin and end; the last page reaches the end of the list it is cut from. */
  predicate Listing(prs: seq<Listed>, gone: seq<seq<bool>>, cuts: seq<nat>)
  {
    && gone != [] && |cuts| == |gone| + 1 && cuts[0] == 0
    && (forall p :: 0 <= p < |gone| ==> |gone[p]| == |prs| && cuts[p] <= cuts[p + 1])
    && (forall p :: 0 <= p < |gone| - 1 ==> Closes(gone[p], gone[p + 1]))
    && Rank(gone[|gone| - 1], |prs|) <= cuts[|gone|]
  }

  function Slice(prs: seq<Listed>, from: nat, to: nat): seq<Listed>
    requires from <= to
  {
    if from > |prs| then [] else if to > |prs| then prs[from..] else prs[from..to]
  }

  function Pages(prs: seq<Listed>, gone: seq<seq<bool>>, cuts: seq<nat>): (pages: seq<Option<seq<Listed>>>)
    requires Listing(prs, gone, cuts)
    ensures AllFetched(pages)
  {
    seq(|gone|, p requires 0 <= p < |gone| => Some(Slice(Staying(prs, gone[p]), cuts[p], cuts[p + 1])))
  }

  /** Between two requests a pull request moves forward over the cut, from a page that was not yet fetched
      to one that was. */
  predicate Crosses(gone: seq<seq<bool>>, cuts: seq<nat>, k: nat, p: nat)
    requires p + 1 < |gone| && |cuts| == |gone| + 1 && k <= |gone[p]| && k <= |gone[p + 1]|
  {
    Rank(gone[p + 1], k) < cuts[p + 1] <= Rank(gone[p], k)
  }

  lemma {:induction false} RanksFall(prs: seq<Listed>, gone: seq<seq<bool>>, cuts: seq<nat>, k: nat, p: nat, q: nat)
    requires Listing(prs, gone, cuts) && k <= |prs| && p <= q < |gone|
    ensures Rank(gone[q], k) <= Rank(gone[p], k) && cuts[p + 1] <= cuts[q + 1]
    decreases q
  {
    if p < q {
      RanksFall(prs, gone, cuts, k, p, q - 1);
      RankFalls(gone[q - 1], gone[q], k);
    }
  }

  lemma StillOpen(prs: seq<Listed>, gone: seq<seq<bool>>, cuts: seq<nat>, k: nat, p: nat)
    requires Listing(prs, gone, cuts) && k < |prs| && !gone[|gone| - 1][k] && p < |gone|
    ensures !gone[p][k]
    decreases |gone| - p
  {
    if p < |gone| - 1 {
      StillOpen(prs, gone, cuts, k, p + 1);
      assert Closes(gone[p], gone[p + 1]);
    }
  }

  /** The page that shows an open pull request, unless it crosses a cut. */
  lemma {:induction false} PageOf(prs: seq<Listed>, gone: seq<seq<bool>>, cuts: seq<nat>, k: nat, p: nat)
    returns (q: nat)
    requires Listing(prs, gone, cuts) && k < |prs| && !gone[|gone| - 1][k]
    requires p < |gone| && cuts[p] <= Rank(gone[p], k)
    requires forall i :: 0 <= i < |gone| - 1 ==> !Crosses(gone, cuts, k, i)
    ensures q < |gone| && cuts[q] <= Rank(gone[q], k) < cuts[q + 1]
    decreases |gone| - p
  {
    if Rank(gone[p], k) < cuts[p + 1] {
      q := p;
    } else if p + 1 < |gone| {
      assert !Crosses(gone, cuts, k, p);
      q := PageOf(prs, gone, cuts, k, p + 1);
    } else {
      StayingLength(prs, gone[p]);
      StayingAt(prs, gone[p], k);
      assert false;
    }
  }

  /** And no page shows it when it does. */
  lemma CrossedIsNowhere(prs: seq<Listed>, gone: seq<seq<bool>>, cuts: seq<nat>, k: nat, p: nat, q: nat)
    requires Listing(prs, gone, cuts) && k < |prs| && p + 1 < |gone| && q < |gone| && Crosses(gone, cuts, k, p)
    ensures !(cuts[q] <= Rank(gone[q], k) < cuts[q + 1])
  {
    if q <= p {
      RanksFall(prs, gone, cuts, k, q, p);
    } else {
      RanksFall(prs, gone, cuts, k, p + 1, q);
      CutsRise(prs, gone, cuts, p + 1, q);
    }
  }

  lemma {:induction false} CutsRise(prs: seq<Listed>, gone: seq<seq<bool>>, cuts: seq<nat>, p: nat, q: nat)
    requires Listing(prs, gone, cuts) && p <= q < |gone|
    ensures cuts[p] <= cuts[q]
    decreases q
  {
    if p < q { CutsRise(prs, gone, cuts, p, q - 1); }
  }

  lemma {:induction false} InConcat(pages: seq<Option<seq<Listed>>>, p: nat, x: Listed)
    requires AllFetched(pages) && p < |pages| && x in pages[p].value
    ensures x in Concat(pages)
  {
    if p > 0 { InConcat(pages[1..], p - 1, x); }
  }

  lemma {:induction false} ConcatFrom(pages: seq<Option<seq<Listed>>>, x: Listed) returns (p: nat)
    requires AllFetched(pages) && x in Concat(pages)
    ensures p < |pages| && x in pages[p].value
  {
    if x in pages[0].value {
      p := 0;
    } else {
      var q := ConcatFrom(pages[1..], x);
      p := q + 1;
    }
  }

  /** What a page shows, in terms of the first list. */
  lemma PageShows(prs: seq<Listed>, gone: seq<seq<bool>>, cuts: seq<nat>, p: nat, x: Listed) returns (k: nat)
    requires Listing(prs, gone, cuts) && p < |gone| && x in Pages(prs, gone, cuts)[p].value
    ensures k < |prs| && x == prs[k] && cuts[p] <= Rank(gone[p], k) < cuts[p + 1]
  {
    hide Staying, Rank;
    var i := InSlice(Staying(prs, gone[p]), cuts[p], cuts[p + 1], x);
    k := StayingFrom(prs, gone[p], i);
  }

  lemma InSlice(prs: seq<Listed>, from: nat, to: nat, x: Listed) returns (i: nat)
    requires from <= to && x in Slice(prs, from, to)
    ensures from <= i < to && i < |prs| && prs[i] == x
  {
    var page := Slice(prs, from, to);
    var j: nat :| j < |page| && page[j] == x;
    i := from + j;
  }

  /** A search that answers with a number answers with one that was listed. */
  lemma {:induction false} SearchIsListed(prs: seq<Listed>, namespace: string, quota: string, fallback: Answer)
    requires forall i :: 0 <= i < |prs| ==> !Own(prs[i], namespace, quota)
    ensures var a := Search(prs, namespace, quota, fallback);
            a == fallback || (a.Found? && exists x :: x in prs && x.number == a.number)
  {
    hide Own, OwnAnswer, Direction, Legacy;
    if prs != [] {
      var f := Fallback(prs[0], namespace, quota, fallback);
      SearchIsListed(prs[1..], namespace, quota, f);
      assert prs == [prs[0]] + prs[1..];
      assert prs[0] in prs;
    }
  }

  lemma SeenIsFound(prs: seq<Listed>, seen: seq<Listed>, k: nat, namespace: string, quota: string)
    requires OneOwn(prs, k, namespace, quota) && prs[k] in seen && forall x :: x in seen ==> x in prs
    ensures Search(seen, namespace, quota, Nothing) == OwnAnswer(prs[k], namespace, quota)
  {
    hide Own, OwnAnswer, Search;
    var i :| 0 <= i < |seen| && seen[i] == prs[k];
    forall j | 0 <= j < |seen| && Own(seen[j], namespace, quota) ensures seen[j] == seen[i] {
      assert seen[j] in prs;
    }
    SearchFindsOwn(seen, namespace, quota, Nothing, i);
  }

  lemma OwnAnswerNumber(pr: Listed, namespace: string, quota: string)
    requires Own(pr, namespace, quota)
    ensures OwnAnswer(pr, namespace, quota).Found? && OwnAnswer(pr, namespace, quota).number == pr.number
  {
  }

  lemma ShownIsFound(prs: seq<Listed>, gone: seq<seq<bool>>, cuts: seq<nat>, k: nat, q: nat, namespace: string,
                     quota: string)
    requires OneOwn(prs, k, namespace, quota) && Listing(prs, gone, cuts) && !gone[|gone| - 1][k]
    requires q < |gone| && cuts[q] <= Rank(gone[q], k) < cuts[q + 1]
    ensures Search(Concat(Pages(prs, gone, cuts)), namespace, quota, Nothing) == OwnAnswer(prs[k], namespace, quota)
  {
    hide Own, OwnAnswer, Search, Rank, Staying, OneOwn, Concat;
    var pages := Pages(prs, gone, cuts);
    assert k < |prs| by { OwnIndex(prs, k, namespace, quota); }
    StillOpen(prs, gone, cuts, k, q);
    StayingAt(prs, gone[q], k);
    var page := pages[q].value;
    assert page[Rank(gone[q], k) - cuts[q]] == prs[k];
    InConcat(pages, q, prs[k]);
    forall x | x in Concat(pages) ensures x in prs {
      var p := ConcatFrom(pages, x);
      var i := PageShows(prs, gone, cuts, p, x);
    }
    SeenIsFound(prs, Concat(pages), k, namespace, quota);
  }

  lemma OwnIndex(prs: seq<Listed>, k: nat, namespace: string, quota: string)
    requires OneOwn(prs, k, namespace, quota)
    ensures k < |prs|
  {
  }

  lemma CrossedIsMissed(prs: seq<Listed>, gone: seq<seq<bool>>, cuts: seq<nat>, k: nat, p: nat, namespace: string,
                        quota: string)
    requires OneOwn(prs, k, namespace, quota) && Listing(prs, gone, cuts)
    requires p + 1 < |gone| && Crosses(gone, cuts, k, p)
    ensures Search(Concat(Pages(prs, gone, cuts)), namespace, quota, Nothing) != OwnAnswer(prs[k], namespace, quota)
  {
    hide Own, OwnAnswer, Search, Rank, Staying, Concat, Crosses;
    var seen := Concat(Pages(prs, gone, cuts));
    forall x | x in seen ensures !Own(x, namespace, quota) && x.number != prs[k].number {
      var q := ConcatFrom(Pages(prs, gone, cuts), x);
      var i := PageShows(prs, gone, cuts, q, x);
      CrossedIsNowhere(prs, gone, cuts, k, p, q);
    }
    OwnAnswerNumber(prs[k], namespace, quota);
    SearchIsListed(seen, namespace, quota, Nothing);
  }

  /** A pull request of the quota that stays open while others close between the requests of a search is
      found exactly unless it crosses a cut: unless between two requests so many before it close that it
      moves from a page that was not yet fetched to one that was. */
  lemma FoundUnlessItCrosses(prs: seq<Listed>, gone: seq<seq<bool>>, cuts: seq<nat>, k: nat, namespace: string,
                             quota: string)
    requires OneOwn(prs, k, namespace, quota) && Listing(prs, gone, cuts) && !gone[|gone| - 1][k]
    ensures Scan([], Pages(prs, gone, cuts), namespace, quota, Nothing) == OwnAnswer(prs[k], namespace, quota) <==>
            forall p :: 0 <= p < |gone| - 1 ==> !Crosses(gone, cuts, k, p)
  {
    hide Own, OwnAnswer, Search, Scan, Rank, Staying, OneOwn, Concat, Crosses, Pages;
    var pages := Pages(prs, gone, cuts);
    ScanIsSearch([], pages, namespace, quota, Nothing);
    assert [] + Concat(pages) == Concat(pages);
    OwnIndex(prs, k, namespace, quota);
    if p: nat :| p < |gone| - 1 && Crosses(gone, cuts, k, p) {
      CrossedIsMissed(prs, gone, cuts, k, p, namespace, quota);
    } else {
      var q := PageOf(prs, gone, cuts, k, 0);
      ShownIsFound(prs, gone, cuts, k, q, namespace, quota);
    }
  }

  function OnlyGone(n: nat, closed: nat): (gone: seq<bool>)
    ensures |gone| == n
  {
    seq(n, i => i == closed)
  }

  function Without(prs: seq<Listed>, closed: nat): seq<Listed>
    requires closed < |prs|
  {
    prs[..closed] + prs[closed + 1..]
  }

  lemma {:induction false} RankOfOne(n: nat, closed: nat, k: nat)
    requires k <= n
    ensures Rank(OnlyGone(n, closed), k) == if closed < k then k - 1 else k
  {
    if k > 0 { RankOfOne(n, closed, k - 1); }
  }

  lemma WithoutLast(prs: seq<Listed>, closed: nat)
    requires closed < |prs|
    ensures var n := |prs| - 1;
            Without(prs, closed) == if closed < n then Without(prs[..n], closed) + [prs[n]] else prs[..n]
  {
  }

  lemma {:induction false} StayingOne(prs: seq<Listed>, closed: nat)
    ensures Staying(prs, OnlyGone(|prs|, closed)) == if closed < |prs| then Without(prs, closed) else prs
  {
    hide Without;
    if prs != [] {
      var n := |prs| - 1;
      assert OnlyGone(|prs|, closed)[..n] == OnlyGone(n, closed);
      StayingOne(prs[..n], closed);
      assert prs == prs[..n] + [prs[n]];
      if closed <= n { WithoutLast(prs, closed); }
    }
  }

  lemma ConcatTwo(a: seq<Listed>, b: seq<Listed>)
    ensures Concat([Some(a), Some(b)]) == a + b
  {
    var pages: seq<Option<seq<Listed>>> := [Some(a), Some(b)];
    var rest := pages[1..];
    assert rest == [Some(b)] && rest[1..] == [];
    assert Concat(rest) == b + Concat(rest[1..]) == b;
  }

  /** So when one other pull request closes between two pages, the own one is found exactly unless it was the
      first of the next page and the other one stood before it. Where the pages before and after are cut
      does not matter. */
  lemma FoundUnlessAtTheCut(prs: seq<Listed>, cut: nat, closed: nat, k: nat, namespace: string, quota: string,
                            before: seq<Option<seq<Listed>>>, after: seq<Option<seq<Listed>>>)
    requires OneOwn(prs, k, namespace, quota) && cut < |prs| && closed < |prs| && k != closed
    requires AllFetched(before) && Concat(before) == prs[..cut]
    requires AllFetched(after) && Concat(after) == Without(prs, closed)[cut..]
    ensures Scan([], before + after, namespace, quota, Nothing) == OwnAnswer(prs[k], namespace, quota) <==>
            !(k == cut && closed < cut)
  {
    hide Own, OwnAnswer, Scan, Search, Rank, Staying, OneOwn, Concat;
    var n := |prs|;
    var gone, cuts: seq<nat> := [OnlyGone(n, n), OnlyGone(n, closed)], [0, cut, n];
    OwnIndex(prs, k, namespace, quota);
    RankOfOne(n, n, k);
    RankOfOne(n, closed, k);
    RankOfOne(n, closed, n);
    StayingOne(prs, n);
    StayingOne(prs, closed);
    assert Listing(prs, gone, cuts);
    var pages := Pages(prs, gone, cuts);
    assert pages == [Some(prs[..cut]), Some(Without(prs, closed)[cut..])];
    ConcatTwo(prs[..cut], Without(prs, closed)[cut..]);
    ConcatAppend(before, after);
    ScanIsSearch([], before + after, namespace, quota, Nothing);
    ScanIsSearch([], pages, namespace, quota, Nothing);
    FoundUnlessItCrosses(prs, gone, cuts, k, namespace, quota);
    assert Crosses(gone, cuts, k, 0) <==> k == cut && closed < cut;
  }

  /** A list that fits one page is one list: whatever closes meanwhile, the own pull request is found. */
  lemma OnePageNeverMisses(prs: seq<Listed>, k: nat, namespace: string, quota: string)
    requires OneOwn(prs, k, namespace, quota)
    ensures Scan([], [Some(prs)], namespace, quota, Nothing) == OwnAnswer(prs[k], namespace, quota)
  {
    hide Own, OwnAnswer, Scan, Search;
    var pages: seq<Option<seq<Listed>>> := [Some(prs)];
    ScanIsSearch([], pages, namespace, quota, Nothing);
    assert pages[1..] == [] && Concat(pages) == prs + Concat(pages[1..]) && [] + Concat(pages) == prs;
    SearchFindsOwn(prs, namespace, quota, Nothing, k);
  }
}
