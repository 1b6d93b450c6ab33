/** How the controller's state is kept on a Lease (internal/lock/state.go). */
module LeaseCodec {
  import opened Options
  import opened Strings

  /** An annotation: a stamp as the controller formats it, another spelling of an instant (an offset, a
      fraction of a second), or any other text. How RFC 3339 (section 5.6) is printed and parsed is not
      part of this model. */
  datatype Text = Written(at: int) | Respelled(spelling: string, meant: int) | Plain(text: string)

  const EMPTY_TEXT := Plain("")

  /** A stamp is None when it is the zero time, a text is EMPTY_TEXT when it is missing. */
  datatype State = State(
    prid: int,
    direction: Text,
    lastModified: Option<int>,
    lastGrow: Option<int>,
    lastShrink: Option<int>,
    window: Text)

  datatype LeaseObject = LeaseObject(annotations: map<string, Text>, holder: Option<string>)

  const LAST_MODIFIED := "resizer.io/last-modified"
  const LAST_GROW := "resizer.io/last-grow"
  const LAST_SHRINK := "resizer.io/last-shrink"
  const PR_DIRECTION := "resizer.io/pr-direction"
  const WINDOW := "resizer.io/observation-window"
  const OWN := {LAST_MODIFIED, LAST_GROW, LAST_SHRINK, PR_DIRECTION, WINDOW}

  /** The range of a Go int. */
  predicate FitsInt(n: int)
  {
    -9_223_372_036_854_775_808 <= n <= 9_223_372_036_854_775_807
  }

  /* ---------- the holder, "pr-%d" ---------- */

  predicate IsDigit(c: char)
  {
    '0' <= c <= '9'
  }

  /** The longest prefix of digits. */
  function Digits(s: string): string
  {
    if s == [] || !IsDigit(s[0]) then [] else [s[0]] + Digits(s[1..])
  }

  function Value(digits: string): int
  {
    if digits == [] then 0
    else 10 * Value(digits[..|digits| - 1]) + (digits[|digits| - 1] as int - '0' as int)
  }

  function SkipBlanks(s: string): string
  {
    if s != [] && s[0] == ' ' then SkipBlanks(s[1..]) else s
  }

  function ScanDigits(s: string, negative: bool): Option<int>
  {
    var d := Digits(s);
    if d == [] then None
    else
      var n := if negative then -Value(d) else Value(d);
      if FitsInt(n) then Some(n) else None
  }

  /** Sscanf with "pr-%d": blanks, a sign and digits; anything may follow. */
  function ParseHolder(s: string): Option<int>
  {
    if !HasPrefix(s, "pr-") then None
    else
      var rest := SkipBlanks(s[3..]);
      if rest != [] && rest[0] in {'+', '-'} then ScanDigits(rest[1..], rest[0] == '-')
      else ScanDigits(rest, false)
  }

  function FormatHolder(prid: int): string
  {
    "pr-" + Decimal(prid)
  }

  lemma {:induction false} DigitsOfDigits(s: string)
    requires forall i :: 0 <= i < |s| ==> IsDigit(s[i])
    ensures Digits(s) == s
  {
    if s != [] {
      DigitsOfDigits(s[1..]);
      assert s == [s[0]] + s[1..];
    }
  }

  lemma {:induction false} DecimalDigits(n: nat)
    ensures Decimal(n) != [] && forall i :: 0 <= i < |Decimal(n)| ==> IsDigit(Decimal(n)[i])
    ensures Value(Decimal(n)) == n
    decreases n
  {
    if n < 10 {
      assert Decimal(n) == [(n as char) + '0'];
      assert Decimal(n)[..0] == [];
    } else {
      DecimalDigits(n / 10);
      var front, last := Decimal(n / 10), ((n % 10) as char) + '0';
      assert Decimal(n) == front + [last];
      assert Decimal(n)[..|front|] == front;
    }
  }

  lemma ScansBack(size: int, negative: bool)
    requires size >= 0 && FitsInt(if negative then -size else size)
    ensures ScanDigits(Decimal(size), negative) == Some(if negative then -size else size)
    ensures Decimal(size) != [] && IsDigit(Decimal(size)[0])
  {
    DecimalDigits(size);
    DigitsOfDigits(Decimal(size));
    hide Decimal, Digits, Value;
  }

  lemma DecimalOfNegative(n: int)
    requires n < 0
    ensures Decimal(n) == "-" + Decimal(-n) && Decimal(n)[0] == '-' && Decimal(n)[1..] == Decimal(-n)
  {
  }

  lemma HolderPrefix(prid: int)
    ensures HasPrefix(FormatHolder(prid), "pr-") && FormatHolder(prid)[3..] == Decimal(prid)
  {
  }

  /** A holder that was written is read back as the same pull request. */
  lemma HolderRoundTrip(prid: int)
    requires FitsInt(prid)
    ensures ParseHolder(FormatHolder(prid)) == Some(prid)
  {
    hide Decimal, ScanDigits, FormatHolder, HasPrefix;
    HolderPrefix(prid);
    if prid < 0 {
      DecimalOfNegative(prid);
      ScansBack(-prid, true);
    } else {
      ScansBack(prid, false);
    }
  }

  /* ---------- the annotations ---------- */

  function Read(annotations: map<string, Text>, key: string): Text
  {
    if key in annotations then annotations[key] else EMPTY_TEXT
  }

  function ParseStamp(t: Text): Option<int>
  {
    match t
    case Written(at) => Some(at)
    case Respelled(_, at) => Some(at)
    case Plain(_) => None
  }

  function SetStamp(annotations: map<string, Text>, key: string, value: Option<int>): map<string, Text>
  {
    if value.None? then annotations - {key} else annotations[key := Written(value.value)]
  }

  function SetText(annotations: map<string, Text>, key: string, value: Text): map<string, Text>
  {
    if value == EMPTY_TEXT then annotations - {key} else annotations[key := value]
  }

  function StateFrom(l: LeaseObject): State
  {
    var id := if l.holder.Some? then ParseHolder(l.holder.value) else None;
    State(
      if id.Some? then id.value else 0,
      Read(l.annotations, PR_DIRECTION),
      ParseStamp(Read(l.annotations, LAST_MODIFIED)),
      ParseStamp(Read(l.annotations, LAST_GROW)),
      ParseStamp(Read(l.annotations, LAST_SHRINK)),
      Read(l.annotations, WINDOW))
  }

  function Applied(st: State, l: LeaseObject): LeaseObject
  {
    var a := SetStamp(l.annotations, LAST_MODIFIED, st.lastModified);
    var b := SetStamp(a, LAST_GROW, st.lastGrow);
    var c := SetStamp(b, LAST_SHRINK, st.lastShrink);
    var d := SetText(c, PR_DIRECTION, st.direction);
    LeaseObject(SetText(d, WINDOW, st.window), if st.prid == 0 then None else Some(FormatHolder(st.prid)))
  }

  /** What Applied leaves under each key. */
  function Entry(st: State, key: string): Option<Text>
    requires key in OWN
  {
    var stamp := if key == LAST_MODIFIED then st.lastModified
                 else if key == LAST_GROW then st.lastGrow else st.lastShrink;
    var text := if key == PR_DIRECTION then st.direction else st.window;
    if key == PR_DIRECTION || key == WINDOW then (if text == EMPTY_TEXT then None else Some(text))
    else if stamp.None? then None else Some(Written(stamp.value))
  }

  lemma AppliedAt(st: State, l: LeaseObject, key: string)
    ensures var a := Applied(st, l).annotations;
            if key in OWN then
              (key in a <==> Entry(st, key).Some?) && (key in a ==> a[key] == Entry(st, key).value)
            else (key in a <==> key in l.annotations) && (key in a ==> a[key] == l.annotations[key])
  {
    assert LAST_MODIFIED[11] == 'l' && LAST_GROW[11] == 'l' && LAST_SHRINK[11] == 'l' && PR_DIRECTION[11] == 'p';
    assert LAST_MODIFIED[16] == 'm' && LAST_GROW[16] == 'g' && LAST_SHRINK[16] == 's' && WINDOW[11] == 'o';
  }

  /** A stamp under its name, or nothing. */
  predicate Stamped(annotations: map<string, Text>, key: string, stamp: Option<int>)
  {
    (key in annotations <==> stamp.Some?) && (key in annotations ==> annotations[key] == Written(stamp.value))
  }

  predicate Texted(annotations: map<string, Text>, key: string, text: Text)
  {
    (key in annotations <==> text != Plain("")) && (key in annotations ==> annotations[key] == text)
  }

  /** The names under which the state stands on a Lease, and the holder. */
  lemma WrittenAs(st: State, l: LeaseObject)
    ensures var a := Applied(st, l).annotations;
            && Stamped(a, "resizer.io/last-modified", st.lastModified)
            && Stamped(a, "resizer.io/last-grow", st.lastGrow)
            && Stamped(a, "resizer.io/last-shrink", st.lastShrink)
            && Texted(a, "resizer.io/pr-direction", st.direction)
            && Texted(a, "resizer.io/observation-window", st.window)
    ensures Applied(st, l).holder == if st.prid == 0 then None else Some("pr-" + Decimal(st.prid))
  {
    hide Applied, Decimal;
    AppliedAt(st, l, LAST_MODIFIED);
    AppliedAt(st, l, LAST_GROW);
    AppliedAt(st, l, LAST_SHRINK);
    AppliedAt(st, l, PR_DIRECTION);
    AppliedAt(st, l, WINDOW);
    SameHolder(st, l, l);
  }

  /** What is put is read back. */
  lemma PutGet(st: State, l: LeaseObject)
    requires FitsInt(st.prid)
    ensures StateFrom(Applied(st, l)) == st
  {
    HolderRoundTrip(st.prid);
    AppliedAt(st, l, LAST_MODIFIED);
    AppliedAt(st, l, LAST_GROW);
    AppliedAt(st, l, LAST_SHRINK);
    AppliedAt(st, l, PR_DIRECTION);
    AppliedAt(st, l, WINDOW);
  }

  /** The last put wins, whatever was put before. */
  lemma PutPut(a: State, b: State, l: LeaseObject)
    ensures Applied(b, Applied(a, l)) == Applied(b, l)
  {
    hide Applied, Entry;
    var twice, once := Applied(b, Applied(a, l)), Applied(b, l);
    forall key ensures key in twice.annotations <==> key in once.annotations
      ensures key in once.annotations ==> twice.annotations[key] == once.annotations[key]
    {
      AppliedAt(b, Applied(a, l), key);
      AppliedAt(b, l, key);
      AppliedAt(a, l, key);
    }
    SameHolder(b, Applied(a, l), l);
    assert twice.annotations == once.annotations;
  }

  lemma SameHolder(st: State, a: LeaseObject, b: LeaseObject)
    ensures Applied(st, a).holder == Applied(st, b).holder == if st.prid == 0 then None else Some(FormatHolder(st.prid))
  {
  }

  /** A Lease as this controller writes it. */
  predicate Canonical(l: LeaseObject)
  {
    && (forall key :: key in {LAST_MODIFIED, LAST_GROW, LAST_SHRINK} && key in l.annotations ==>
          l.annotations[key].Written?)
    && (forall key :: key in {PR_DIRECTION, WINDOW} && key in l.annotations ==> l.annotations[key] != EMPTY_TEXT)
    && (l.holder.Some? ==>
          var id := ParseHolder(l.holder.value);
          id.Some? && id.value != 0 && l.holder.value == FormatHolder(id.value))
  }

  /** Reading and writing back changes nothing exactly when the Lease is canonical. */
  lemma GetPutIff(l: LeaseObject)
    ensures Applied(StateFrom(l), l) == l <==> Canonical(l)
  {
    hide Applied, StateFrom, Read, Kept, SameAt, ParseHolder, FormatHolder, HolderKept;
    var a := Applied(StateFrom(l), l);
    forall key ensures SameAt(a, l, key) <==> key !in OWN || Kept(l, key) {
      SameEntry(l, key);
    }
    HolderIff(l);
    SameEverywhere(a, l);
    CanonicalMeans(l);
  }

  /** The same annotation on both sides, or none on either. */
  predicate SameAt(a: LeaseObject, b: LeaseObject, key: string)
  {
    && (key in a.annotations <==> key in b.annotations)
    && (key in a.annotations && key in b.annotations ==> a.annotations[key] == b.annotations[key])
  }

  predicate HolderKept(l: LeaseObject)
  {
    l.holder.Some? ==>
      var id := ParseHolder(l.holder.value);
      id.Some? && id.value != 0 && l.holder.value == FormatHolder(id.value)
  }

  lemma SameEntry(l: LeaseObject, key: string)
    ensures SameAt(Applied(StateFrom(l), l), l, key) <==> key !in OWN || Kept(l, key)
  {
    hide Applied;
    AppliedAt(StateFrom(l), l, key);
  }

  lemma HolderIff(l: LeaseObject)
    ensures Applied(StateFrom(l), l).holder == l.holder <==> HolderKept(l)
  {
    hide Applied, ParseHolder, FormatHolder;
    SameHolder(StateFrom(l), l, l);
  }

  lemma SameEverywhere(a: LeaseObject, b: LeaseObject)
    ensures a == b <==> a.holder == b.holder && forall key :: SameAt(a, b, key)
  {
    if a.holder == b.holder && forall key :: SameAt(a, b, key) {
      forall key ensures key in a.annotations <==> key in b.annotations
        ensures key in a.annotations ==> a.annotations[key] == b.annotations[key]
      {
        assert SameAt(a, b, key);
      }
      assert a.annotations == b.annotations;
    }
  }

  lemma CanonicalMeans(l: LeaseObject)
    ensures Canonical(l) <==> HolderKept(l) && forall key :: key in OWN ==> Kept(l, key)
  {
    hide ParseHolder, FormatHolder;
  }

  predicate Kept(l: LeaseObject, key: string)
  {
    key in l.annotations ==>
      if key == PR_DIRECTION || key == WINDOW then l.annotations[key] != EMPTY_TEXT else l.annotations[key].Written?
  }
}
