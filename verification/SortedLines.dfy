/** Sorted lists of lines, as sort.Strings leaves them, and why map order does not show in them. */
module SortedLines {

  /** Lexicographic order on strings. */
  predicate Le(a: string, b: string)
  {
    a == [] || (b != [] && (a[0] < b[0] || (a[0] == b[0] && Le(a[1..], b[1..]))))
  }

  lemma LeTotal(a: string, b: string)
    ensures Le(a, b) || Le(b, a)
  {
    if a != [] && b != [] && a[0] == b[0] {
      LeTotal(a[1..], b[1..]);
    }
  }

  lemma LeAntisymmetric(a: string, b: string)
    requires Le(a, b) && Le(b, a)
    ensures a == b
  {
    if a != [] && b != [] {
      LeAntisymmetric(a[1..], b[1..]);
      assert a == [a[0]] + a[1..] && b == [b[0]] + b[1..];
    }
  }

  lemma LeTransitive(a: string, b: string, c: string)
    requires Le(a, b) && Le(b, c)
    ensures Le(a, c)
  {
    if a != [] && a[0] == b[0] == c[0] {
      LeTransitive(a[1..], b[1..], c[1..]);
    }
  }

  predicate Sorted(lines: seq<string>)
  {
    forall i, j :: 0 <= i < j < |lines| ==> Le(lines[i], lines[j])
  }

  function Insert(line: string, lines: seq<string>): seq<string>
  {
    if lines == [] || Le(line, lines[0]) then [line] + lines else [lines[0]] + Insert(line, lines[1..])
  }

  function Sort(lines: seq<string>): seq<string>
  {
    if lines == [] then [] else Insert(lines[0], Sort(lines[1..]))
  }

  lemma {:induction false} InsertKeeps(line: string, lines: seq<string>)
    requires Sorted(lines)
    ensures Sorted(Insert(line, lines))
    ensures multiset(Insert(line, lines)) == multiset(lines) + multiset{line}
  {
    hide Le;
    if lines == [] {
    } else if Le(line, lines[0]) {
      forall j | 0 <= j < |lines| ensures Le(line, lines[j]) {
        if j > 0 { LeTransitive(line, lines[0], lines[j]); }
      }
    } else {
      var rest := lines[1..];
      InsertKeeps(line, rest);
      assert lines == [lines[0]] + rest;
      LeTotal(line, lines[0]);
      forall x | x in Insert(line, rest) ensures Le(lines[0], x) {
        assert x in multiset(Insert(line, rest));
        if x != line {
          assert x in multiset(rest) && x in rest;
        }
      }
    }
  }

  lemma {:induction false} SortKeeps(lines: seq<string>)
    ensures Sorted(Sort(lines)) && multiset(Sort(lines)) == multiset(lines)
  {
    if lines != [] {
      SortKeeps(lines[1..]);
      InsertKeeps(lines[0], Sort(lines[1..]));
      assert lines == [lines[0]] + lines[1..];
    }
  }

  /** A sorted list is determined by what it contains. */
  lemma {:induction false} SortedUnique(a: seq<string>, b: seq<string>)
    requires Sorted(a) && Sorted(b) && multiset(a) == multiset(b)
    ensures a == b
  {
    if a == [] {
      assert |multiset(b)| == 0;
    } else {
      assert a[0] in multiset(b) && |multiset(a)| == |multiset(b)|;
      assert b[0] in multiset(a);
      if a[0] != b[0] {
        LeAntisymmetric(a[0], b[0]);
      }
      assert a == [a[0]] + a[1..] && b == [b[0]] + b[1..];
      assert multiset(a[1..]) == multiset(a) - multiset{a[0]};
      assert multiset(b[1..]) == multiset(b) - multiset{b[0]};
      SortedUnique(a[1..], b[1..]);
    }
  }

  ghost function Pick(keys: set<string>): string
    requires keys != {}
    ensures Pick(keys) in keys
  {
    var k :| k in keys;
    k
  }

  /** The lines of a set of keys, each as often as it occurs. */
  ghost function LinesOf(keys: set<string>, line: string -> string): multiset<string>
  {
    if keys == {} then multiset{}
    else multiset{line(Pick(keys))} + LinesOf(keys - {Pick(keys)}, line)
  }

  lemma {:induction false} LinesOfWithout(keys: set<string>, line: string -> string, k: string)
    requires k in keys
    ensures LinesOf(keys, line) == multiset{line(k)} + LinesOf(keys - {k}, line)
  {
    var p := Pick(keys);
    if p != k {
      LinesOfWithout(keys - {p}, line, k);
      LinesOfWithout(keys - {k}, line, p);
      assert (keys - {p}) - {k} == (keys - {k}) - {p};
    }
  }

  lemma LinesOfInsert(keys: set<string>, line: string -> string, k: string)
    requires k !in keys
    ensures LinesOf(keys + {k}, line) == LinesOf(keys, line) + multiset{line(k)}
  {
    LinesOfWithout(keys + {k}, line, k);
    assert keys + {k} - {k} == keys;
  }
}
