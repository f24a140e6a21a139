/** The ordering the pipeline imposes on sequence identifiers and input paths:
    Python's `sorted(items, key=lambda x: x.lower())`. Strings compare code
    point by code point; a proper prefix sorts first. */
module Ordering {
  import opened Sequences

  /** `str.lower()` on one character, for the ASCII letters. */
  function LowerChar(c: char): char {
    if 'A' <= c <= 'Z' then (c as int + 32) as char else c
  }

  function Lower(s: string): string {
    seq(|s|, i requires 0 <= i < |s| => LowerChar(s[i]))
  }

  /** Python's `a <= b` on strings. */
  predicate LexLe(a: string, b: string)
    decreases |a|
  {
    |a| == 0 || (|b| > 0 && (a[0] < b[0] || (a[0] == b[0] && LexLe(a[1..], b[1..]))))
  }

  lemma {:induction false} LexLeReflexive(a: string)
    ensures LexLe(a, a)
    decreases |a|
  {
    if |a| > 0 {
      LexLeReflexive(a[1..]);
    }
  }

  /** Any two strings are comparable. */
  lemma {:induction false} LexLeTotal(a: string, b: string)
    ensures LexLe(a, b) || LexLe(b, a)
    decreases |a|
  {
    if |a| > 0 && |b| > 0 && a[0] == b[0] {
      LexLeTotal(a[1..], b[1..]);
    }
  }

  lemma {:induction false} LexLeTransitive(a: string, b: string, c: string)
    requires LexLe(a, b) && LexLe(b, c)
    ensures LexLe(a, c)
    decreases |a|
  {
    if |a| > 0 && a[0] == b[0] && b[0] == c[0] {
      LexLeTransitive(a[1..], b[1..], c[1..]);
    }
  }

  lemma {:induction false} LexLeAntisymmetric(a: string, b: string)
    requires LexLe(a, b) && LexLe(b, a)
    ensures a == b
    decreases |a|
  {
    if |a| > 0 {
      LexLeAntisymmetric(a[1..], b[1..]);
      assert a == [a[0]] + a[1..] && b == [b[0]] + b[1..];
    }
  }

  /** The sort key comparison `x.lower() <= y.lower()`. */
  predicate KeyLe(x: string, y: string) {
    LexLe(Lower(x), Lower(y))
  }

  /** Each identifier's key is no greater than the next one's. */
  predicate SortedByLower(s: seq<string>) {
    forall i :: 0 < i < |s| ==> KeyLe(s[i - 1], s[i])
  }

  /** Insertion of `x` into a sorted list, after every entry whose key is not
      greater than x's (so equal keys keep their arrival order). */
  function Insert(r: seq<string>, x: string): (q: seq<string>)
    requires SortedByLower(r)
    ensures multiset(q) == multiset(r) + multiset{x}
    ensures SortedByLower(q)
    ensures q[0] == x || (|r| > 0 && q[0] == r[0])
    decreases |r|
  {
    if r == [] then [x]
    else if KeyLe(x, r[0]) && Lower(x) != Lower(r[0]) then [x] + r
    else
      LexLeTotal(Lower(x), Lower(r[0]));
      LexLeReflexive(Lower(x));
      assert KeyLe(r[0], x);
      var q' := Insert(r[1..], x);
      assert r == [r[0]] + r[1..];
      [r[0]] + q'
  }

  /** Python's `sorted(xs, key=lambda x: x.lower())`: the same entries,
      ordered by their lower-cased text. */
  function SortByLower(xs: seq<string>): (r: seq<string>)
    ensures multiset(r) == multiset(xs)
    ensures SortedByLower(r)
    decreases |xs|
  {
    if xs == [] then []
    else
      assert xs == xs[..|xs| - 1] + [xs[|xs| - 1]];
      Insert(SortByLower(xs[..|xs| - 1]), xs[|xs| - 1])
  }

  /** Sorting keeps the members, and keeps a list free of repetitions. */
  lemma SortKeepsMembers(xs: seq<string>)
    ensures Elements(SortByLower(xs)) == Elements(xs)
    ensures |SortByLower(xs)| == |xs|
    ensures NoDuplicates(xs) ==> NoDuplicates(SortByLower(xs))
  {
    var r := SortByLower(xs);
    assert |multiset(r)| == |multiset(xs)|;
    assert forall x :: x in r <==> x in multiset(r);
    assert forall x :: x in xs <==> x in multiset(xs);
    ElementsCardinality(xs);
    ElementsCardinality(r);
  }

  /** Adjacent order gives order between any two positions. */
  lemma {:induction false} SortedPairwise(s: seq<string>, i: int, j: int)
    requires SortedByLower(s) && 0 <= i <= j < |s|
    ensures KeyLe(s[i], s[j])
    decreases j - i
  {
    if i == j {
      LexLeReflexive(Lower(s[i]));
    } else {
      SortedPairwise(s, i, j - 1);
      LexLeTransitive(Lower(s[i]), Lower(s[j - 1]), Lower(s[j]));
    }
  }

  /** `sorted(list(ids), key=lambda x: x.lower())` for a set of identifiers.
      The listing order of a set is unspecified, so only identifiers whose
      lower-cased forms coincide may come out in either order. */
  method SortedList(ids: set<string>) returns (r: seq<string>)
    ensures Elements(r) == ids && NoDuplicates(r) && SortedByLower(r)
  {
    var listed := Enumerate(ids);
    r := SortByLower(listed);
    SortKeepsMembers(listed);
  }
}
