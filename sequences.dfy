/** Facts about sequences used throughout the model: distinctness, the set
    of elements, sums and concatenation. */
module Sequences {

  /** No element occurs twice. */
  predicate NoDuplicates<T(==)>(s: seq<T>) {
    forall i, j :: 0 <= i < j < |s| ==> s[i] != s[j]
  }

  /** The set of elements of a sequence (Python's `set(list)`). */
  function Elements<T>(s: seq<T>): set<T> {
    set x | x in s
  }

  /** A list has at most as many distinct elements as entries, and exactly as
      many when no element repeats. */
  lemma {:induction false} ElementsCardinality<T>(s: seq<T>)
    ensures |Elements(s)| <= |s|
    ensures |Elements(s)| == |s| <==> NoDuplicates(s)
  {
    if s != [] {
      var t, x := s[..|s| - 1], s[|s| - 1];
      assert s == t + [x];
      ElementsCardinality(t);
      assert Elements(s) == Elements(t) + {x};
      if x in t {
        var k :| 0 <= k < |t| && t[k] == x;
        assert s[k] == s[|s| - 1];
        assert Elements(s) == Elements(t);
      } else {
        assert |Elements(s)| == |Elements(t)| + 1;
        if NoDuplicates(t) {
          forall i, j | 0 <= i < j < |s| ensures s[i] != s[j] {
            if j < |s| - 1 {
              assert s[i] == t[i] && s[j] == t[j];
            } else {
              assert s[i] == t[i];
            }
          }
        }
        if NoDuplicates(s) {
          forall i, j | 0 <= i < j < |t| ensures t[i] != t[j] {
            assert s[i] == t[i] && s[j] == t[j];
          }
        }
      }
    }
  }

  /** Each element once, in the order of its first occurrence: the key order
      of a Python dictionary filled from `s`. */
  function FirstOccurrences<T(==)>(s: seq<T>): (r: seq<T>)
    ensures NoDuplicates(r) && Elements(r) == Elements(s)
    ensures NoDuplicates(s) ==> r == s
  {
    if s == [] then []
    else
      var init, x := s[..|s| - 1], s[|s| - 1];
      var r := FirstOccurrences(init);
      assert s == init + [x];
      assert NoDuplicates(s) ==> NoDuplicates(init) && x !in init by {
        if NoDuplicates(s) {
          forall i, j | 0 <= i < j < |init| ensures init[i] != init[j] {
            assert init[i] == s[i] && init[j] == s[j];
          }
        }
      }
      if x in r then r
      else
        assert Elements(r + [x]) == Elements(r) + {x};
        r + [x]
  }

  /** Two lists without repeats and with the same elements are permutations
      of each other. */
  lemma DistinctPermutation<T>(s: seq<T>, t: seq<T>)
    requires NoDuplicates(s) && NoDuplicates(t) && Elements(s) == Elements(t)
    ensures multiset(s) == multiset(t)
  {
    NoDuplicatesCounts(s);
    NoDuplicatesCounts(t);
    forall x ensures multiset(s)[x] == multiset(t)[x] {
      assert x in s <==> x in Elements(s);
      assert x in t <==> x in Elements(t);
    }
  }

  /** Permutations have the same elements. */
  lemma PermutationElements<T>(s: seq<T>, t: seq<T>)
    requires multiset(s) == multiset(t)
    ensures Elements(s) == Elements(t)
  {
    forall x ensures x in s <==> x in t {
      assert x in s <==> x in multiset(s);
      assert x in t <==> x in multiset(t);
    }
  }

  /** `[f(x) for x in s]`. */
  function Map<A, B>(f: A -> B, s: seq<A>): (r: seq<B>)
    ensures |r| == |s|
  {
    if s == [] then [] else [f(s[0])] + Map(f, s[1..])
  }

  lemma {:induction false} MapAt<A, B>(f: A -> B, s: seq<A>)
    ensures forall i :: 0 <= i < |s| ==> Map(f, s)[i] == f(s[i])
  {
    if s != [] {
      MapAt(f, s[1..]);
      forall i | 0 <= i < |s| ensures Map(f, s)[i] == f(s[i]) {
        if i > 0 {
          assert Map(f, s)[i] == Map(f, s[1..])[i - 1];
        }
      }
    }
  }

  lemma {:induction false} MapConcat<A, B>(f: A -> B, a: seq<A>, b: seq<A>)
    ensures Map(f, a + b) == Map(f, a) + Map(f, b)
  {
    if a != [] {
      assert (a + b)[1..] == a[1..] + b;
      MapConcat(f, a[1..], b);
    } else {
      assert a + b == b;
    }
  }

  /** Taking one entry out of a list takes it out of the list's multiset. */
  lemma RemoveAt<T>(t: seq<T>, j: int)
    requires 0 <= j < |t|
    ensures multiset(t) == multiset(t[..j] + t[j + 1..]) + multiset{t[j]}
    ensures multiset(t[..j] + t[j + 1..]) == multiset(t) - multiset{t[j]}
  {
    assert t == t[..j] + [t[j]] + t[j + 1..];
  }

  /** The same entry taken out of two permutations leaves two permutations. */
  lemma PermutationRemove<T>(s: seq<T>, t: seq<T>, j: int)
    requires multiset(s) == multiset(t) && s != [] && 0 <= j < |t| && t[j] == s[0]
    ensures multiset(s[1..]) == multiset(t[..j] + t[j + 1..])
  {
    RemoveAt(t, j);
    RemoveFirst(s);
  }

  lemma RemoveFirst<T>(s: seq<T>)
    requires s != []
    ensures multiset(s[1..]) == multiset(s) - multiset{s[0]}
  {
    assert s == [s[0]] + s[1..];
  }

  lemma MapCons<A, B>(f: A -> B, x: A, s: seq<A>)
    ensures Map(f, [x] + s) == [f(x)] + Map(f, s)
  {
    assert ([x] + s)[1..] == s;
  }

  lemma MapFirst<A, B>(f: A -> B, s: seq<A>)
    requires s != []
    ensures multiset(Map(f, s)) == multiset(Map(f, s[1..])) + multiset{f(s[0])}
  {
    assert Map(f, s) == [f(s[0])] + Map(f, s[1..]);
  }

  /** The mapped entry of a taken-out entry is taken out of the mapped list. */
  lemma MapRemoveAt<A, B>(f: A -> B, t: seq<A>, j: int)
    requires 0 <= j < |t|
    ensures multiset(Map(f, t)) == multiset(Map(f, t[..j] + t[j + 1..])) + multiset{f(t[j])}
  {
    var before, after := t[..j], t[j + 1..];
    assert t == before + ([t[j]] + after);
    MapConcat(f, before, [t[j]] + after);
    MapCons(f, t[j], after);
    MapConcat(f, before, after);
    var mb, ma := Map(f, before), Map(f, after);
    assert Map(f, t) == mb + ([f(t[j])] + ma);
    assert multiset(mb + ([f(t[j])] + ma)) == multiset(mb) + multiset(ma) + multiset{f(t[j])};
  }

  /** Mapping permuted lists gives permuted lists. */
  lemma {:induction false} MapPermutation<A, B>(f: A -> B, s: seq<A>, t: seq<A>)
    requires multiset(s) == multiset(t)
    ensures multiset(Map(f, s)) == multiset(Map(f, t))
  {
    if s == [] {
      assert |t| == |multiset(t)| == 0;
    } else {
      assert s[0] in multiset(t);
      var j :| 0 <= j < |t| && t[j] == s[0];
      PermutationRemove(s, t, j);
      MapPermutation(f, s[1..], t[..j] + t[j + 1..]);
      MapRemoveAt(f, t, j);
      MapFirst(f, s);
    }
  }

  /** The elements of `s` that `f` maps to `y`. */
  function Preimage<A, B(==)>(f: A -> B, s: seq<A>, y: B): set<A> {
    set x | x in s && f(x) == y
  }

  /** In the image of a list without repeats, a value occurs once for each
      element mapped to it. */
  lemma {:induction false} MapCount<A, B>(f: A -> B, s: seq<A>, y: B)
    requires NoDuplicates(s)
    ensures multiset(Map(f, s))[y] == |Preimage(f, s, y)|
  {
    if s != [] {
      var t := s[1..];
      assert NoDuplicates(t) by {
        forall i, j | 0 <= i < j < |t| ensures t[i] != t[j] {
          assert t[i] == s[i + 1] && t[j] == s[j + 1];
        }
      }
      assert s[0] !in t by {
        forall i | 0 <= i < |t| ensures t[i] != s[0] {
          assert t[i] == s[i + 1];
        }
      }
      MapCount(f, t, y);
      MapFirst(f, s);
      var mapsToY := Preimage(f, s, y);
      var restMapsToY := Preimage(f, t, y);
      assert s == [s[0]] + t;
      if f(s[0]) == y {
        assert mapsToY == restMapsToY + {s[0]};
      } else {
        assert mapsToY == restMapsToY;
      }
    }
  }

  /** A distinct list holds each element exactly once. */
  lemma {:induction false} NoDuplicatesCounts<T>(s: seq<T>)
    ensures NoDuplicates(s) <==> forall x :: multiset(s)[x] <= 1
  {
    if s != [] {
      var t, x := s[..|s| - 1], s[|s| - 1];
      assert s == t + [x];
      NoDuplicatesCounts(t);
      assert multiset(s) == multiset(t) + multiset{x};
      if NoDuplicates(s) {
        assert NoDuplicates(t) by {
          forall i, j | 0 <= i < j < |t| ensures t[i] != t[j] {
            assert s[i] == t[i] && s[j] == t[j];
          }
        }
        assert x !in t;
      }
      if forall y :: multiset(s)[y] <= 1 {
        assert forall y :: multiset(t)[y] <= 1 by {
          forall y ensures multiset(t)[y] <= 1 {
            assert multiset(s)[y] <= 1;
          }
        }
        assert multiset(s)[x] <= 1;
        assert x !in multiset(t);
        forall i, j | 0 <= i < j < |s| ensures s[i] != s[j] {
          if j < |s| - 1 {
            assert s[i] == t[i] && s[j] == t[j];
          } else {
            assert s[i] == t[i];
            assert t[i] in multiset(t);
          }
        }
      }
    }
  }

  /** A set listed without repetition has as many entries as members. */
  lemma ListedSetCardinality<T>(s: seq<T>, members: set<T>)
    requires NoDuplicates(s) && Elements(s) == members
    ensures |s| == |members|
  {
    ElementsCardinality(s);
  }

  /** Python's `sum(list)` over counts. */
  function Sum(xs: seq<nat>): nat {
    if xs == [] then 0 else Sum(xs[..|xs| - 1]) + xs[|xs| - 1]
  }

  /** Python's `flatten_list` over a list of strings: their concatenation. */
  function Concat<T>(ss: seq<seq<T>>): seq<T> {
    if ss == [] then [] else Concat(ss[..|ss| - 1]) + ss[|ss| - 1]
  }

  /** The concatenation is empty exactly when every part is empty. */
  lemma {:induction false} ConcatEmptyIff<T>(ss: seq<seq<T>>)
    ensures |Concat(ss)| == 0 <==> forall i :: 0 <= i < |ss| ==> |ss[i]| == 0
  {
    if ss != [] {
      var t := ss[..|ss| - 1];
      ConcatEmptyIff(t);
      assert forall i :: 0 <= i < |t| ==> t[i] == ss[i];
    }
  }

  /** Fixing what comes before and after, the middle part is determined. */
  lemma SandwichInjective<T>(a: seq<T>, b1: seq<T>, b2: seq<T>, c: seq<T>)
    requires a + b1 + c == a + b2 + c
    ensures b1 == b2
  {
    assert |b1| == |b2|;
    assert b1 == (a + b1 + c)[|a|..|a| + |b1|];
    assert b2 == (a + b2 + c)[|a|..|a| + |b2|];
  }

  /** Different middle parts give different sequences. */
  lemma SandwichDistinct<T>(a: seq<T>, b1: seq<T>, b2: seq<T>, c: seq<T>)
    requires b1 != b2
    ensures a + b1 + c != a + b2 + c
  {
    if |b1| == |b2| {
      assert (a + b1 + c)[|a|..|a| + |b1|] == b1;
      assert (a + b2 + c)[|a|..|a| + |b2|] == b2;
    }
  }

  /** Every element can be listed once: the Python `list(some_set)`, whose order
      the language leaves unspecified. */
  method Enumerate<T>(s: set<T>) returns (r: seq<T>)
    ensures Elements(r) == s && NoDuplicates(r) && |r| == |s|
  {
    r := [];
    var rest := s;
    while rest != {}
      invariant rest <= s
      invariant Elements(r) == s - rest
      invariant NoDuplicates(r)
      decreases rest
    {
      var x :| x in rest;
      assert x !in r;
      assert Elements(r + [x]) == Elements(r) + {x};
      r := r + [x];
      rest := rest - {x};
    }
    ListedSetCardinality(r, s);
  }
}
