/** Sequence vocabulary shared by every component. Recursion runs from the end,
    so that a loop over `s[..i]` unfolds exactly one step per iteration. */
module Sequences {

  datatype Option<+T> = None | Some(value: T)

  function Front<T>(s: seq<T>): seq<T>
    requires s != []
  {
    s[..|s| - 1]
  }

  function Last<T>(s: seq<T>): T
    requires s != []
  {
    s[|s| - 1]
  }

  function Filter<T>(p: T -> bool, s: seq<T>): seq<T> {
    if s == [] then []
    else if p(Last(s)) then Filter(p, Front(s)) + [Last(s)] else Filter(p, Front(s))
  }

  function Map<T, U>(f: T -> U, s: seq<T>): seq<U> {
    seq(|s|, i requires 0 <= i < |s| => f(s[i]))
  }

  function FlatMap<T, U>(f: T -> seq<U>, s: seq<T>): seq<U> {
    if s == [] then [] else FlatMap(f, Front(s)) + f(Last(s))
  }

  function Sum<T>(f: T -> int, s: seq<T>): int {
    if s == [] then 0 else Sum(f, Front(s)) + f(Last(s))
  }

  /** The first element of `s` that satisfies `p`. */
  function FirstWhere<T>(p: T -> bool, s: seq<T>): Option<T> {
    if s == [] then None
    else if FirstWhere(p, Front(s)).Some? then FirstWhere(p, Front(s))
    else if p(Last(s)) then Some(Last(s)) else None
  }

  ghost predicate Distinct<T>(s: seq<T>) {
    forall i, j :: 0 <= i < j < |s| ==> s[i] != s[j]
  }

  /** `s` lists the elements of `keys`, each once: one possible iteration order of a Go map. */
  ghost predicate Enumerates<T>(s: seq<T>, keys: set<T>) {
    Distinct(s) && (set x | x in s) == keys
  }

  lemma Snoc<T>(s: seq<T>)
    requires s != []
    ensures s == Front(s) + [Last(s)]
  {
  }

  lemma PrefixStep<T>(s: seq<T>, i: nat)
    requires i < |s|
    ensures s[..i + 1] != [] && Front(s[..i + 1]) == s[..i] && Last(s[..i + 1]) == s[i]
    ensures s[..i + 1] == s[..i] + [s[i]]
  {
  }

  lemma SliceOfSlice<T>(s: seq<T>, a: nat, b: nat, c: nat, d: nat)
    requires a <= b <= |s| && c <= d <= b - a
    ensures s[a..b][c..d] == s[a + c..a + d]
  {
    assert |s[a..b][c..d]| == |s[a + c..a + d]|;
    forall i | 0 <= i < d - c ensures s[a..b][c..d][i] == s[a + c..a + d][i] {
      assert s[a..b][c..d][i] == s[a..b][c + i] == s[a + c + i];
    }
  }

  lemma {:induction false} InFilter<T>(p: T -> bool, s: seq<T>, x: T)
    ensures x in Filter(p, s) <==> x in s && p(x)
  {
    if s != [] {
      InFilter(p, Front(s), x);
      Snoc(s);
    }
  }

  lemma {:induction false} FilterLength<T>(p: T -> bool, s: seq<T>)
    ensures |Filter(p, s)| <= |s|
    ensures |Filter(p, s)| == 0 <==> forall i :: 0 <= i < |s| ==> !p(s[i])
  {
    if s != [] {
      FilterLength(p, Front(s));
      assert forall i :: 0 <= i < |s| - 1 ==> s[i] == Front(s)[i];
    }
  }

  lemma {:induction false} FilterConcat<T>(p: T -> bool, a: seq<T>, b: seq<T>)
    ensures Filter(p, a + b) == Filter(p, a) + Filter(p, b)
  {
    if b == [] {
      assert a + b == a;
    } else {
      assert Front(a + b) == a + Front(b);
      FilterConcat(p, a, Front(b));
    }
  }

  lemma {:induction false} FilterAll<T>(p: T -> bool, s: seq<T>)
    requires forall x :: x in s ==> p(x)
    ensures Filter(p, s) == s
  {
    if s != [] {
      assert forall x :: x in Front(s) ==> x in s;
      assert Last(s) in s;
      FilterAll(p, Front(s));
      Snoc(s);
    }
  }

  lemma InMap<T, U>(f: T -> U, s: seq<T>, y: U)
    ensures y in Map(f, s) <==> exists i :: 0 <= i < |s| && y == f(s[i])
  {
    if y in Map(f, s) {
      var i :| 0 <= i < |Map(f, s)| && Map(f, s)[i] == y;
      assert y == f(s[i]);
    }
    if exists i :: 0 <= i < |s| && y == f(s[i]) {
      var i :| 0 <= i < |s| && y == f(s[i]);
      assert Map(f, s)[i] == y;
    }
  }

  lemma MapSnoc<T, U>(f: T -> U, s: seq<T>, x: T)
    ensures Map(f, s + [x]) == Map(f, s) + [f(x)]
  {
  }

  lemma SumOfMap<T, U>(f: T -> U, w: U -> int, s: seq<T>)
    requires s != []
    ensures Sum(w, Map(f, s)) == Sum(w, Map(f, Front(s))) + w(f(Last(s)))
  {
    assert Front(Map(f, s)) == Map(f, Front(s));
  }

  lemma {:induction false} InFlatMap<T, U>(f: T -> seq<U>, s: seq<T>, y: U)
    ensures y in FlatMap(f, s) <==> exists i :: 0 <= i < |s| && y in f(s[i])
  {
    if s != [] {
      InFlatMap(f, Front(s), y);
      if y in FlatMap(f, s) {
        if y in FlatMap(f, Front(s)) {
          var i :| 0 <= i < |Front(s)| && y in f(Front(s)[i]);
          assert y in f(s[i]);
        } else {
          assert y in f(s[|s| - 1]);
        }
      }
      if exists i :: 0 <= i < |s| && y in f(s[i]) {
        var i :| 0 <= i < |s| && y in f(s[i]);
        if i < |s| - 1 {
          assert y in f(Front(s)[i]);
        }
      }
    }
  }

  lemma {:induction false} FlatMapConcat<T, U>(f: T -> seq<U>, a: seq<T>, b: seq<T>)
    ensures FlatMap(f, a + b) == FlatMap(f, a) + FlatMap(f, b)
  {
    if b == [] {
      assert a + b == a;
    } else {
      assert Front(a + b) == a + Front(b);
      FlatMapConcat(f, a, Front(b));
    }
  }

  lemma {:induction false} FlatMapEmpty<T, U>(f: T -> seq<U>, s: seq<T>)
    ensures FlatMap(f, s) == [] <==> forall x :: x in s ==> f(x) == []
  {
    if s != [] {
      FlatMapEmpty(f, Front(s));
      Snoc(s);
    }
  }

  lemma {:induction false} SumConcat<T>(f: T -> int, a: seq<T>, b: seq<T>)
    ensures Sum(f, a + b) == Sum(f, a) + Sum(f, b)
  {
    if b == [] {
      assert a + b == a;
    } else {
      assert Front(a + b) == a + Front(b);
      SumConcat(f, a, Front(b));
    }
  }

  lemma {:induction false} SumIsLength<T>(f: T -> int, s: seq<T>)
    requires forall x :: x in s ==> f(x) == 1
    ensures Sum(f, s) == |s|
  {
    if s != [] {
      assert forall x :: x in Front(s) ==> x in s;
      assert Last(s) in s;
      SumIsLength(f, Front(s));
    }
  }

  /** Sums do not depend on the order of the list. */
  lemma {:induction false} SumPermutation<T>(f: T -> int, a: seq<T>, b: seq<T>)
    requires multiset(a) == multiset(b)
    ensures Sum(f, a) == Sum(f, b)
  {
    if b == [] {
      assert |multiset(a)| == 0;
    } else {
      var x := Last(b);
      var rest := Without(a, b);
      SumPermutation(f, rest.0 + rest.1, Front(b));
      SumConcat(f, rest.0 + [x], rest.1);
      SumConcat(f, rest.0, [x]);
      SumConcat(f, rest.0, rest.1);
      assert Sum(f, [x]) == f(x);
    }
  }

  lemma {:induction false} FilterPermutation<T>(p: T -> bool, a: seq<T>, b: seq<T>)
    requires multiset(a) == multiset(b)
    ensures multiset(Filter(p, a)) == multiset(Filter(p, b))
  {
    if b == [] {
      assert |multiset(a)| == 0;
    } else {
      var x := Last(b);
      var rest := Without(a, b);
      FilterPermutation(p, rest.0 + rest.1, Front(b));
      FilterConcat(p, rest.0 + [x], rest.1);
      FilterConcat(p, rest.0, [x]);
      FilterConcat(p, rest.0, rest.1);
      assert Filter(p, [x]) == if p(x) then [x] else [];
    }
  }

  /** The two halves of `a` around an occurrence of the last element of its permutation `b`. */
  ghost function Without<T>(a: seq<T>, b: seq<T>): (r: (seq<T>, seq<T>))
    requires multiset(a) == multiset(b) && b != []
    ensures a == r.0 + [Last(b)] + r.1 && multiset(r.0 + r.1) == multiset(Front(b))
  {
    var x := Last(b);
    Snoc(b);
    assert x in multiset(b);
    var k :| 0 <= k < |a| && a[k] == x;
    assert a == a[..k] + [x] + a[k + 1..];
    assert multiset(a) == multiset(a[..k] + a[k + 1..]) + multiset{x};
    assert multiset(b) == multiset(Front(b) + [x]) == multiset(Front(b)) + multiset{x};
    assert multiset(a[..k] + a[k + 1..]) == multiset(a) - multiset{x};
    (a[..k], a[k + 1..])
  }

  lemma {:induction false} FirstWhereFound<T>(p: T -> bool, s: seq<T>)
    ensures FirstWhere(p, s).None? <==> forall x :: x in s ==> !p(x)
    ensures FirstWhere(p, s).Some? ==>
              exists i :: 0 <= i < |s| && FirstWhere(p, s).value == s[i] && p(s[i]) && forall j :: 0 <= j < i ==> !p(s[j])
  {
    if s != [] {
      FirstWhereFound(p, Front(s));
      Snoc(s);
      var f := FirstWhere(p, Front(s));
      if f.Some? {
        var i :| 0 <= i < |Front(s)| && f.value == Front(s)[i] && p(Front(s)[i]) && forall j :: 0 <= j < i ==> !p(Front(s)[j]);
        assert s[i] == Front(s)[i] && s[i] in s;
        assert forall j :: 0 <= j < i ==> s[j] == Front(s)[j];
      } else if p(Last(s)) {
        assert forall j :: 0 <= j < |s| - 1 ==> s[j] == Front(s)[j] && s[j] in Front(s);
      }
    }
  }
}
