/** Go's sort.SliceStable, modelled by stable insertion. For a strict weak order the result is the
    only stable sorted permutation, so any stable algorithm returns the same list. */
module StableSort {
  import opened Sequences

  /** `less` is a strict weak order on the elements of `s`. */
  ghost predicate StrictWeak<T>(less: (T, T) -> bool, s: seq<T>) {
    && (forall a, b :: a in s && b in s && less(a, b) ==> !less(b, a))
    && (forall a, b, c :: a in s && b in s && c in s && !less(a, b) && !less(b, c) ==> !less(a, c))
  }

  ghost predicate Sorted<T>(less: (T, T) -> bool, s: seq<T>) {
    forall i, j :: 0 <= i < j < |s| ==> !less(s[j], s[i])
  }

  /** `x` moves left past every element it is less than. */
  function Insert<T>(less: (T, T) -> bool, s: seq<T>, x: T): seq<T> {
    if s == [] || !less(x, Last(s)) then s + [x] else Insert(less, Front(s), x) + [Last(s)]
  }

  function Sort<T>(less: (T, T) -> bool, s: seq<T>): seq<T> {
    if s == [] then [] else Insert(less, Sort(less, Front(s)), Last(s))
  }

  /** The elements tied with `g`, in order. */
  function TiedWith<T>(less: (T, T) -> bool, g: T): T -> bool {
    x => !less(x, g) && !less(g, x)
  }

  lemma {:induction false} InsertPermutes<T>(less: (T, T) -> bool, s: seq<T>, x: T)
    ensures multiset(Insert(less, s, x)) == multiset(s) + multiset{x}
  {
    if s != [] && less(x, Last(s)) {
      InsertPermutes(less, Front(s), x);
      Snoc(s);
      assert multiset(s) == multiset(Front(s) + [Last(s)]);
    }
  }

  lemma {:induction false} SortPermutes<T>(less: (T, T) -> bool, s: seq<T>)
    ensures multiset(Sort(less, s)) == multiset(s) && |Sort(less, s)| == |s|
  {
    if s != [] {
      SortPermutes(less, Front(s));
      InsertPermutes(less, Sort(less, Front(s)), Last(s));
      Snoc(s);
      assert multiset(s) == multiset(Front(s) + [Last(s)]);
    }
    assert |multiset(Sort(less, s))| == |Sort(less, s)|;
  }

  lemma SortMembers<T>(less: (T, T) -> bool, s: seq<T>, x: T)
    ensures x in Sort(less, s) <==> x in s
  {
    SortPermutes(less, s);
    assert x in multiset(s) <==> x in s;
    assert x in multiset(Sort(less, s)) <==> x in Sort(less, s);
  }

  lemma {:induction false} InsertSorts<T>(less: (T, T) -> bool, s: seq<T>, x: T)
    requires StrictWeak(less, s + [x]) && Sorted(less, s)
    ensures Sorted(less, Insert(less, s, x))
  {
    if s == [] {
    } else if !less(x, Last(s)) {
      forall i | 0 <= i < |s| ensures !less(x, s[i]) {
        assert s[i] in s + [x] && Last(s) in s + [x] && x in s + [x];
        assert i < |s| - 1 ==> !less(Last(s), s[i]);
      }
    } else {
      var f := Front(s);
      assert forall y :: y in f + [x] ==> y in s + [x];
      assert forall i :: 0 <= i < |f| ==> f[i] == s[i];
      InsertSorts(less, f, x);
      var r := Insert(less, f, x);
      InsertPermutes(less, f, x);
      forall i | 0 <= i < |r| ensures !less(Last(s), r[i]) {
        assert r[i] in multiset(r);
        assert r[i] == x || r[i] in f;
        assert x in s + [x] && Last(s) in s + [x];
      }
    }
  }

  lemma {:induction false} SortSorts<T>(less: (T, T) -> bool, s: seq<T>)
    requires StrictWeak(less, s)
    ensures Sorted(less, Sort(less, s))
  {
    if s != [] {
      var f := Front(s);
      assert forall y :: y in f ==> y in s;
      SortSorts(less, f);
      forall y | y in Sort(less, f) + [Last(s)] ensures y in s {
        SortMembers(less, f, y);
      }
      InsertSorts(less, Sort(less, f), Last(s));
    }
  }

  lemma {:induction false} InsertKeepsTies<T>(less: (T, T) -> bool, s: seq<T>, x: T, g: T)
    requires StrictWeak(less, s + [x, g])
    ensures Filter(TiedWith(less, g), Insert(less, s, x)) == Filter(TiedWith(less, g), s) + Filter(TiedWith(less, g), [x])
  {
    var p := TiedWith(less, g);
    if s == [] || !less(x, Last(s)) {
      FilterConcat(p, s, [x]);
    } else {
      assert forall y :: y in Front(s) + [x, g] ==> y in s + [x, g];
      InsertKeepsTies(less, Front(s), x, g);
      FilterConcat(p, Insert(less, Front(s), x), [Last(s)]);
      Snoc(s);
      FilterConcat(p, Front(s), [Last(s)]);
      assert Last(s) in s + [x, g] && x in s + [x, g] && g in s + [x, g];
      assert !(p(x) && p(Last(s)));
      assert Filter(p, [x]) == if p(x) then [x] else [];
      assert Filter(p, [Last(s)]) == if p(Last(s)) then [Last(s)] else [];
    }
  }

  /** Stability: elements that compare equal keep their relative order. */
  lemma {:induction false} SortStable<T>(less: (T, T) -> bool, s: seq<T>, g: T)
    requires StrictWeak(less, s + [g])
    ensures Filter(TiedWith(less, g), Sort(less, s)) == Filter(TiedWith(less, g), s)
  {
    if s != [] {
      var f := Front(s);
      assert forall y :: y in f + [g] ==> y in s + [g];
      SortStable(less, f, g);
      forall y | y in Sort(less, f) + [Last(s), g] ensures y in s + [g] {
        SortMembers(less, f, y);
      }
      InsertKeepsTies(less, Sort(less, f), Last(s), g);
      Snoc(s);
      FilterConcat(TiedWith(less, g), f, [Last(s)]);
    }
  }

  lemma {:induction false} SortOfSorted<T>(less: (T, T) -> bool, s: seq<T>)
    requires Sorted(less, s)
    ensures Sort(less, s) == s
  {
    if s != [] {
      assert forall i :: 0 <= i < |s| - 1 ==> Front(s)[i] == s[i];
      SortOfSorted(less, Front(s));
      Snoc(s);
      if |s| > 1 {
        assert !less(s[|s| - 1], s[|s| - 2]);
        assert Last(Front(s)) == s[|s| - 2];
      }
    }
  }

  lemma SortIdempotent<T>(less: (T, T) -> bool, s: seq<T>)
    requires StrictWeak(less, s)
    ensures Sort(less, Sort(less, s)) == Sort(less, s)
  {
    SortSorts(less, s);
    SortOfSorted(less, Sort(less, s));
  }

  /** Two positions of a filtered list come from two positions of the list, in the same order. */
  lemma {:induction false} FilterPositions<T>(p: T -> bool, s: seq<T>, i: nat, j: nat) returns (a: nat, b: nat)
    requires i < j < |Filter(p, s)|
    ensures a < b < |s| && s[a] == Filter(p, s)[i] && s[b] == Filter(p, s)[j]
  {
    if j < |Filter(p, Front(s))| {
      a, b := FilterPositions(p, Front(s), i, j);
    } else {
      b := |s| - 1;
      var x := Filter(p, Front(s))[i];
      InFilter(p, Front(s), x);
      a :| 0 <= a < |Front(s)| && Front(s)[a] == x;
    }
  }

  lemma {:induction false} PositionsFilter<T>(p: T -> bool, s: seq<T>, a: nat, b: nat) returns (i: nat, j: nat)
    requires a < b < |s| && p(s[a]) && p(s[b])
    ensures i < j < |Filter(p, s)| && s[a] == Filter(p, s)[i] && s[b] == Filter(p, s)[j]
  {
    if b < |s| - 1 {
      i, j := PositionsFilter(p, Front(s), a, b);
    } else {
      j := |Filter(p, s)| - 1;
      assert Front(s)[a] == s[a];
      InFilter(p, Front(s), s[a]);
      i :| 0 <= i < |Filter(p, Front(s))| && Filter(p, Front(s))[i] == s[a];
    }
  }

  /** Stability by position: tied elements of the result stood in this order in the input. */
  lemma SortTieOrder<T>(less: (T, T) -> bool, s: seq<T>, i: nat, j: nat) returns (a: nat, b: nat)
    requires StrictWeak(less, s)
    requires i < j < |Sort(less, s)|
    requires !less(Sort(less, s)[i], Sort(less, s)[j])
    ensures a < b < |s| && s[a] == Sort(less, s)[i] && s[b] == Sort(less, s)[j]
  {
    var r := Sort(less, s);
    var g := r[i];
    SortSorts(less, s);
    SortMembers(less, s, g);
    assert forall y :: y in s + [g] ==> y in s;
    SortStable(less, s, g);
    var p := TiedWith(less, g);
    assert p(r[i]) && p(r[j]);
    var u, v := PositionsFilter(p, r, i, j);
    a, b := FilterPositions(p, s, u, v);
  }

  lemma SortedLastsTie<T>(less: (T, T) -> bool, r: seq<T>, q: seq<T>)
    requires r != [] && q != [] && Sorted(less, r) && Sorted(less, q)
    requires multiset(r) == multiset(q)
    requires !less(Last(r), Last(r)) && !less(Last(q), Last(q))
    ensures TiedWith(less, Last(r))(Last(q))
  {
    assert Last(r) in multiset(q) && Last(q) in multiset(r);
    var i :| 0 <= i < |q| && q[i] == Last(r);
    var j :| 0 <= j < |r| && r[j] == Last(q);
  }

  /** Uniqueness: the sorted permutations of a list that keep tied elements in the same order are equal. */
  lemma {:induction false} SortUnique<T>(less: (T, T) -> bool, r: seq<T>, q: seq<T>)
    requires forall x :: x in r ==> !less(x, x)
    requires Sorted(less, r) && Sorted(less, q)
    requires multiset(r) == multiset(q)
    requires forall g :: g in r ==> Filter(TiedWith(less, g), r) == Filter(TiedWith(less, g), q)
    ensures r == q
  {
    assert |multiset(r)| == |r| && |multiset(q)| == |q|;
    if r != [] {
      var x := Last(r);
      assert Last(q) in multiset(r);
      SortedLastsTie(less, r, q);
      assert Last(Filter(TiedWith(less, x), r)) == x && Last(Filter(TiedWith(less, x), q)) == Last(q);
      SortUniqueStep(less, r, q);
      SortUnique(less, Front(r), Front(q));
      Snoc(r);
      Snoc(q);
    }
  }

  lemma SortUniqueStep<T>(less: (T, T) -> bool, r: seq<T>, q: seq<T>)
    requires r != [] && q != [] && Last(r) == Last(q)
    requires Sorted(less, r) && Sorted(less, q)
    requires multiset(r) == multiset(q)
    requires forall g :: g in r ==> Filter(TiedWith(less, g), r) == Filter(TiedWith(less, g), q)
    ensures Sorted(less, Front(r)) && Sorted(less, Front(q))
    ensures multiset(Front(r)) == multiset(Front(q))
    ensures forall g :: g in Front(r) ==> Filter(TiedWith(less, g), Front(r)) == Filter(TiedWith(less, g), Front(q))
  {
    Snoc(r);
    Snoc(q);
    assert multiset(Front(r)) == multiset(Front(r) + [Last(r)]) - multiset{Last(r)};
    assert multiset(Front(q)) == multiset(Front(q) + [Last(q)]) - multiset{Last(q)};
    forall g | g in Front(r) ensures Filter(TiedWith(less, g), Front(r)) == Filter(TiedWith(less, g), Front(q)) {
      var t := TiedWith(less, g);
      if t(Last(r)) {
        assert Front(Filter(t, r)) == Filter(t, Front(r)) && Front(Filter(t, q)) == Filter(t, Front(q));
      }
    }
  }

  lemma SortedFronts<T>(less: (T, T) -> bool, r: seq<T>, q: seq<T>)
    requires r != [] && q != [] && Last(r) == Last(q) && multiset(r) == multiset(q)
    requires Sorted(less, r) && Sorted(less, q)
    ensures multiset(Front(r)) == multiset(Front(q)) && Sorted(less, Front(r)) && Sorted(less, Front(q))
  {
    Snoc(r);
    Snoc(q);
    assert multiset(Front(r)) == multiset(Front(r) + [Last(r)]) - multiset{Last(r)};
    assert multiset(Front(q)) == multiset(Front(q) + [Last(q)]) - multiset{Last(q)};
  }

  ghost predicate TotalOn<T>(less: (T, T) -> bool, s: seq<T>) {
    forall i, j :: 0 <= i < |s| && 0 <= j < |s| ==> (s[i] == s[j] <==> !less(s[i], s[j]) && !less(s[j], s[i]))
  }

  /** Under a total order there is one sorted permutation, stable or not. */
  lemma {:induction false} SortedUnique<T>(less: (T, T) -> bool, r: seq<T>, q: seq<T>)
    requires Sorted(less, r) && Sorted(less, q) && multiset(r) == multiset(q) && TotalOn(less, r)
    ensures r == q
  {
    assert |multiset(r)| == |r| && |multiset(q)| == |q|;
    if r != [] {
      assert Last(q) in multiset(r);
      var j :| 0 <= j < |r| && r[j] == Last(q);
      assert r[|r| - 1] == Last(r);
      SortedLastsTie(less, r, q);
      SortedFronts(less, r, q);
      assert forall i :: 0 <= i < |r| - 1 ==> Front(r)[i] == r[i];
      SortedUnique(less, Front(r), Front(q));
      Snoc(r);
      Snoc(q);
    }
  }
}
