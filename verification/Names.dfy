/** Sorted names, and time in nanoseconds. */
module Names {
  import opened Sequences
  import opened StableSort

  /** Go's string comparison. */
  predicate Less(a: string, b: string) {
    b != [] && (a == [] || a[0] < b[0] || (a[0] == b[0] && Less(a[1..], b[1..])))
  }

  function ByName(): (string, string) -> bool {
    (a: string, b: string) => Less(a, b)
  }

  lemma {:induction false} LessIsTotal(a: string, b: string)
    ensures !(Less(a, b) && Less(b, a))
    ensures !Less(a, b) && !Less(b, a) ==> a == b
  {
    if a != [] && b != [] {
      LessIsTotal(a[1..], b[1..]);
      assert a == [a[0]] + a[1..] && b == [b[0]] + b[1..];
    }
  }

  /** Alphabetical order: up to some point the names agree, and there the first one ends or has the
      smaller letter. */
  ghost predicate Precedes(a: string, b: string) {
    exists k :: DecidesAt(a, b, k)
  }

  ghost predicate DecidesAt(a: string, b: string, k: nat) {
    k <= |a| && k < |b| && a[..k] == b[..k] && (k == |a| || a[k] < b[k])
  }

  lemma PrefixStarts(a: string, b: string, k: nat)
    requires 0 < k <= |a| && k <= |b| && a[..k] == b[..k]
    ensures a[0] == b[0]
  {
    assert a[..k][0] == b[..k][0];
  }

  lemma {:induction false} LessIsAlphabetical(a: string, b: string)
    ensures Less(a, b) <==> Precedes(a, b)
  {
    if a == [] || b == [] || a[0] != b[0] {
      assert Less(a, b) ==> DecidesAt(a, b, 0);
      forall k: nat | DecidesAt(a, b, k) ensures Less(a, b) {
        if k > 0 {
          PrefixStarts(a, b, k);
        }
      }
    } else {
      LessIsAlphabetical(a[1..], b[1..]);
      if Less(a, b) {
        var k: nat :| DecidesAt(a[1..], b[1..], k);
        assert a[..k + 1] == [a[0]] + a[1..][..k] && b[..k + 1] == [b[0]] + b[1..][..k];
        assert DecidesAt(a, b, k + 1);
      }
      forall k: nat | DecidesAt(a, b, k) ensures Less(a, b) {
        assert k > 0;
        assert a[1..][..k - 1] == a[..k][1..] && b[1..][..k - 1] == b[..k][1..];
        assert DecidesAt(a[1..], b[1..], k - 1);
      }
    }
  }

  /** Sorted names stand in alphabetical order. */
  lemma NamesAscend(names: seq<string>, i: nat, j: nat)
    requires i < j < |Sort(ByName(), names)|
    ensures Sort(ByName(), names)[i] == Sort(ByName(), names)[j] || Precedes(Sort(ByName(), names)[i], Sort(ByName(), names)[j])
  {
    var r := Sort(ByName(), names);
    ByNameIsStrictWeak(names);
    SortSorts(ByName(), names);
    LessIsTotal(r[i], r[j]);
    LessIsAlphabetical(r[i], r[j]);
  }

  lemma {:induction false} NotLessTransitive(a: string, b: string, c: string)
    requires !Less(a, b) && !Less(b, c)
    ensures !Less(a, c)
  {
    if a != [] && b != [] && c != [] && a[0] == b[0] == c[0] {
      NotLessTransitive(a[1..], b[1..], c[1..]);
    }
  }

  lemma ByNameIsStrictWeak(s: seq<string>)
    ensures StrictWeak(ByName(), s)
  {
    forall a, b | a in s && b in s && ByName()(a, b) ensures !ByName()(b, a) {
      LessIsTotal(a, b);
    }
    forall a, b, c | a in s && b in s && c in s && !ByName()(a, b) && !ByName()(b, c) ensures !ByName()(a, c) {
      NotLessTransitive(a, b, c);
    }
  }

  /** sort.Strings: the result depends only on which names there are, not on how they were listed. */
  lemma SortedNamesAgree(a: seq<string>, b: seq<string>)
    requires multiset(a) == multiset(b)
    ensures Sort(ByName(), a) == Sort(ByName(), b)
  {
    ByNameIsStrictWeak(a);
    ByNameIsStrictWeak(b);
    SortSorts(ByName(), a);
    SortSorts(ByName(), b);
    SortPermutes(ByName(), a);
    SortPermutes(ByName(), b);
    var r := Sort(ByName(), a);
    forall i, j | 0 <= i < |r| && 0 <= j < |r| ensures r[i] == r[j] <==> !ByName()(r[i], r[j]) && !ByName()(r[j], r[i]) {
      LessIsTotal(r[i], r[j]);
    }
    SortedUnique(ByName(), r, Sort(ByName(), b));
  }

  lemma {:induction false} DistinctOccurrence<T>(s: seq<T>, x: T)
    requires Distinct(s)
    ensures multiset(s)[x] == if x in s then 1 else 0
  {
    if s != [] {
      Snoc(s);
      assert forall i :: 0 <= i < |s| - 1 ==> Front(s)[i] == s[i];
      DistinctOccurrence(Front(s), x);
      assert multiset(s) == multiset(Front(s)) + multiset{Last(s)};
      assert Last(s) !in Front(s);
    }
  }

  lemma DistinctFront<T>(s: seq<T>)
    requires Distinct(s) && s != []
    ensures Distinct(Front(s)) && Last(s) !in Front(s)
    ensures forall x :: x in s <==> x in Front(s) || x == Last(s)
  {
    var f := Front(s);
    forall i, j | 0 <= i < j < |f| ensures f[i] != f[j] {
      assert f[i] == s[i] && f[j] == s[j];
    }
    Snoc(s);
  }

  lemma RepeatOccurs<T>(s: seq<T>, i: nat, j: nat)
    requires i < j < |s|
    ensures s[i] == s[j] ==> multiset(s)[s[i]] >= 2
  {
    assert s == s[..i] + [s[i]] + s[i + 1..j] + [s[j]] + s[j + 1..];
  }

  /** Two iteration orders of the same map are permutations of each other. */
  lemma EnumerationsPermute(a: seq<string>, b: seq<string>, keys: set<string>)
    requires Enumerates(a, keys) && Enumerates(b, keys)
    ensures multiset(a) == multiset(b)
  {
    assert forall x :: x in a <==> x in keys;
    assert forall x :: x in b <==> x in keys;
    forall x | x in multiset(a) || x in multiset(b) ensures multiset(a)[x] == multiset(b)[x] {
      DistinctOccurrence(a, x);
      DistinctOccurrence(b, x);
    }
  }

  /** Some order of a map's keys: which one is up to the runtime. */
  method AnyKeys(keys: set<string>) returns (order: seq<string>)
    ensures Enumerates(order, keys)
  {
    order := [];
    var left := keys;
    while left != {}
      invariant left <= keys && Enumerates(order, keys - left)
      decreases left
    {
      var name :| name in left;
      ghost var seen := set x | x in order;
      assert name !in order by {
        assert name !in seen;
      }
      assert (set x | x in order + [name]) == seen + {name};
      assert keys - (left - {name}) == (keys - left) + {name};
      left := left - {name};
      order := order + [name];
    }
    assert keys - left == keys;
  }

  const SECOND: int := 1_000_000_000
  const MINUTE: int := 60 * SECOND
}
