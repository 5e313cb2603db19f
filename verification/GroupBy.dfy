/** Plain grouping: the first element of every key, and all the elements of one key, in order. */
module GroupBy {
  import opened Sequences

  predicate HasKey<T, K(==)>(key: T -> K, k: K, s: seq<T>) {
    exists i :: 0 <= i < |s| && key(s[i]) == k
  }

  function KeyIs<T, K(==)>(key: T -> K, k: K): T -> bool {
    x => key(x) == k
  }

  /** One element per key: the one that appears first. */
  function Firsts<T, K(==)>(key: T -> K, s: seq<T>): seq<T> {
    if s == [] then []
    else if HasKey(key, key(Last(s)), Front(s)) then Firsts(key, Front(s))
    else Firsts(key, Front(s)) + [Last(s)]
  }

  /** Every element of key `k`, in order. */
  function Members<T, K(==)>(key: T -> K, k: K, s: seq<T>): seq<T> {
    Filter(KeyIs(key, k), s)
  }

  function FirstIndex<T, K(==)>(key: T -> K, k: K, s: seq<T>): (i: nat)
    requires HasKey(key, k, s)
    ensures i < |s| && key(s[i]) == k && forall j :: 0 <= j < i ==> key(s[j]) != k
  {
    if HasKey(key, k, Front(s)) then
      var i := FirstIndex(key, k, Front(s));
      assert forall j :: 0 <= j < i ==> s[j] == Front(s)[j];
      i
    else
      assert forall j :: 0 <= j < |s| - 1 ==> s[j] == Front(s)[j];
      |s| - 1
  }

  ghost predicate DistinctKeys<T, K>(key: T -> K, s: seq<T>) {
    forall i, j :: 0 <= i < j < |s| ==> key(s[i]) != key(s[j])
  }

  lemma HasKeySnoc<T, K>(key: T -> K, k: K, s: seq<T>)
    requires s != []
    ensures HasKey(key, k, s) <==> HasKey(key, k, Front(s)) || key(Last(s)) == k
  {
    if HasKey(key, k, Front(s)) {
      var i :| 0 <= i < |Front(s)| && key(Front(s)[i]) == k;
      assert key(s[i]) == k;
    }
    if HasKey(key, k, s) {
      var i :| 0 <= i < |s| && key(s[i]) == k;
      if i < |s| - 1 {
        assert key(Front(s)[i]) == k;
      }
    }
  }

  lemma HasKeyConcat<T, K>(key: T -> K, k: K, a: seq<T>, b: seq<T>)
    ensures HasKey(key, k, a + b) <==> HasKey(key, k, a) || HasKey(key, k, b)
  {
    if HasKey(key, k, a) {
      var i :| 0 <= i < |a| && key(a[i]) == k;
      assert key((a + b)[i]) == k;
    }
    if HasKey(key, k, b) {
      var i :| 0 <= i < |b| && key(b[i]) == k;
      assert key((a + b)[|a| + i]) == k;
    }
    if HasKey(key, k, a + b) {
      var i :| 0 <= i < |a + b| && key((a + b)[i]) == k;
      if i < |a| {
        assert key(a[i]) == k;
      } else {
        assert key(b[i - |a|]) == k;
      }
    }
  }

  lemma FirstIndexOfConcat<T, K>(key: T -> K, k: K, a: seq<T>, b: seq<T>)
    requires HasKey(key, k, a)
    ensures HasKey(key, k, a + b) && FirstIndex(key, k, a + b) == FirstIndex(key, k, a)
  {
    HasKeyConcat(key, k, a, b);
    var i, j := FirstIndex(key, k, a), FirstIndex(key, k, a + b);
    assert (a + b)[i] == a[i];
    assert j < |a| ==> (a + b)[j] == a[j];
  }

  lemma {:induction false} FirstsCover<T, K>(key: T -> K, k: K, s: seq<T>)
    ensures HasKey(key, k, Firsts(key, s)) <==> HasKey(key, k, s)
  {
    if s != [] {
      HasKeySnoc(key, k, s);
      FirstsCover(key, k, Front(s));
      HasKeyConcat(key, k, Firsts(key, Front(s)), [Last(s)]);
      assert HasKey(key, k, [Last(s)]) <==> key([Last(s)][0]) == k;
    }
  }

  lemma {:induction false} FirstsDistinct<T, K>(key: T -> K, s: seq<T>)
    ensures DistinctKeys(key, Firsts(key, s))
  {
    if s != [] {
      FirstsDistinct(key, Front(s));
      var f := Firsts(key, Front(s));
      if !HasKey(key, key(Last(s)), Front(s)) {
        FirstsCover(key, key(Last(s)), Front(s));
        assert forall i :: 0 <= i < |f| ==> key(f[i]) != key(Last(s));
      }
    }
  }

  /** Where the i-th kept element comes from: the first position of its key, and in list order. */
  lemma {:induction false} FirstsOrigin<T, K>(key: T -> K, s: seq<T>, i: nat)
    requires i < |Firsts(key, s)|
    ensures HasKey(key, key(Firsts(key, s)[i]), s)
    ensures s[FirstIndex(key, key(Firsts(key, s)[i]), s)] == Firsts(key, s)[i]
  {
    var f := Firsts(key, Front(s));
    var x := Firsts(key, s)[i];
    HasKeySnoc(key, key(x), s);
    if i < |f| {
      FirstsOrigin(key, Front(s), i);
    }
  }

  lemma {:induction false} FirstsOrder<T, K>(key: T -> K, s: seq<T>, i: nat, j: nat)
    requires i < j < |Firsts(key, s)|
    ensures HasKey(key, key(Firsts(key, s)[i]), s) && HasKey(key, key(Firsts(key, s)[j]), s)
    ensures FirstIndex(key, key(Firsts(key, s)[i]), s) < FirstIndex(key, key(Firsts(key, s)[j]), s)
  {
    FirstsOrigin(key, s, i);
    FirstsOrigin(key, s, j);
    var f := Firsts(key, Front(s));
    if j < |f| {
      FirstsOrder(key, Front(s), i, j);
    } else {
      FirstsOrigin(key, Front(s), i);
    }
  }

  lemma {:induction false} FirstsOfDistinct<T, K>(key: T -> K, s: seq<T>)
    requires DistinctKeys(key, s)
    ensures Firsts(key, s) == s
  {
    if s != [] {
      assert forall i :: 0 <= i < |s| - 1 ==> Front(s)[i] == s[i];
      FirstsOfDistinct(key, Front(s));
      Snoc(s);
    }
  }

  /** Grouping an already grouped prefix changes nothing: a log can be extended step by step. */
  lemma {:induction false} FirstsResume<T, K>(key: T -> K, a: seq<T>, b: seq<T>)
    ensures Firsts(key, Firsts(key, a) + b) == Firsts(key, a + b)
  {
    if b == [] {
      assert Firsts(key, a) + b == Firsts(key, a) && a + b == a;
      FirstsDistinct(key, a);
      FirstsOfDistinct(key, Firsts(key, a));
    } else {
      var x := Last(b);
      FirstsResume(key, a, Front(b));
      assert Front(a + b) == a + Front(b) && Last(a + b) == x;
      assert Front(Firsts(key, a) + b) == Firsts(key, a) + Front(b) && Last(Firsts(key, a) + b) == x;
      HasKeyConcat(key, key(x), a, Front(b));
      HasKeyConcat(key, key(x), Firsts(key, a), Front(b));
      FirstsCover(key, key(x), a);
    }
  }

  lemma FirstsSubset<T, K>(key: T -> K, s: seq<T>, x: T)
    requires x in Firsts(key, s)
    ensures x in s
  {
    var i :| 0 <= i < |Firsts(key, s)| && Firsts(key, s)[i] == x;
    FirstsOrigin(key, s, i);
  }

  lemma {:induction false} SumOverMembers<T, K>(key: T -> K, w: T -> int, s: seq<T>, heads: seq<T>, x: T)
    requires DistinctKeys(key, heads)
    ensures GroupTotals(key, w, s + [x], heads)
         == GroupTotals(key, w, s, heads) + if HasKey(key, key(x), heads) then w(x) else 0
  {
    if heads != [] {
      assert forall i :: 0 <= i < |heads| - 1 ==> Front(heads)[i] == heads[i];
      SumOverMembers(key, w, s, Front(heads), x);
      HasKeySnoc(key, key(x), heads);
      var p := KeyIs(key, key(Last(heads)));
      FilterConcat(p, s, [x]);
      SumConcat(w, Filter(p, s), Filter(p, [x]));
      assert Filter(p, [x]) == if p(x) then [x] else [];
      if HasKey(key, key(x), Front(heads)) {
        var i :| 0 <= i < |Front(heads)| && key(Front(heads)[i]) == key(x);
        assert key(heads[i]) == key(x);
      }
      if p(x) {
        assert Sum(w, [x]) == w(x);
      }
    }
  }

  /** The weight of every group, added up over the groups of `heads`. */
  ghost function GroupTotals<T, K>(key: T -> K, w: T -> int, s: seq<T>, heads: seq<T>): int {
    if heads == [] then 0
    else GroupTotals(key, w, s, Front(heads)) + Sum(w, Members(key, key(Last(heads)), s))
  }

  /** Conservation: the groups partition the list, whatever is being counted. */
  lemma {:induction false} GroupsConserve<T, K>(key: T -> K, w: T -> int, s: seq<T>)
    ensures GroupTotals(key, w, s, Firsts(key, s)) == Sum(w, s)
  {
    if s != [] {
      var a, x := Front(s), Last(s);
      Snoc(s);
      GroupsConserve(key, w, a);
      FirstsDistinct(key, a);
      SumOverMembers(key, w, a, Firsts(key, a), x);
      FirstsCover(key, key(x), a);
      if !HasKey(key, key(x), a) {
        var p := KeyIs(key, key(x));
        FilterConcat(p, a, [x]);
        FilterLength(p, a);
        assert Filter(p, [x]) == [x];
        assert Filter(p, s) == [x];
        assert Sum(w, [x]) == w(x);
        assert Firsts(key, s) == Firsts(key, a) + [x];
        assert Front(Firsts(key, s)) == Firsts(key, a);
      }
    }
  }

  /** One result per key, built from the first element of the key and the whole group. */
  function Grouped<T, U, K(==)>(key: T -> K, build: (T, seq<T>) -> U, s: seq<T>): seq<U> {
    Map(BuildIn(key, build, s), Firsts(key, s))
  }

  function BuildIn<T, U, K(==)>(key: T -> K, build: (T, seq<T>) -> U, s: seq<T>): T -> U {
    (head: T) => build(head, Members(key, key(head), s))
  }

  lemma MembersStep<T, K>(key: T -> K, k: K, s: seq<T>, i: nat)
    requires i < |s|
    ensures Members(key, k, s[..i + 1]) == if key(s[i]) == k then Members(key, k, s[..i]) + [s[i]] else Members(key, k, s[..i])
  {
    PrefixStep(s, i);
  }

  /** A repeated key changes only its own group. */
  lemma GroupedRepeat<T, U, K>(key: T -> K, build: (T, seq<T>) -> U, s: seq<T>, i: nat, pos: nat)
    requires i < |s| && HasKey(key, key(s[i]), s[..i])
    requires pos < |Firsts(key, s[..i])| && key(Firsts(key, s[..i])[pos]) == key(s[i])
    ensures Firsts(key, s[..i + 1]) == Firsts(key, s[..i])
    ensures Grouped(key, build, s[..i + 1])
         == Grouped(key, build, s[..i])[pos := build(Firsts(key, s[..i])[pos], Members(key, key(s[i]), s[..i]) + [s[i]])]
  {
    PrefixStep(s, i);
    var f := Firsts(key, s[..i]);
    FirstsDistinct(key, s[..i]);
    forall j | 0 <= j < |f|
      ensures Members(key, key(f[j]), s[..i + 1])
           == if j == pos then Members(key, key(s[i]), s[..i]) + [s[i]] else Members(key, key(f[j]), s[..i])
    {
      MembersStep(key, key(f[j]), s, i);
    }
  }

  /** A new key starts a group of its own. */
  lemma GroupedNew<T, U, K>(key: T -> K, build: (T, seq<T>) -> U, s: seq<T>, i: nat)
    requires i < |s| && !HasKey(key, key(s[i]), s[..i])
    ensures Firsts(key, s[..i + 1]) == Firsts(key, s[..i]) + [s[i]]
    ensures Grouped(key, build, s[..i + 1]) == Grouped(key, build, s[..i]) + [build(s[i], [s[i]])]
  {
    PrefixStep(s, i);
    var f := Firsts(key, s[..i]);
    forall j | 0 <= j < |f| ensures Members(key, key(f[j]), s[..i + 1]) == Members(key, key(f[j]), s[..i]) {
      MembersStep(key, key(f[j]), s, i);
      FirstsSubset(key, s[..i], f[j]);
    }
    MembersStep(key, key(s[i]), s, i);
    FilterLength(KeyIs(key, key(s[i])), s[..i]);
    assert Members(key, key(s[i]), s[..i + 1]) == [s[i]];
  }

  /** The position index of a grouping loop: every key seen so far, and where its group stands. */
  ghost predicate Indexes<T, K>(index: map<K, nat>, key: T -> K, s: seq<T>) {
    && (forall k :: k in index ==> index[k] < |Firsts(key, s)| && key(Firsts(key, s)[index[k]]) == k)
    && (forall i :: 0 <= i < |s| ==> key(s[i]) in index)
  }

  lemma IndexedKeys<T, K>(index: map<K, nat>, key: T -> K, s: seq<T>, k: K)
    requires Indexes(index, key, s)
    ensures k in index <==> HasKey(key, k, s)
  {
    if k in index {
      FirstsOrigin(key, s, index[k]);
    }
  }

  lemma IndexesStep<T, K>(index: map<K, nat>, key: T -> K, s: seq<T>, i: nat)
    requires i < |s| && Indexes(index, key, s[..i])
    ensures key(s[i]) in index <==> HasKey(key, key(s[i]), s[..i])
    ensures Indexes(if key(s[i]) in index then index else index[key(s[i]) := |Firsts(key, s[..i])|], key, s[..i + 1])
  {
    PrefixStep(s, i);
    IndexedKeys(index, key, s[..i], key(s[i]));
    var f, g := Firsts(key, s[..i]), Firsts(key, s[..i + 1]);
    assert f <= g;
    assert forall j :: 0 <= j < i ==> s[..i + 1][j] == s[..i][j];
  }
}
