/** Collapsing findings that repeat across objects (internal/diagnosis/aggregate.go). */
module Aggregation {
  import opened Sequences
  import opened GroupBy
  import opened StableSort
  import opened Model

  datatype AggregateKey = AggregateKey(id: FindingID, component: string, summary: string)

  function KeyOf(d: Diagnosis): AggregateKey {
    AggregateKey(d.id, d.component, d.summary)
  }

  function SubjectOf(d: Diagnosis): ResourceRef {
    d.subject
  }

  function CountOf(d: Diagnosis): int {
    if d.aggregate.Some? then d.aggregate.value.count else 0
  }

  /** The first finding of a key, carrying the subjects of the whole group. */
  function WithGroup(total: int): (Diagnosis, seq<Diagnosis>) -> Diagnosis {
    (head: Diagnosis, group: seq<Diagnosis>) =>
      head.(aggregate := Some(Aggregate(|group|, total, Map(SubjectOf, group))))
  }

  /** One more subject joins a collapsed finding. */
  function Joined(r: Diagnosis, subject: ResourceRef): Diagnosis {
    match r.aggregate
    case None => r
    case Some(g) => r.(aggregate := Some(Aggregate(g.count + 1, g.total, g.subjects + [subject])))
  }

  function Collapsed(ds: seq<Diagnosis>, total: int): seq<Diagnosis> {
    Grouped(KeyOf, WithGroup(total), ds)
  }

  function MoreWidespread(): (Diagnosis, Diagnosis) -> bool {
    (a: Diagnosis, b: Diagnosis) => CountOf(a) > CountOf(b)
  }

  function Aggregated(ds: seq<Diagnosis>, total: int): seq<Diagnosis> {
    Sort(MoreWidespread(), Collapsed(ds, total))
  }

  lemma GroupGrows(head: Diagnosis, total: int, group: seq<Diagnosis>, d: Diagnosis)
    ensures WithGroup(total)(head, group + [d]) == Joined(WithGroup(total)(head, group), d.subject)
  {
    assert Map(SubjectOf, group + [d]) == Map(SubjectOf, group) + [d.subject];
  }

  method AggregateByRule(ds: seq<Diagnosis>, total: int) returns (out: seq<Diagnosis>)
    ensures out == Aggregated(ds, total)
  {
    var index: map<AggregateKey, nat> := map[];
    out := [];
    for i := 0 to |ds|
      invariant out == Collapsed(ds[..i], total)
      invariant Indexes(index, KeyOf, ds[..i])
    {
      var d := ds[i];
      var k := KeyOf(d);
      IndexesStep(index, KeyOf, ds, i);
      if k in index {
        var pos := index[k];
        GroupedRepeat(KeyOf, WithGroup(total), ds, i, pos);
        GroupGrows(Firsts(KeyOf, ds[..i])[pos], total, Members(KeyOf, k, ds[..i]), d);
        out := out[pos := Joined(out[pos], d.subject)];
      } else {
        GroupedNew(KeyOf, WithGroup(total), ds, i);
        index := index[k := |out|];
        assert Map(SubjectOf, [d]) == [d.subject];
        out := out + [d.(aggregate := Some(Aggregate(1, total, [d.subject])))];
      }
    }
    assert ds[..|ds|] == ds;
    out := Sort(MoreWidespread(), out);
  }

  lemma InAggregated(ds: seq<Diagnosis>, total: int, d: Diagnosis) returns (i: nat)
    requires d in Aggregated(ds, total)
    ensures i < |Firsts(KeyOf, ds)|
    ensures d == WithGroup(total)(Firsts(KeyOf, ds)[i], Members(KeyOf, KeyOf(Firsts(KeyOf, ds)[i]), ds))
  {
    var c := Collapsed(ds, total);
    SortMembers(MoreWidespread(), c, d);
    i :| 0 <= i < |c| && c[i] == d;
  }

  lemma CollapseInAggregated(ds: seq<Diagnosis>, total: int, i: nat)
    requires i < |Firsts(KeyOf, ds)|
    ensures WithGroup(total)(Firsts(KeyOf, ds)[i], Members(KeyOf, KeyOf(Firsts(KeyOf, ds)[i]), ds)) in Aggregated(ds, total)
  {
    var c := Collapsed(ds, total);
    SortMembers(MoreWidespread(), c, c[i]);
  }

  /** What one collapsed finding says: the first finding of its key, and everyone it happened to. */
  lemma AggregateContents(ds: seq<Diagnosis>, total: int, r: Diagnosis)
    requires r in Aggregated(ds, total)
    ensures HasKey(KeyOf, KeyOf(r), ds)
    ensures var group := Members(KeyOf, KeyOf(r), ds);
            r == ds[FirstIndex(KeyOf, KeyOf(r), ds)].(aggregate := Some(Aggregate(|group|, total, Map(SubjectOf, group))))
  {
    var i := InAggregated(ds, total, r);
    FirstsOrigin(KeyOf, ds, i);
    assert KeyOf(r) == KeyOf(Firsts(KeyOf, ds)[i]);
  }

  /** One output per key of the input, and no two outputs share a key. */
  lemma AggregateGroups(ds: seq<Diagnosis>, total: int)
    ensures forall k :: HasKey(KeyOf, k, Aggregated(ds, total)) <==> HasKey(KeyOf, k, ds)
    ensures DistinctKeys(KeyOf, Aggregated(ds, total))
  {
    forall k ensures HasKey(KeyOf, k, Aggregated(ds, total)) <==> HasKey(KeyOf, k, ds) {
      FirstsCover(KeyOf, k, ds);
      KeysOfCollapsed(ds, total, k);
    }
    FirstsDistinct(KeyOf, ds);
    SortPermutes(MoreWidespread(), Collapsed(ds, total));
    DistinctKeysPermutation(Collapsed(ds, total), Aggregated(ds, total));
  }

  lemma KeysOfCollapsed(ds: seq<Diagnosis>, total: int, k: AggregateKey)
    ensures HasKey(KeyOf, k, Aggregated(ds, total)) <==> HasKey(KeyOf, k, Firsts(KeyOf, ds))
  {
    var f, out := Firsts(KeyOf, ds), Aggregated(ds, total);
    if HasKey(KeyOf, k, out) {
      var i :| 0 <= i < |out| && KeyOf(out[i]) == k;
      var j := InAggregated(ds, total, out[i]);
      assert KeyOf(f[j]) == k;
    }
    if HasKey(KeyOf, k, f) {
      var i :| 0 <= i < |f| && KeyOf(f[i]) == k;
      CollapseInAggregated(ds, total, i);
      var r := WithGroup(total)(f[i], Members(KeyOf, k, ds));
      var j :| 0 <= j < |out| && out[j] == r;
      assert KeyOf(out[j]) == k;
    }
  }

  lemma DistinctKeysPermutation(a: seq<Diagnosis>, b: seq<Diagnosis>)
    requires DistinctKeys(KeyOf, a) && multiset(a) == multiset(b)
    ensures DistinctKeys(KeyOf, b)
  {
    forall i, j | 0 <= i < j < |b| ensures KeyOf(b[i]) != KeyOf(b[j]) {
      if KeyOf(b[i]) == KeyOf(b[j]) {
        assert b[i] in multiset(a) && b[j] in multiset(a);
        assert b[i] in a && b[j] in a;
        assert b[i] == b[j];
        assert b == b[..i] + [b[i]] + b[i + 1..j] + [b[i]] + b[j + 1..];
        assert multiset(a)[b[i]] >= 2;
        OccursOnce(a, b[i]);
      }
    }
  }

  lemma {:induction false} OccursOnce(a: seq<Diagnosis>, x: Diagnosis)
    requires DistinctKeys(KeyOf, a)
    ensures multiset(a)[x] <= 1
  {
    if a != [] {
      Snoc(a);
      assert forall i :: 0 <= i < |a| - 1 ==> Front(a)[i] == a[i];
      OccursOnce(Front(a), x);
      assert multiset(a) == multiset(Front(a)) + multiset{Last(a)};
      assert Last(a) == x ==> x !in Front(a);
    }
  }

  function One(): Diagnosis -> int {
    (_: Diagnosis) => 1
  }

  /** Conservation: the counts add up to the number of findings that went in. */
  lemma AggregateConserves(ds: seq<Diagnosis>, total: int)
    ensures Sum(CountOf, Aggregated(ds, total)) == |ds|
  {
    SortPermutes(MoreWidespread(), Collapsed(ds, total));
    SumPermutation(CountOf, Aggregated(ds, total), Collapsed(ds, total));
    CountsAreGroups(ds, total, Firsts(KeyOf, ds));
    GroupsConserve(KeyOf, One(), ds);
    SumIsLength(One(), ds);
  }

  lemma {:induction false} CountsAreGroups(ds: seq<Diagnosis>, total: int, heads: seq<Diagnosis>)
    ensures Sum(CountOf, Map(BuildIn(KeyOf, WithGroup(total), ds), heads)) == GroupTotals(KeyOf, One(), ds, heads)
  {
    var c := BuildIn(KeyOf, WithGroup(total), ds);
    if heads == [] {
      assert Map(c, heads) == [];
    } else {
      CountsAreGroups(ds, total, Front(heads));
      SumOfMap(c, CountOf, heads);
      SumIsLength(One(), Members(KeyOf, KeyOf(Last(heads)), ds));
    }
  }

  /** Most widespread first; equally widespread problems in the order they were first seen. */
  lemma AggregateOrder(ds: seq<Diagnosis>, total: int, i: nat, j: nat)
    requires i < j < |Aggregated(ds, total)|
    ensures CountOf(Aggregated(ds, total)[i]) >= CountOf(Aggregated(ds, total)[j])
    ensures CountOf(Aggregated(ds, total)[i]) == CountOf(Aggregated(ds, total)[j]) ==>
              && HasKey(KeyOf, KeyOf(Aggregated(ds, total)[i]), ds) && HasKey(KeyOf, KeyOf(Aggregated(ds, total)[j]), ds)
              && FirstIndex(KeyOf, KeyOf(Aggregated(ds, total)[i]), ds) < FirstIndex(KeyOf, KeyOf(Aggregated(ds, total)[j]), ds)
  {
    var less, c := MoreWidespread(), Collapsed(ds, total);
    assert StrictWeak(less, c);
    SortSorts(less, c);
    if CountOf(Aggregated(ds, total)[i]) == CountOf(Aggregated(ds, total)[j]) {
      var a, b := SortTieOrder(less, c, i, j);
      FirstsOrder(KeyOf, ds, a, b);
    }
  }

  /** Collapsing never separates a consequence from its cause: every ID that went in comes out. */
  lemma AggregateKeepsCauses(ds: seq<Diagnosis>, total: int)
    requires NoDanglingCause(ds)
    ensures NoDanglingCause(Aggregated(ds, total))
  {
    var out := Aggregated(ds, total);
    AggregateGroups(ds, total);
    forall r | r in out && r.causedBy != NoID ensures exists e :: e in out && e.id == r.causedBy {
      AggregateContents(ds, total, r);
      var d := ds[FirstIndex(KeyOf, KeyOf(r), ds)];
      assert d in ds && d.causedBy == r.causedBy;
      var e :| e in ds && e.id == d.causedBy;
      var n :| 0 <= n < |ds| && ds[n] == e;
      assert HasKey(KeyOf, KeyOf(ds[n]), ds);
      assert HasKey(KeyOf, KeyOf(e), out);
      var m :| 0 <= m < |out| && KeyOf(out[m]) == KeyOf(e);
      assert out[m] in out && out[m].id == e.id;
    }
  }

  // ---- Aggregation in a finding's own fields ----

  predicate SameProblem(a: Diagnosis, b: Diagnosis) {
    a.id == b.id && a.component == b.component && a.summary == b.summary
  }

  /** Who has the problem `x`, in order. */
  function Affected(ds: seq<Diagnosis>, x: Diagnosis): seq<ResourceRef> {
    if ds == [] then []
    else Affected(Front(ds), x) + if SameProblem(Last(ds), x) then [Last(ds).subject] else []
  }

  lemma {:induction false} AffectedIs(ds: seq<Diagnosis>, x: Diagnosis)
    ensures Map(SubjectOf, Members(KeyOf, KeyOf(x), ds)) == Affected(ds, x)
    ensures |Members(KeyOf, KeyOf(x), ds)| == |Affected(ds, x)|
  {
    if ds != [] {
      AffectedIs(Front(ds), x);
      MapSnoc(SubjectOf, Members(KeyOf, KeyOf(x), Front(ds)), Last(ds));
    }
  }

  /** `r` is the first finding of its problem, with everyone affected and their number. */
  ghost predicate Summarises(ds: seq<Diagnosis>, total: int, r: Diagnosis) {
    && r.aggregate == Some(Aggregate(|Affected(ds, r)|, total, Affected(ds, r)))
    && exists i :: 0 <= i < |ds| && ds[i].(aggregate := r.aggregate) == r && forall j :: 0 <= j < i ==> !SameProblem(ds[j], r)
  }

  /** One finding per problem, none lost, the most widespread first. */
  lemma AggregateMeans(ds: seq<Diagnosis>, total: int)
    ensures forall r :: r in Aggregated(ds, total) ==> Summarises(ds, total, r)
    ensures forall d :: d in ds ==> exists r :: r in Aggregated(ds, total) && SameProblem(r, d)
    ensures forall i, j :: 0 <= i < j < |Aggregated(ds, total)| ==> !SameProblem(Aggregated(ds, total)[i], Aggregated(ds, total)[j])
    ensures forall i, j :: 0 <= i < j < |Aggregated(ds, total)| ==>
              |Affected(ds, Aggregated(ds, total)[i])| >= |Affected(ds, Aggregated(ds, total)[j])|
  {
    var out := Aggregated(ds, total);
    AggregateGroups(ds, total);
    forall r | r in out ensures Summarises(ds, total, r) {
      AggregateSummarises(ds, total, r);
    }
    forall d | d in ds ensures exists r :: r in out && SameProblem(r, d) {
      var n :| 0 <= n < |ds| && ds[n] == d;
      assert HasKey(KeyOf, KeyOf(ds[n]), ds);
      var i :| 0 <= i < |out| && KeyOf(out[i]) == KeyOf(d);
      assert out[i] in out;
    }
    forall i, j | 0 <= i < j < |out| ensures !SameProblem(out[i], out[j]) && |Affected(ds, out[i])| >= |Affected(ds, out[j])| {
      assert KeyOf(out[i]) != KeyOf(out[j]);
      AggregateOrder(ds, total, i, j);
      AggregateSummarises(ds, total, out[i]);
      AggregateSummarises(ds, total, out[j]);
    }
  }

  lemma AggregateSummarises(ds: seq<Diagnosis>, total: int, r: Diagnosis)
    requires r in Aggregated(ds, total)
    ensures Summarises(ds, total, r)
  {
    AggregateContents(ds, total, r);
    AffectedIs(ds, r);
    var i := FirstIndex(KeyOf, KeyOf(r), ds);
    assert ds[i].(aggregate := r.aggregate) == r;
    assert forall j :: 0 <= j < i ==> KeyOf(ds[j]) != KeyOf(r);
  }
}
