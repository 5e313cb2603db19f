/** The event store of a snapshot (internal/snapshot/snapshot.go). */
module Events {
  import opened Sequences
  import opened GroupBy
  import opened StableSort
  import opened Model

  const TWO_TO_THE_32: int := 0x1_0000_0000
  const TWO_TO_THE_31: int := 0x8000_0000

  type int32 = x: int | -TWO_TO_THE_31 <= x < TWO_TO_THE_31

  /** int32 arithmetic wraps around. */
  function Wrap32(x: int): int32 {
    (x + TWO_TO_THE_31) % TWO_TO_THE_32 - TWO_TO_THE_31
  }

  datatype Event = Event(typ: string, reason: string, message: string, count: int32,
                         firstSeen: int, lastSeen: int, involved: ResourceRef, fieldPath: string)

  datatype EventKey = EventKey(reason: string, message: string, fieldPath: string)

  function KeyOf(e: Event): EventKey {
    EventKey(e.reason, e.message, e.fieldPath)
  }

  function MoreRecent(): (Event, Event) -> bool {
    (a: Event, b: Event) => a.lastSeen > b.lastSeen
  }

  /** Events.Sort: most recent first, stable. */
  function Ordered(evs: seq<Event>): seq<Event> {
    Sort(MoreRecent(), evs)
  }

  function HasReason(reasons: seq<string>): Event -> bool {
    (e: Event) => e.reason in reasons
  }

  function IsWarning(e: Event): bool {
    e.typ == "Warning"
  }

  method WithReason(evs: seq<Event>, reasons: seq<string>) returns (out: seq<Event>)
    ensures out == Filter(HasReason(reasons), evs)
  {
    out := [];
    for i := 0 to |evs|
      invariant out == Filter(HasReason(reasons), evs[..i])
    {
      PrefixStep(evs, i);
      for j := 0 to |reasons|
        invariant evs[i].reason !in reasons[..j]
        invariant out == Filter(HasReason(reasons), evs[..i])
      {
        if evs[i].reason == reasons[j] {
          out := out + [evs[i]];
          break;
        }
      }
    }
    assert evs[..|evs|] == evs;
  }

  /** The most recent event with one of the reasons: the first such event once they are ordered. */
  function LatestOf(evs: seq<Event>, reasons: seq<string>): Option<Event> {
    FirstWhere(HasReason(reasons), Ordered(evs))
  }

  lemma OrderIsStrictWeak(evs: seq<Event>)
    ensures StrictWeak(MoreRecent(), evs)
  {
  }

  lemma FirstWhereIn(p: Event -> bool, s: seq<Event>)
    ensures FirstWhere(p, s).Some? ==> FirstWhere(p, s).value in s && p(FirstWhere(p, s).value)
  {
    FirstWhereFound(p, s);
  }

  lemma {:induction false} FirstAfterInsert(p: Event -> bool, s: seq<Event>, x: Event)
    requires Sorted(MoreRecent(), s)
    ensures FirstWhere(p, Insert(MoreRecent(), s, x))
         == if p(x) && (FirstWhere(p, s).None? || x.lastSeen > FirstWhere(p, s).value.lastSeen) then Some(x) else FirstWhere(p, s)
  {
    if s == [] || !MoreRecent()(x, Last(s)) {
      assert Front(s + [x]) == s;
      FirstWhereIn(p, s);
    } else {
      var r := Insert(MoreRecent(), Front(s), x);
      assert forall i :: 0 <= i < |s| - 1 ==> Front(s)[i] == s[i];
      FirstAfterInsert(p, Front(s), x);
      assert Front(r + [Last(s)]) == r;
    }
  }

  /** One scan that remembers the best event so far finds what sorting would put first. */
  method Latest(evs: seq<Event>, reasons: seq<string>) returns (best: Option<Event>)
    ensures best == LatestOf(evs, reasons)
  {
    var matching := WithReason(evs, reasons);
    best := None;
    for i := 0 to |matching|
      invariant best == LatestOf(matching[..i], reasons)
    {
      PrefixStep(matching, i);
      var x := matching[i];
      OrderIsStrictWeak(matching[..i]);
      SortSorts(MoreRecent(), matching[..i]);
      FirstAfterInsert(HasReason(reasons), Ordered(matching[..i]), x);
      InFilter(HasReason(reasons), evs, x);
      if best.None? || x.lastSeen > best.value.lastSeen {
        best := Some(x);
      }
    }
    assert matching[..|matching|] == matching;
    LatestOfMatching(evs, reasons);
  }

  lemma {:induction false} LatestOfMatching(evs: seq<Event>, reasons: seq<string>)
    ensures LatestOf(Filter(HasReason(reasons), evs), reasons) == LatestOf(evs, reasons)
  {
    if evs != [] {
      var p, a, x := HasReason(reasons), Front(evs), Last(evs);
      LatestOfMatching(a, reasons);
      OrderIsStrictWeak(a);
      SortSorts(MoreRecent(), a);
      FirstAfterInsert(p, Ordered(a), x);
      if p(x) {
        var f := Filter(p, a);
        OrderIsStrictWeak(f);
        SortSorts(MoreRecent(), f);
        FirstAfterInsert(p, Ordered(f), x);
        assert Front(f + [x]) == f;
      }
    }
  }

  /** What the selected event is: one of the wanted reasons, and none of them is more recent. */
  lemma LatestIsMostRecent(evs: seq<Event>, reasons: seq<string>)
    ensures LatestOf(evs, reasons).None? <==> forall e :: e in evs ==> e.reason !in reasons
    ensures LatestOf(evs, reasons).Some? ==>
              var best := LatestOf(evs, reasons).value;
              best in evs && best.reason in reasons && forall e :: e in evs && e.reason in reasons ==> e.lastSeen <= best.lastSeen
  {
    var s := Ordered(evs);
    FirstWhereFound(HasReason(reasons), s);
    OrderIsStrictWeak(evs);
    SortSorts(MoreRecent(), evs);
    forall e ensures e in s <==> e in evs {
      SortMembers(MoreRecent(), evs, e);
    }
  }

  // ---- Dedup ----

  function AtLeastOne(e: Event): int {
    if e.count > 1 then e.count else 1
  }

  /** How often a group happened: the kept event counts as recorded, each absorbed one at least once. */
  function Occurrences(group: seq<Event>): int {
    if group == [] then 0
    else if |group| == 1 then if group[0].count == 0 then 1 else group[0].count
    else Occurrences(Front(group)) + AtLeastOne(Last(group))
  }

  function Earliest(start: int, group: seq<Event>): int {
    if group == [] then start
    else
      var e := Earliest(start, Front(group));
      if Last(group).firstSeen < e then Last(group).firstSeen else e
  }

  function Merged(): (Event, seq<Event>) -> Event {
    (head: Event, group: seq<Event>) =>
      head.(count := Wrap32(Occurrences(group)), firstSeen := Earliest(head.firstSeen, group))
  }

  function Deduped(evs: seq<Event>): seq<Event> {
    Grouped(KeyOf, Merged(), Ordered(evs))
  }

  lemma WrapAbsorbs(a: int, b: int)
    ensures Wrap32(Wrap32(a) + b) == Wrap32(a + b)
  {
    var n := TWO_TO_THE_32;
    var q := (a + TWO_TO_THE_31) / n;
    assert Wrap32(a) == a - q * n;
    WrapShift(a + b, q);
  }

  lemma {:induction false} WrapShift(x: int, q: int)
    ensures Wrap32(x - q * TWO_TO_THE_32) == Wrap32(x)
    decreases if q < 0 then -q else q
  {
    if q > 0 {
      WrapShift(x - TWO_TO_THE_32, q - 1);
    } else if q < 0 {
      WrapShift(x + TWO_TO_THE_32, q + 1);
    }
  }

  method Dedup(evs: seq<Event>) returns (out: seq<Event>)
    ensures out == Deduped(evs)
  {
    var seen: map<EventKey, nat> := map[];
    var s := Ordered(evs);
    out := [];
    for i := 0 to |s|
      invariant out == Grouped(KeyOf, Merged(), s[..i])
      invariant Indexes(seen, KeyOf, s[..i])
    {
      var e := s[i];
      var k := KeyOf(e);
      IndexesStep(seen, KeyOf, s, i);
      if k in seen {
        var idx := seen[k];
        GroupedRepeat(KeyOf, Merged(), s, i, idx);
        GroupAbsorbs(Firsts(KeyOf, s[..i])[idx], e, k, s[..i]);
        out := out[idx := Absorbed(out[idx], e)];
      } else {
        GroupedNew(KeyOf, Merged(), s, i);
        GroupStarts(e);
        seen := seen[k := |out|];
        out := out + [if e.count == 0 then e.(count := 1) else e];
      }
    }
    assert s[..|s|] == s;
  }

  /** A repeat adds to the count of the kept event and may move its first time back. */
  function Absorbed(kept: Event, e: Event): Event {
    kept.(count := Wrap32(kept.count + AtLeastOne(e)),
          firstSeen := if e.firstSeen < kept.firstSeen then e.firstSeen else kept.firstSeen)
  }

  lemma GroupStarts(e: Event)
    ensures Merged()(e, [e]) == if e.count == 0 then e.(count := 1) else e
  {
    assert Front([e]) == [];
    assert Earliest(e.firstSeen, [e]) == e.firstSeen;
    var n: int32 := if e.count == 0 then 1 else e.count;
    assert Occurrences([e]) == n;
    assert Wrap32(n) == n;
    assert Merged()(e, [e]) == e.(count := n, firstSeen := e.firstSeen);
  }

  lemma GroupAbsorbs(head: Event, e: Event, k: EventKey, s: seq<Event>)
    requires HasKey(KeyOf, k, s)
    ensures Merged()(head, Members(KeyOf, k, s) + [e]) == Absorbed(Merged()(head, Members(KeyOf, k, s)), e)
  {
    var group := Members(KeyOf, k, s);
    var i :| 0 <= i < |s| && KeyOf(s[i]) == k;
    assert KeyIs(KeyOf, k)(s[i]);
    FilterLength(KeyIs(KeyOf, k), s);
    assert Front(group + [e]) == group && Last(group + [e]) == e;
    WrapAbsorbs(Occurrences(group), AtLeastOne(e));
    assert Occurrences(group + [e]) == Occurrences(group) + AtLeastOne(e);
    assert Merged()(head, group).count == Wrap32(Occurrences(group));
    assert Merged()(head, group + [e]).count == Wrap32(Occurrences(group + [e]));
  }

  /** Unique keys, none lost, and still most recent first. */
  lemma DedupKeys(evs: seq<Event>)
    ensures DistinctKeys(KeyOf, Deduped(evs))
    ensures forall k :: HasKey(KeyOf, k, Deduped(evs)) <==> HasKey(KeyOf, k, evs)
    ensures Sorted(MoreRecent(), Deduped(evs))
  {
    var s, out := Ordered(evs), Deduped(evs);
    var f := Firsts(KeyOf, s);
    FirstsDistinct(KeyOf, s);
    OrderIsStrictWeak(evs);
    SortSorts(MoreRecent(), evs);
    forall k ensures HasKey(KeyOf, k, out) <==> HasKey(KeyOf, k, evs) {
      FirstsCover(KeyOf, k, s);
      KeysOfOrdered(evs, k);
      SameKeys(f, out, k);
    }
    forall i, j | 0 <= i < j < |out| ensures out[i].lastSeen >= out[j].lastSeen {
      FirstsOrder(KeyOf, s, i, j);
      FirstsOrigin(KeyOf, s, i);
      FirstsOrigin(KeyOf, s, j);
    }
  }

  lemma KeysOfOrdered(evs: seq<Event>, k: EventKey)
    ensures HasKey(KeyOf, k, Ordered(evs)) <==> HasKey(KeyOf, k, evs)
  {
    var s := Ordered(evs);
    if HasKey(KeyOf, k, s) {
      var i :| 0 <= i < |s| && KeyOf(s[i]) == k;
      SortMembers(MoreRecent(), evs, s[i]);
      var j :| 0 <= j < |evs| && evs[j] == s[i];
      assert KeyOf(evs[j]) == k;
    }
    if HasKey(KeyOf, k, evs) {
      var i :| 0 <= i < |evs| && KeyOf(evs[i]) == k;
      SortMembers(MoreRecent(), evs, evs[i]);
      var j :| 0 <= j < |s| && s[j] == evs[i];
      assert KeyOf(s[j]) == k;
    }
  }

  lemma SameKeys(a: seq<Event>, b: seq<Event>, k: EventKey)
    requires |a| == |b| && forall i :: 0 <= i < |a| ==> KeyOf(a[i]) == KeyOf(b[i])
    ensures HasKey(KeyOf, k, a) <==> HasKey(KeyOf, k, b)
  {
    if HasKey(KeyOf, k, a) {
      var i :| 0 <= i < |a| && KeyOf(a[i]) == k;
      assert KeyOf(b[i]) == k;
    }
    if HasKey(KeyOf, k, b) {
      var i :| 0 <= i < |b| && KeyOf(b[i]) == k;
      assert KeyOf(a[i]) == k;
    }
  }

  lemma {:induction false} OccurrencesSum(group: seq<Event>)
    requires forall e :: e in group ==> e.count >= 0
    ensures Occurrences(group) == Sum(AtLeastOne, group)
  {
    if |group| == 1 {
      assert Front(group) == [] && group[0] in group;
      assert Sum(AtLeastOne, Front(group)) == 0;
    } else if |group| > 1 {
      assert forall e :: e in Front(group) ==> e in group;
      OccurrencesSum(Front(group));
    }
  }

  lemma {:induction false} EarliestBounds(start: int, group: seq<Event>)
    ensures Earliest(start, group) <= start && forall e :: e in group ==> Earliest(start, group) <= e.firstSeen
    ensures Earliest(start, group) == start || exists e :: e in group && e.firstSeen == Earliest(start, group)
  {
    if group != [] {
      Snoc(group);
      EarliestBounds(start, Front(group));
      assert Last(group) in group;
      assert forall e :: e in Front(group) ==> e in group;
    }
  }

  lemma FirstsAreLatest(evs: seq<Event>, i: nat)
    requires i < |Firsts(KeyOf, Ordered(evs))|
    ensures var head := Firsts(KeyOf, Ordered(evs))[i];
            head in evs && forall e :: e in evs && KeyOf(e) == KeyOf(head) ==> e.lastSeen <= head.lastSeen
  {
    var s := Ordered(evs);
    var head := Firsts(KeyOf, s)[i];
    FirstsOrigin(KeyOf, s, i);
    SortMembers(MoreRecent(), evs, head);
    OrderIsStrictWeak(evs);
    SortSorts(MoreRecent(), evs);
    forall e | e in evs && KeyOf(e) == KeyOf(head) ensures e.lastSeen <= head.lastSeen {
      SortMembers(MoreRecent(), evs, e);
      FirstIsMostRecent(s, KeyOf(head), e);
    }
  }

  lemma FirstIsMostRecent(s: seq<Event>, k: EventKey, e: Event)
    requires Sorted(MoreRecent(), s) && HasKey(KeyOf, k, s) && e in s && KeyOf(e) == k
    ensures e.lastSeen <= s[FirstIndex(KeyOf, k, s)].lastSeen
  {
    var j :| 0 <= j < |s| && s[j] == e;
    var i := FirstIndex(KeyOf, k, s);
    assert i < j ==> !MoreRecent()(s[j], s[i]);
  }

  /** Where a kept event comes from: the most recent event of its key, and its whole group. */
  lemma DedupOrigin(evs: seq<Event>, i: nat) returns (head: Event)
    requires i < |Deduped(evs)|
    ensures head in evs && Deduped(evs)[i] == Merged()(head, Members(KeyOf, KeyOf(head), Ordered(evs)))
    ensures forall e :: e in evs && KeyOf(e) == KeyOf(head) ==> e.lastSeen <= head.lastSeen
  {
    FirstsAreLatest(evs, i);
    head := Firsts(KeyOf, Ordered(evs))[i];
  }

  lemma GroupOfOrdered(evs: seq<Event>, k: EventKey)
    ensures multiset(Members(KeyOf, k, Ordered(evs))) == multiset(Members(KeyOf, k, evs))
    ensures forall e :: e in Members(KeyOf, k, Ordered(evs)) <==> e in evs && KeyOf(e) == k
  {
    SortPermutes(MoreRecent(), evs);
    FilterPermutation(KeyIs(KeyOf, k), Ordered(evs), evs);
    forall e ensures e in Members(KeyOf, k, Ordered(evs)) <==> e in evs && KeyOf(e) == k {
      InFilter(KeyIs(KeyOf, k), Ordered(evs), e);
      SortMembers(MoreRecent(), evs, e);
    }
  }

  /** Conservation: a kept event counts every occurrence of its key, modulo 2^32 and hence exactly
      while the total fits in an int32. */
  lemma DedupConserves(evs: seq<Event>, i: nat)
    requires i < |Deduped(evs)|
    requires forall e :: e in evs ==> e.count >= 0
    ensures Deduped(evs)[i].count == Wrap32(Sum(AtLeastOne, Members(KeyOf, KeyOf(Deduped(evs)[i]), evs)))
  {
    var head := DedupOrigin(evs, i);
    var group := Members(KeyOf, KeyOf(head), Ordered(evs));
    GroupOfOrdered(evs, KeyOf(head));
    OccurrencesSum(group);
    SumPermutation(AtLeastOne, group, Members(KeyOf, KeyOf(head), evs));
  }

  /** It carries the latest LastSeen and the earliest FirstSeen of its key. */
  lemma DedupTimes(evs: seq<Event>, i: nat)
    requires i < |Deduped(evs)|
    ensures var r := Deduped(evs)[i];
            && (exists e :: e in evs && KeyOf(e) == KeyOf(r) && e.lastSeen == r.lastSeen)
            && (exists e :: e in evs && KeyOf(e) == KeyOf(r) && e.firstSeen == r.firstSeen)
            && forall e :: e in evs && KeyOf(e) == KeyOf(r) ==> e.lastSeen <= r.lastSeen && r.firstSeen <= e.firstSeen
  {
    var head := DedupOrigin(evs, i);
    GroupOfOrdered(evs, KeyOf(head));
    EarliestBounds(head.firstSeen, Members(KeyOf, KeyOf(head), Ordered(evs)));
  }

  lemma {:induction false} MembersOfDistinct(s: seq<Event>, i: nat)
    requires DistinctKeys(KeyOf, s) && i < |s|
    ensures Members(KeyOf, KeyOf(s[i]), s) == [s[i]]
  {
    var p := KeyIs(KeyOf, KeyOf(s[i]));
    assert s == s[..i] + [s[i]] + s[i + 1..];
    FilterConcat(p, s[..i] + [s[i]], s[i + 1..]);
    FilterConcat(p, s[..i], [s[i]]);
    FilterLength(p, s[..i]);
    FilterLength(p, s[i + 1..]);
    assert Filter(p, [s[i]]) == [s[i]];
  }

  /** Deduplicating twice changes an event only if its count wrapped around to zero. */
  lemma DedupTwice(evs: seq<Event>)
    ensures |Deduped(Deduped(evs))| == |Deduped(evs)|
    ensures forall i :: 0 <= i < |Deduped(evs)| ==>
              Deduped(Deduped(evs))[i] == if Deduped(evs)[i].count == 0 then Deduped(evs)[i].(count := 1) else Deduped(evs)[i]
  {
    var out := Deduped(evs);
    DedupKeys(evs);
    DedupOfUnique(out);
  }

  lemma DedupOfUnique(s: seq<Event>)
    requires DistinctKeys(KeyOf, s) && Sorted(MoreRecent(), s)
    ensures |Deduped(s)| == |s|
    ensures forall i :: 0 <= i < |s| ==> Deduped(s)[i] == if s[i].count == 0 then s[i].(count := 1) else s[i]
  {
    SortOfSorted(MoreRecent(), s);
    FirstsOfDistinct(KeyOf, s);
    forall i | 0 <= i < |s| ensures Deduped(s)[i] == if s[i].count == 0 then s[i].(count := 1) else s[i] {
      MembersOfDistinct(s, i);
      GroupStarts(s[i]);
    }
  }

  lemma WrapsToZero(x: int)
    ensures Wrap32(x) == 0 <==> x % TWO_TO_THE_32 == 0
  {
  }

  /** Dedup is idempotent exactly when no key happened a multiple of 2^32 times. */
  lemma DedupIdempotentIff(evs: seq<Event>)
    requires forall e :: e in evs ==> e.count >= 0
    ensures Deduped(Deduped(evs)) == Deduped(evs)
       <==> forall e :: e in evs ==> Sum(AtLeastOne, Members(KeyOf, KeyOf(e), evs)) % TWO_TO_THE_32 != 0
  {
    var out := Deduped(evs);
    DedupTwice(evs);
    if Deduped(out) == out {
      forall e | e in evs ensures Sum(AtLeastOne, Members(KeyOf, KeyOf(e), evs)) % TWO_TO_THE_32 != 0 {
        var i := KeptEvent(evs, e);
        DedupConserves(evs, i);
        assert Deduped(out)[i] == out[i];
        WrapsToZero(Sum(AtLeastOne, Members(KeyOf, KeyOf(e), evs)));
      }
    } else {
      var i :| 0 <= i < |out| && Deduped(out)[i] != out[i];
      assert out[i].count == 0;
      DedupConserves(evs, i);
      var head := DedupOrigin(evs, i);
      WrapsToZero(Sum(AtLeastOne, Members(KeyOf, KeyOf(head), evs)));
    }
  }

  /** The condition is needed: 2^32 repetitions are counted as none, and a second pass makes them one. */
  lemma DedupNotIdempotent(e: Event)
    ensures var evs := [e.(count := 0x7fff_ffff), e.(count := 0x7fff_ffff), e.(count := 2)];
            Deduped(Deduped(evs)) != Deduped(evs)
  {
    var a, b := e.(count := 0x7fff_ffff), e.(count := 2);
    var evs := [a, a, b];
    ThreeOfOneKey(a, a, b);
    assert AtLeastOne(a) + AtLeastOne(a) + AtLeastOne(b) == TWO_TO_THE_32;
    assert a in evs;
    DedupIdempotentIff(evs);
  }

  lemma ThreeOfOneKey(a: Event, b: Event, c: Event)
    requires KeyOf(a) == KeyOf(b) == KeyOf(c)
    ensures Sum(AtLeastOne, Members(KeyOf, KeyOf(a), [a, b, c])) == AtLeastOne(a) + AtLeastOne(b) + AtLeastOne(c)
  {
    var p := KeyIs(KeyOf, KeyOf(a));
    assert Front([a, b, c]) == [a, b] && Front([a, b]) == [a];
    assert Filter(p, [a]) == [a];
    assert Filter(p, [a, b]) == [a, b];
    assert Filter(p, [a, b, c]) == [a, b, c];
    assert Sum(AtLeastOne, [a]) == AtLeastOne(a);
    assert Sum(AtLeastOne, [a, b]) == AtLeastOne(a) + AtLeastOne(b);
  }

  lemma KeptEvent(evs: seq<Event>, e: Event) returns (i: nat)
    requires e in evs
    ensures i < |Deduped(evs)| && KeyOf(Deduped(evs)[i]) == KeyOf(e)
  {
    DedupKeys(evs);
    var n :| 0 <= n < |evs| && evs[n] == e;
    assert HasKey(KeyOf, KeyOf(evs[n]), evs);
    i :| 0 <= i < |Deduped(evs)| && KeyOf(Deduped(evs)[i]) == KeyOf(e);
  }

  /** Deduplication never changes which event Latest selects, apart from its count and first time. */
  lemma LatestAfterDedup(evs: seq<Event>, reasons: seq<string>)
    ensures LatestOf(Deduped(evs), reasons).None? <==> LatestOf(evs, reasons).None?
    ensures LatestOf(evs, reasons).Some? ==>
              var before, after := LatestOf(evs, reasons).value, LatestOf(Deduped(evs), reasons);
              after.Some? && after.value.(count := before.count, firstSeen := before.firstSeen) == before
  {
    var p, s, out := HasReason(reasons), Ordered(evs), Deduped(evs);
    DedupKeys(evs);
    SortOfSorted(MoreRecent(), out);
    FirstMatchIsFirst(p, s, reasons);
    SameFirst(p, Firsts(KeyOf, s), out, reasons);
  }

  /** The first event of a wanted reason is the first of its key, so grouping keeps it in front. */
  lemma {:induction false} FirstMatchIsFirst(p: Event -> bool, s: seq<Event>, reasons: seq<string>)
    requires p == HasReason(reasons)
    ensures FirstWhere(p, Firsts(KeyOf, s)) == FirstWhere(p, s)
  {
    if s != [] {
      FirstMatchIsFirst(p, Front(s), reasons);
      var x := Last(s);
      if HasKey(KeyOf, KeyOf(x), Front(s)) {
        var i :| 0 <= i < |Front(s)| && KeyOf(Front(s)[i]) == KeyOf(x);
        FirstWhereFound(p, Front(s));
        assert Front(s)[i] in Front(s) && (p(x) <==> p(Front(s)[i]));
      } else {
        assert Front(Firsts(KeyOf, Front(s)) + [x]) == Firsts(KeyOf, Front(s));
      }
    }
  }

  lemma {:induction false} SameFirst(p: Event -> bool, a: seq<Event>, b: seq<Event>, reasons: seq<string>)
    requires p == HasReason(reasons) && |a| == |b|
    requires forall i :: 0 <= i < |a| ==> b[i].(count := a[i].count, firstSeen := a[i].firstSeen) == a[i]
    ensures FirstWhere(p, a).None? <==> FirstWhere(p, b).None?
    ensures FirstWhere(p, a).Some? ==>
              FirstWhere(p, b).value.(count := FirstWhere(p, a).value.count, firstSeen := FirstWhere(p, a).value.firstSeen) == FirstWhere(p, a).value
  {
    if a != [] {
      assert forall i :: 0 <= i < |a| - 1 ==> Front(a)[i] == a[i] && Front(b)[i] == b[i];
      SameFirst(p, Front(a), Front(b), reasons);
      assert b[|a| - 1].(count := a[|a| - 1].count, firstSeen := a[|a| - 1].firstSeen) == a[|a| - 1];
      assert Last(a).reason == Last(b).reason;
    }
  }

  // ---- Deduplication in an event's own fields ----

  predicate Repeats(a: Event, b: Event) {
    a.reason == b.reason && a.message == b.message && a.fieldPath == b.fieldPath
  }

  /** How often something like `x` happened: every record stands for one occurrence at least. */
  function TimesSeen(evs: seq<Event>, x: Event): int {
    if evs == [] then 0
    else TimesSeen(Front(evs), x) + if !Repeats(Last(evs), x) then 0 else if Last(evs).count < 1 then 1 else Last(evs).count
  }

  lemma SumOfOneMore(group: seq<Event>, e: Event)
    ensures Sum(AtLeastOne, group + [e]) == Sum(AtLeastOne, group) + AtLeastOne(e)
  {
    assert Front(group + [e]) == group;
  }

  lemma {:induction false} TimesSeenIs(evs: seq<Event>, x: Event)
    ensures Sum(AtLeastOne, Members(KeyOf, KeyOf(x), evs)) == TimesSeen(evs, x)
  {
    if evs != [] {
      TimesSeenIs(Front(evs), x);
      var group, last := Members(KeyOf, KeyOf(x), Front(evs)), Last(evs);
      assert Repeats(last, x) <==> KeyOf(last) == KeyOf(x);
      SumOfOneMore(group, last);
    }
  }

  /** No two kept events repeat each other; each is the most recent of its repeats, but for its count and
      first time; none is lost; and the most recent come first. */
  lemma DedupMeans(evs: seq<Event>)
    ensures forall i, j :: 0 <= i < j < |Deduped(evs)| ==>
              !Repeats(Deduped(evs)[i], Deduped(evs)[j]) && Deduped(evs)[i].lastSeen >= Deduped(evs)[j].lastSeen
    ensures forall e :: e in evs ==> exists i :: 0 <= i < |Deduped(evs)| && Repeats(Deduped(evs)[i], e)
    ensures forall i :: 0 <= i < |Deduped(evs)| ==> KeptOf(evs, Deduped(evs)[i])
  {
    var out := Deduped(evs);
    DedupKeys(evs);
    forall i, j | 0 <= i < j < |out| ensures !Repeats(out[i], out[j]) && out[i].lastSeen >= out[j].lastSeen {
      assert KeyOf(out[i]) != KeyOf(out[j]) && !MoreRecent()(out[j], out[i]);
    }
    forall e | e in evs ensures exists i :: 0 <= i < |out| && Repeats(out[i], e) {
      var i := KeptEvent(evs, e);
    }
    forall i | 0 <= i < |out| ensures KeptOf(evs, out[i]) {
      var head := DedupOrigin(evs, i);
      DedupTimes(evs, i);
      assert forall e :: Repeats(e, out[i]) <==> KeyOf(e) == KeyOf(out[i]);
      assert head.(count := out[i].count, firstSeen := out[i].firstSeen) == out[i];
    }
  }

  /** `r` is the most recent of the events it stands for, with the earliest of their first times. */
  ghost predicate KeptOf(evs: seq<Event>, r: Event) {
    && (exists e :: e in evs && e.(count := r.count, firstSeen := r.firstSeen) == r)
    && (exists e :: e in evs && Repeats(e, r) && e.firstSeen == r.firstSeen)
    && forall e :: e in evs && Repeats(e, r) ==> e.lastSeen <= r.lastSeen && r.firstSeen <= e.firstSeen
  }

  /** Its count is how often that happened, as an int32 that wraps around. */
  lemma DedupCounts(evs: seq<Event>, i: nat)
    requires i < |Deduped(evs)| && forall e :: e in evs ==> e.count >= 0
    ensures (TimesSeen(evs, Deduped(evs)[i]) - Deduped(evs)[i].count) % 0x1_0000_0000 == 0
  {
    DedupConserves(evs, i);
    TimesSeenIs(evs, Deduped(evs)[i]);
    WrapsBy(TimesSeen(evs, Deduped(evs)[i]));
  }

  lemma WrapsBy(x: int)
    ensures (x - Wrap32(x)) % 0x1_0000_0000 == 0
  {
    var q := (x + TWO_TO_THE_31) / TWO_TO_THE_32;
    assert x - Wrap32(x) == q * TWO_TO_THE_32;
  }
}
