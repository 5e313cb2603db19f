/** The position of a replica in its StatefulSet, printed into names and parsed back
    (internal/snapshot/statefulset.go), and the order Pods are listed in
    (internal/collect/statefulset.go). */
module Ordinals {
  import opened Sequences
  import opened StableSort
  import opened Text
  import opened Names
  import opened Pods
  import Backends

  // ---- Printing and parsing ----

  function PodName(setName: string, ordinal: nat): string {
    setName + "-" + Decimal(ordinal)
  }

  function ClaimName(template: string, setName: string, ordinal: nat): string {
    template + "-" + setName + "-" + Decimal(ordinal)
  }

  /** Where the digits at the end of a name begin. */
  function DigitsFrom(s: string): (k: nat)
    ensures k <= |s| && AllDigits(s[k..]) && (k > 0 ==> !IsDigit(s[k - 1]))
  {
    if s != [] && IsDigit(Last(s)) then
      var k := DigitsFrom(Front(s));
      assert forall i :: k <= i < |s| - 1 ==> s[i] == Front(s)[i] == Front(s)[k..][i - k];
      k
    else |s|
  }

  /** The number behind the last dash, `-(\d+)$`, unless it does not fit an int. */
  function Ordinal(name: string): Option<nat> {
    var k := DigitsFrom(name);
    if k == |name| || k == 0 || name[k - 1] != '-' then None
    else
      var n := ParseDecimal(name[k..]);
      if 0 <= n <= MAX_INT then Some(n) else None
  }

  lemma DigitsFromIs(prefix: string, digits: string)
    requires prefix != [] && !IsDigit(Last(prefix)) && AllDigits(digits)
    ensures DigitsFrom(prefix + digits) == |prefix|
  {
    var s := prefix + digits;
    var k := DigitsFrom(s);
    assert forall i :: k <= i < |s| ==> s[i] == s[k..][i - k];
    assert forall i :: |prefix| <= i < |s| ==> s[i] == digits[i - |prefix|];
    assert s[|prefix| - 1] == Last(prefix);
  }

  lemma DigitsAfterDash(name: string, i: nat)
    requires i < |name| && name[i] == '-' && AllDigits(name[i + 1..])
    ensures DigitsFrom(name) == i + 1
  {
    DigitsFromIs(name[..i + 1], name[i + 1..]);
    assert name[..i + 1] + name[i + 1..] == name;
  }

  /** What the pattern accepts, without following how it is matched. */
  lemma OrdinalIff(name: string, n: nat)
    ensures Ordinal(name) == Some(n)
       <==> n <= MAX_INT && exists i :: 0 <= i < |name| - 1 && name[i] == '-' && AllDigits(name[i + 1..]) && ParseDecimal(name[i + 1..]) == n
  {
    if exists i :: 0 <= i < |name| - 1 && name[i] == '-' && AllDigits(name[i + 1..]) && ParseDecimal(name[i + 1..]) == n {
      var i :| 0 <= i < |name| - 1 && name[i] == '-' && AllDigits(name[i + 1..]) && ParseDecimal(name[i + 1..]) == n;
      DigitsAfterDash(name, i);
    }
    if Ordinal(name) == Some(n) {
      var i := DigitsFrom(name) - 1;
      assert name[i] == '-' && AllDigits(name[i + 1..]) && ParseDecimal(name[i + 1..]) == n;
    }
  }

  lemma OrdinalOfPrinted(prefix: string, n: nat)
    ensures Ordinal(prefix + "-" + Decimal(n)) == if n <= MAX_INT then Some(n) else None
  {
    var name := prefix + "-" + Decimal(n);
    DigitsFromIs(prefix + "-", Decimal(n));
    assert name[|prefix| + 1..] == Decimal(n) && name[|prefix|] == '-';
    ParseUndoesPrint(n);
  }

  /** The ordinal of a claim's or a Pod's name is the one that was printed into it. */
  lemma OrdinalUndoesName(template: string, setName: string, n: nat)
    requires n <= MAX_INT
    ensures Ordinal(ClaimName(template, setName, n)) == Some(n) && Ordinal(PodName(setName, n)) == Some(n)
  {
    OrdinalOfPrinted(template + "-" + setName, n);
    assert template + "-" + setName + "-" + Decimal(n) == ClaimName(template, setName, n);
    OrdinalOfPrinted(setName, n);
  }

  lemma PrintedSplits(p: string, q: string, m: nat, n: nat)
    requires p + "-" + Decimal(m) == q + "-" + Decimal(n)
    ensures p == q && m == n
  {
    var s := p + "-" + Decimal(m);
    DigitsFromIs(p + "-", Decimal(m));
    DigitsFromIs(q + "-", Decimal(n));
    assert s[|p| + 1..] == Decimal(m) && s[|q| + 1..] == Decimal(n);
    DecimalInjective(m, n);
    assert s[..|p|] == p && s[..|q|] == q;
  }

  /** Different templates or ordinals never share a claim, whatever characters the names contain. */
  lemma ClaimNameInjective(t: string, u: string, setName: string, m: nat, n: nat)
    requires ClaimName(t, setName, m) == ClaimName(u, setName, n)
    ensures t == u && m == n
  {
    assert t + "-" + setName + "-" + Decimal(m) == ClaimName(t, setName, m);
    PrintedSplits(t + "-" + setName, u + "-" + setName, m, n);
    assert t + "-" + setName == t + ("-" + setName) && u + "-" + setName == u + ("-" + setName);
    assert (t + "-" + setName)[..|t|] == t && (u + "-" + setName)[..|u|] == u;
  }

  lemma PodNameInjective(setName: string, m: nat, n: nat)
    requires PodName(setName, m) == PodName(setName, n)
    ensures m == n
  {
    PrintedSplits(setName, setName, m, n);
  }

  // ---- Listing Pods in ordinal order ----

  function OwnedBy(uid: string): PodObject -> bool {
    (p: PodObject) => uid in p.owners
  }

  function OrdinalBefore(a: string, b: string): bool {
    if Ordinal(a).Some? && Ordinal(b).Some? then Ordinal(a).value < Ordinal(b).value else Less(a, b)
  }

  function ByOrdinal(): (PodObject, PodObject) -> bool {
    (a: PodObject, b: PodObject) => OrdinalBefore(a.name, b.name)
  }

  function OwnedInOrder(pods: seq<PodObject>, uid: string): seq<PodObject> {
    Sort(ByOrdinal(), Filter(OwnedBy(uid), pods))
  }

  method SelectOwned(pods: seq<PodObject>, uid: string) returns (owned: seq<PodObject>)
    ensures owned == OwnedInOrder(pods, uid)
  {
    owned := [];
    for i := 0 to |pods|
      invariant owned == Filter(OwnedBy(uid), pods[..i])
    {
      PrefixStep(pods, i);
      for j := 0 to |pods[i].owners|
        invariant uid !in pods[i].owners[..j]
        invariant owned == Filter(OwnedBy(uid), pods[..i])
      {
        if pods[i].owners[j] == uid {
          owned := owned + [pods[i]];
          break;
        }
      }
    }
    assert pods[..|pods|] == pods;
    owned := Sort(ByOrdinal(), owned);
  }

  /** A name without an ordinal that falls, by name, between two that do not follow their ordinals. */
  ghost predicate Wedge(a: PodObject, u: PodObject, b: PodObject) {
    && Ordinal(a.name).Some? && Ordinal(b.name).Some? && Ordinal(u.name).None?
    && Less(a.name, u.name) && Less(u.name, b.name) && Ordinal(a.name).value >= Ordinal(b.name).value
  }

  ghost predicate Unwedged(ps: seq<PodObject>) {
    forall a, u, b :: a in ps && u in ps && b in ps ==> !Wedge(a, u, b)
  }

  lemma OrdinalStep(a: PodObject, b: PodObject, c: PodObject)
    requires !Wedge(a, c, b) && !Wedge(c, b, a) && !Wedge(b, a, c)
    requires !OrdinalBefore(a.name, b.name) && !OrdinalBefore(b.name, c.name)
    ensures !OrdinalBefore(a.name, c.name)
  {
    LessIsTotal(a.name, b.name);
    LessIsTotal(b.name, c.name);
    LessIsTotal(a.name, c.name);
    if !Less(a.name, b.name) && !Less(b.name, c.name) {
      NotLessTransitive(a.name, b.name, c.name);
    }
  }

  /** The comparator is a strict weak order exactly when no name is wedged between two others. */
  lemma OrdinalOrderIsStrictWeakIff(ps: seq<PodObject>)
    ensures StrictWeak(ByOrdinal(), ps) <==> Unwedged(ps)
  {
    var less := ByOrdinal();
    if StrictWeak(less, ps) {
      forall a, u, b | a in ps && u in ps && b in ps ensures !Wedge(a, u, b) {
        LessIsTotal(a.name, u.name);
        LessIsTotal(u.name, b.name);
        assert !less(b, u) && !less(u, a) ==> !less(b, a);
        assert !less(a, b) && !less(b, u) ==> !less(a, u);
      }
    }
    if Unwedged(ps) {
      forall a, b | a in ps && b in ps && less(a, b) ensures !less(b, a) {
        LessIsTotal(a.name, b.name);
      }
      forall a, b, c | a in ps && b in ps && c in ps && !less(a, b) && !less(b, c) ensures !less(a, c) {
        OrdinalStep(a, b, c);
      }
    }
  }

  lemma NoOrdinal(name: string)
    requires name != [] && !IsDigit(Last(name))
    ensures Ordinal(name).None?
  {
  }

  /** The comparator does cycle: replica 10, a Pod named like "web-1x" and replica 2 are each before
      the next, and replica 2 is before replica 10. */
  lemma OrdinalOrderCycles(setName: string)
    ensures OrdinalBefore(PodName(setName, 10), setName + "-" + "1x")
    ensures OrdinalBefore(setName + "-" + "1x", PodName(setName, 2)) && OrdinalBefore(PodName(setName, 2), PodName(setName, 10))
  {
    OrdinalOfPrinted(setName, 10);
    OrdinalOfPrinted(setName, 2);
    NoOrdinal(setName + "-" + "1x");
    var d10, d2, x := Decimal(10), Decimal(2), "1x";
    assert Decimal(1) == ['1'];
    assert d10 == ['1'] + ['0'] && d2 == ['2'];
    assert Less(['0'], ['x']);
    assert d10[1..] == ['0'] && x[1..] == ['x'];
    assert Less(d10, x) && Less(x, d2);
    LessAfter(setName + "-", d10, x);
    LessAfter(setName + "-", x, d2);
  }

  lemma {:induction false} LessAfter(p: string, a: string, b: string)
    requires Less(a, b)
    ensures Less(p + a, p + b)
  {
    if p == [] {
      assert p + a == a && p + b == b;
    } else {
      LessAfter(p[1..], a, b);
      assert (p + a)[1..] == p[1..] + a && (p + b)[1..] == p[1..] + b;
    }
  }

  ghost predicate AllOrdinal(ps: seq<PodObject>) {
    forall p :: p in ps ==> Ordinal(p.name).Some?
  }

  ghost predicate Ascending(ps: seq<PodObject>) {
    AllOrdinal(ps) && forall i, j :: 0 <= i < j < |ps| ==> Ordinal(ps[i].name).value <= Ordinal(ps[j].name).value
  }

  /** With named replicas the collected list is the owned Pods, all of them once, by ascending ordinal. */
  lemma CollectedAscends(pods: seq<PodObject>, uid: string)
    requires AllOrdinal(Filter(OwnedBy(uid), pods))
    ensures multiset(OwnedInOrder(pods, uid)) == multiset(Filter(OwnedBy(uid), pods))
    ensures Ascending(OwnedInOrder(pods, uid))
  {
    var owned := Filter(OwnedBy(uid), pods);
    var out := OwnedInOrder(pods, uid);
    OrdinalOrderIsStrictWeakIff(owned);
    SortSorts(ByOrdinal(), owned);
    SortPermutes(ByOrdinal(), owned);
    forall p | p in out ensures Ordinal(p.name).Some? {
      SortMembers(ByOrdinal(), owned, p);
    }
    forall i, j | 0 <= i < j < |out| ensures Ordinal(out[i].name).value <= Ordinal(out[j].name).value {
      assert !ByOrdinal()(out[j], out[i]);
      assert out[i] in out && out[j] in out;
    }
  }

  // ---- The blocker and the replicas that do not exist ----

  function LacksReadiness(p: PodObject): bool {
    !PodReady(p)
  }

  function FirstUnready(ps: seq<PodObject>): Option<PodObject> {
    FirstWhere(LacksReadiness, ps)
  }

  method FindFirstUnready(ps: seq<PodObject>) returns (p: Option<PodObject>)
    ensures p == FirstUnready(ps)
  {
    for i := 0 to |ps|
      invariant FirstUnready(ps[..i]).None?
    {
      PrefixStep(ps, i);
      var ready := ScanReady(ps[i]);
      if !ready {
        FirstWherePrefix(LacksReadiness, ps, i + 1);
        return Some(ps[i]);
      }
    }
    assert ps[..|ps|] == ps;
    p := None;
  }

  /** In an ascending list the first unready Pod has the lowest ordinal of all unready ones. */
  lemma FirstUnreadyIsLowest(ps: seq<PodObject>)
    requires Ascending(ps)
    ensures FirstUnready(ps).None? <==> forall p :: p in ps ==> PodReady(p)
    ensures FirstUnready(ps).Some? ==>
              && FirstUnready(ps).value in ps && !PodReady(FirstUnready(ps).value)
              && forall p :: p in ps && !PodReady(p) ==> Ordinal(FirstUnready(ps).value.name).value <= Ordinal(p.name).value
  {
    FirstWhereFound(LacksReadiness, ps);
    if FirstUnready(ps).Some? {
      var i :| 0 <= i < |ps| && FirstUnready(ps).value == ps[i] && LacksReadiness(ps[i]) && forall j :: 0 <= j < i ==> !LacksReadiness(ps[j]);
      forall p | p in ps && !PodReady(p) ensures Ordinal(ps[i].name).value <= Ordinal(p.name).value {
        var j :| 0 <= j < |ps| && ps[j] == p;
      }
    }
  }

  predicate Present(ps: seq<PodObject>, n: int) {
    exists i :: 0 <= i < |ps| && Ordinal(ps[i].name).Some? && Ordinal(ps[i].name).value == n
  }

  function IsAbsent(ps: seq<PodObject>): int -> bool {
    (n: int) => !Present(ps, n)
  }

  function Range(n: int): seq<int> {
    Backends.Indices(if n < 0 then 0 else n)
  }

  function MissingOrdinals(ps: seq<PodObject>, desired: int): seq<int> {
    Filter(IsAbsent(ps), Range(desired))
  }

  method FindMissingOrdinals(ps: seq<PodObject>, desired: int) returns (out: seq<int>)
    ensures out == MissingOrdinals(ps, desired)
  {
    var present: map<int, bool> := map[];
    for i := 0 to |ps|
      invariant forall n :: n in present <==> Present(ps[..i], n)
    {
      forall n ensures Present(ps[..i + 1], n) <==> Present(ps[..i], n) || (Ordinal(ps[i].name).Some? && Ordinal(ps[i].name).value == n) {
        PresentStep(ps, i, n);
      }
      match Ordinal(ps[i].name) {
        case Some(n) => present := present[n := true];
        case None =>
      }
    }
    assert ps[..|ps|] == ps;
    out := [];
    var i := 0;
    while i < desired
      invariant 0 <= i && (i <= desired || i == 0)
      invariant out == Filter(IsAbsent(ps), Backends.Indices(i))
    {
      assert Front(Backends.Indices(i + 1)) == Backends.Indices(i) && Last(Backends.Indices(i + 1)) == i;
      if i !in present {
        out := out + [i];
      }
      i := i + 1;
    }
  }

  lemma PresentStep(ps: seq<PodObject>, i: nat, n: int)
    requires i < |ps|
    ensures Present(ps[..i + 1], n) <==> Present(ps[..i], n) || (Ordinal(ps[i].name).Some? && Ordinal(ps[i].name).value == n)
  {
    assert ps[..i + 1][i] == ps[i];
    assert forall j :: 0 <= j < i ==> ps[..i + 1][j] == ps[..i][j];
  }

  /** Exactly the desired ordinals that no Pod carries, ascending. */
  lemma MissingIsComplement(ps: seq<PodObject>, desired: int)
    ensures forall m :: m in MissingOrdinals(ps, desired) <==> 0 <= m < desired && !Present(ps, m)
    ensures forall a, b :: 0 <= a < b < |MissingOrdinals(ps, desired)| ==> MissingOrdinals(ps, desired)[a] < MissingOrdinals(ps, desired)[b]
  {
    Backends.FilterRange(IsAbsent(ps), if desired < 0 then 0 else desired);
  }

  /** The Pods present are the replicas 0 .. k-1. */
  ghost predicate InitialRun(ps: seq<PodObject>, k: nat) {
    AllOrdinal(ps) && forall n :: Present(ps, n) <==> 0 <= n < k
  }

  /** Every never-created replica lies after a given replica that exists exactly when all the desired
      replicas before that one exist too. */
  lemma MissingAfterIff(ps: seq<PodObject>, desired: int, blocker: int)
    requires Present(ps, blocker)
    ensures (forall m :: m in MissingOrdinals(ps, desired) ==> m > blocker)
       <==> (forall n :: 0 <= n < blocker && n < desired ==> Present(ps, n))
  {
    MissingIsComplement(ps, desired);
  }

  /** Under ordered creation, where the Pods present form an initial run, every replica reported as
      never created comes after the Pod that blocks it. */
  lemma NeverCreatedFollowBlocker(ps: seq<PodObject>, desired: int, k: nat)
    requires InitialRun(ps, k) && FirstUnready(ps).Some?
    ensures Ordinal(FirstUnready(ps).value.name).Some?
    ensures forall m :: m in MissingOrdinals(ps, desired) ==> m > Ordinal(FirstUnready(ps).value.name).value
  {
    FirstWhereFound(LacksReadiness, ps);
    var i :| 0 <= i < |ps| && FirstUnready(ps).value == ps[i];
    assert ps[i] in ps;
    assert Present(ps, Ordinal(ps[i].name).value);
    MissingAfterIff(ps, desired, Ordinal(ps[i].name).value);
  }
}
