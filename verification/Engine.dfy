/** Running rules and ordering their findings (internal/diagnosis/engine.go). */
module Engine {
  import opened Sequences
  import opened Model
  import opened StableSort

  type Rule<!S> = S -> seq<Diagnosis>

  function FindingsOf<S>(snap: S): Rule<S> -> seq<Diagnosis> {
    (rule: Rule<S>) => rule(snap)
  }

  /** The context allows `live` rules to start before it is cancelled. */
  function Evaluated<S>(rules: seq<Rule<S>>, snap: S, live: nat): seq<Diagnosis> {
    Prioritized(FlatMap(FindingsOf(snap), if live < |rules| then rules[..live] else rules))
  }

  method Evaluate<S>(rules: seq<Rule<S>>, snap: S, live: nat) returns (out: seq<Diagnosis>)
    ensures out == Evaluated(rules, snap, live)
  {
    var all := [];
    var i := 0;
    while i < |rules|
      invariant 0 <= i <= |rules| && i <= live
      invariant all == FlatMap(FindingsOf(snap), rules[..i])
    {
      if i >= live {
        break;
      }
      PrefixStep(rules, i);
      all := all + rules[i](snap);
      i := i + 1;
    }
    assert rules[..|rules|] == rules;
    out := Prioritize(all);
  }

  function CausesOf(ds: seq<Diagnosis>): set<FindingID> {
    set i | 0 <= i < |ds| && ds[i].causedBy != NoID :: ds[i].causedBy
  }

  /** Findings that explain another rank first within their severity, explained ones last. */
  function Weight(causes: set<FindingID>, d: Diagnosis): nat {
    if d.id in causes then 0 else if d.causedBy != NoID then 2 else 1
  }

  function Before(causes: set<FindingID>): (Diagnosis, Diagnosis) -> bool {
    (a: Diagnosis, b: Diagnosis) =>
      if a.severity != b.severity then SeverityRank(a.severity) < SeverityRank(b.severity)
      else if Weight(causes, a) != Weight(causes, b) then Weight(causes, a) < Weight(causes, b)
      else ConfidenceRank(a.confidence) < ConfidenceRank(b.confidence)
  }

  function Prioritized(ds: seq<Diagnosis>): seq<Diagnosis> {
    Sort(Before(CausesOf(ds)), ds)
  }

  method Prioritize(ds: seq<Diagnosis>) returns (out: seq<Diagnosis>)
    ensures out == Prioritized(ds)
  {
    if |ds| < 2 {
      if |ds| == 1 {
        assert Sort(Before(CausesOf(ds)), Front(ds)) == [];
      }
      return ds;
    }
    var causes := {};
    for i := 0 to |ds|
      invariant causes == CausesOf(ds[..i])
    {
      assert forall j :: 0 <= j < i ==> ds[..i + 1][j] == ds[..i][j];
      if ds[i].causedBy != NoID {
        assert ds[..i + 1][i] == ds[i];
        causes := causes + {ds[i].causedBy};
      }
    }
    assert ds[..|ds|] == ds;
    out := Sort(Before(causes), ds);
  }

  /** Two findings of one unrecognised severity that rank differently, with a finding of another
      unrecognised severity to stand between them. */
  ghost predicate Clash(causes: set<FindingID>, a: Diagnosis, b: Diagnosis, c: Diagnosis) {
    && a.severity.OtherSeverity? && b.severity.OtherSeverity? && a.severity == c.severity != b.severity
    && (Weight(causes, a) != Weight(causes, c) || ConfidenceRank(a.confidence) != ConfidenceRank(c.confidence))
  }

  ghost predicate Comparable(causes: set<FindingID>, ds: seq<Diagnosis>) {
    forall a, b, c :: a in ds && b in ds && c in ds ==> !Clash(causes, a, b, c)
  }

  ghost predicate KnownSeverities(ds: seq<Diagnosis>) {
    forall d :: d in ds ==> !d.severity.OtherSeverity?
  }

  /** The comparator is a strict weak order exactly when no three findings clash. */
  lemma ComparatorIsStrictWeakIff(causes: set<FindingID>, ds: seq<Diagnosis>)
    ensures StrictWeak(Before(causes), ds) <==> Comparable(causes, ds)
  {
    var less := Before(causes);
    if StrictWeak(less, ds) {
      forall a, b, c | a in ds && b in ds && c in ds ensures !Clash(causes, a, b, c) {
        assert !less(a, b) && !less(b, c) ==> !less(a, c);
        assert !less(c, b) && !less(b, a) ==> !less(c, a);
      }
    }
    if Comparable(causes, ds) {
      forall a, b, c | a in ds && b in ds && c in ds && !less(a, b) && !less(b, c) ensures !less(a, c) {
        assert !Clash(causes, a, b, c);
      }
    }
  }

  /** Two unrecognised severities are enough: "x" ranks level with "y" whatever its confidence, so "y"
      ties with two findings that do not tie with each other. */
  lemma ComparatorClashes(d: Diagnosis)
    ensures var a, b, c := d.(severity := OtherSeverity("x"), confidence := Certain), d.(severity := OtherSeverity("y")),
                           d.(severity := OtherSeverity("x"), confidence := Possible);
            !StrictWeak(Before({}), [a, b, c])
  {
    var a, b, c := d.(severity := OtherSeverity("x"), confidence := Certain), d.(severity := OtherSeverity("y")),
                   d.(severity := OtherSeverity("x"), confidence := Possible);
    var ds := [a, b, c];
    assert "x"[0] != "y"[0];
    assert ds[0] in ds && ds[1] in ds && ds[2] in ds;
    assert Clash({}, a, b, c);
    ComparatorIsStrictWeakIff({}, ds);
  }

  lemma CausesPermutation(a: seq<Diagnosis>, b: seq<Diagnosis>)
    requires multiset(a) == multiset(b)
    ensures CausesOf(a) == CausesOf(b)
  {
    forall x | x in CausesOf(a) ensures x in CausesOf(b) {
      var i :| 0 <= i < |a| && a[i].causedBy == x;
      assert a[i] in multiset(b);
    }
    forall x | x in CausesOf(b) ensures x in CausesOf(a) {
      var i :| 0 <= i < |b| && b[i].causedBy == x;
      assert b[i] in multiset(a);
    }
  }

  /** Nothing is lost or invented, whatever the severities are. */
  lemma PrioritizePermutes(ds: seq<Diagnosis>)
    ensures multiset(Prioritized(ds)) == multiset(ds)
    ensures forall d :: d in Prioritized(ds) <==> d in ds
    ensures CausesOf(Prioritized(ds)) == CausesOf(ds)
  {
    SortPermutes(Before(CausesOf(ds)), ds);
    forall d ensures d in Prioritized(ds) <==> d in ds {
      SortMembers(Before(CausesOf(ds)), ds, d);
    }
    CausesPermutation(Prioritized(ds), ds);
  }

  // ---- The order without the keys that compute it ----

  /** Some finding of the list blames this one. */
  ghost predicate Explains(ds: seq<Diagnosis>, d: Diagnosis) {
    exists k :: 0 <= k < |ds| && ds[k].causedBy != NoID && ds[k].causedBy == d.id
  }

  /** The finding blames another and is blamed by none. */
  ghost predicate OnlyExplained(ds: seq<Diagnosis>, d: Diagnosis) {
    !Explains(ds, d) && d.causedBy != NoID
  }

  ghost predicate SeverityFirst(a: Severity, b: Severity) {
    (a == Critical && b != Critical) || (a == Warning && (b == Info || b.OtherSeverity?)) || (a == Info && b.OtherSeverity?)
  }

  ghost predicate SurerThan(a: Confidence, b: Confidence) {
    || (a == Certain && b != Certain) || (a == Likely && (b == Possible || b.OtherConfidence?))
    || (a == Possible && b.OtherConfidence?)
  }

  /** `a` belongs before `b`: more serious; or as serious, and it explains another where `b` does not,
      or `b` is only explained where `a` is not; or alike in both, and surer. */
  ghost predicate BelongsBefore(ds: seq<Diagnosis>, a: Diagnosis, b: Diagnosis) {
    || SeverityFirst(a.severity, b.severity)
    || (a.severity == b.severity
        && (|| (Explains(ds, a) && !Explains(ds, b))
            || (OnlyExplained(ds, b) && !OnlyExplained(ds, a))
            || ((Explains(ds, a) <==> Explains(ds, b)) && (OnlyExplained(ds, a) <==> OnlyExplained(ds, b))
                && SurerThan(a.confidence, b.confidence))))
  }

  lemma BeforeMeans(ds: seq<Diagnosis>, a: Diagnosis, b: Diagnosis)
    ensures Before(CausesOf(ds))(a, b) <==> BelongsBefore(ds, a, b)
  {
    assert a.id in CausesOf(ds) <==> Explains(ds, a);
    assert b.id in CausesOf(ds) <==> Explains(ds, b);
  }

  /** Nothing stands before a finding that belongs before it, and findings of which neither does keep
      their order. */
  lemma PrioritizeSorts(ds: seq<Diagnosis>, i: nat, j: nat) returns (a: nat, b: nat)
    requires Comparable(CausesOf(ds), ds) && i < j < |Prioritized(ds)|
    ensures !BelongsBefore(ds, Prioritized(ds)[j], Prioritized(ds)[i])
    ensures !BelongsBefore(ds, Prioritized(ds)[i], Prioritized(ds)[j]) ==>
              a < b < |ds| && ds[a] == Prioritized(ds)[i] && ds[b] == Prioritized(ds)[j]
  {
    var causes, x, y := CausesOf(ds), Prioritized(ds)[i], Prioritized(ds)[j];
    ComparatorIsStrictWeakIff(causes, ds);
    SortSorts(Before(causes), ds);
    SortMembers(Before(causes), ds, x);
    SortMembers(Before(causes), ds, y);
    BeforeMeans(ds, x, y);
    BeforeMeans(ds, y, x);
    a, b := 0, 0;
    if !Before(causes)(x, y) {
      a, b := SortTieOrder(Before(causes), ds, i, j);
    }
  }

  lemma PrioritizeIdempotent(ds: seq<Diagnosis>)
    requires Comparable(CausesOf(ds), ds)
    ensures Prioritized(Prioritized(ds)) == Prioritized(ds)
  {
    ComparatorIsStrictWeakIff(CausesOf(ds), ds);
    PrioritizePermutes(ds);
    SortIdempotent(Before(CausesOf(ds)), ds);
  }

  /** What a report lists: known severities only, and already in order. */
  ghost predicate InOrder(ds: seq<Diagnosis>) {
    KnownSeverities(ds) && Prioritized(ds) == ds
  }

  lemma PrioritizedInOrder(ds: seq<Diagnosis>)
    requires KnownSeverities(Prioritized(ds))
    ensures InOrder(Prioritized(ds))
  {
    PrioritizePermutes(ds);
    PrioritizeIdempotent(ds);
  }

  /** Any other stable sort of the same list by the same comparator gives the same result. */
  lemma PrioritizeUnique(ds: seq<Diagnosis>, other: seq<Diagnosis>)
    requires Comparable(CausesOf(ds), ds)
    requires multiset(other) == multiset(ds) && Sorted(Before(CausesOf(ds)), other)
    requires forall g :: g in ds ==> Filter(TiedWith(Before(CausesOf(ds)), g), other) == Filter(TiedWith(Before(CausesOf(ds)), g), ds)
    ensures other == Prioritized(ds)
  {
    var less := Before(CausesOf(ds));
    ComparatorIsStrictWeakIff(CausesOf(ds), ds);
    PrioritizePermutes(ds);
    SortSorts(less, ds);
    forall g | g in Prioritized(ds) ensures Filter(TiedWith(less, g), Prioritized(ds)) == Filter(TiedWith(less, g), other) {
      assert forall y :: y in ds + [g] ==> y in ds;
      SortStable(less, ds, g);
    }
    SortUnique(less, Prioritized(ds), other);
  }

  /** A cause stands before a consequence that causes nothing itself exactly when the cause is at
      least as serious. The unconditional promise is false: see CauseAfterItsConsequence. */
  lemma CausePrecedesConsequenceIff(ds: seq<Diagnosis>, i: nat, j: nat)
    requires KnownSeverities(ds)
    requires i < |Prioritized(ds)| && j < |Prioritized(ds)|
    requires Prioritized(ds)[j].causedBy != NoID && Prioritized(ds)[i].id == Prioritized(ds)[j].causedBy
    requires Prioritized(ds)[j].id !in CausesOf(ds)
    ensures i < j <==> SeverityRank(Prioritized(ds)[i].severity) <= SeverityRank(Prioritized(ds)[j].severity)
  {
    PrioritizePermutes(ds);
    var r := Prioritized(ds);
    assert r[i].id in CausesOf(r) by {
      assert r[j].causedBy in CausesOf(r);
    }
    if i < j {
      var _, _ := PrioritizeSorts(ds, i, j);
    } else if j < i {
      var _, _ := PrioritizeSorts(ds, j, i);
    }
  }

  /** An info-level cause of a critical finding ends up after it. */
  lemma CauseAfterItsConsequence(cause: Diagnosis, effect: Diagnosis)
    requires cause.severity == Info && effect.severity == Critical
    requires cause.id != NoID && effect.causedBy == cause.id && cause.causedBy == NoID
    ensures Prioritized([cause, effect]) == [effect, cause]
  {
    var ds := [cause, effect];
    var less := Before(CausesOf(ds));
    assert Front(ds) == [cause] && Front([cause]) == [];
    assert Sort(less, [cause]) == [cause];
    assert less(effect, cause);
    assert Insert(less, [], effect) == [effect];
    assert Insert(less, [cause], effect) == [effect] + [cause];
  }

  lemma InEvaluated<S>(rules: seq<Rule<S>>, snap: S, d: Diagnosis)
    ensures d in Evaluated(rules, snap, |rules|) <==> exists r :: 0 <= r < |rules| && d in rules[r](snap)
  {
    var f, all := FindingsOf(snap), FlatMap(FindingsOf(snap), rules);
    SortMembers(Before(CausesOf(all)), all, d);
    InFlatMap(f, rules, d);
    assert forall r :: 0 <= r < |rules| ==> f(rules[r]) == rules[r](snap);
  }

  /** With a live context every rule contributes all its findings, and nothing else appears. */
  lemma EvaluateLive<S>(rules: seq<Rule<S>>, snap: S, live: nat)
    requires live >= |rules|
    ensures multiset(Evaluated(rules, snap, live)) == multiset(FlatMap(FindingsOf(snap), rules))
    ensures forall d :: d in Evaluated(rules, snap, live) <==> exists r :: 0 <= r < |rules| && d in rules[r](snap)
  {
    var all := FlatMap(FindingsOf(snap), rules);
    PrioritizePermutes(all);
    forall d ensures d in Evaluated(rules, snap, live) <==> exists r :: 0 <= r < |rules| && d in rules[r](snap) {
      InEvaluated(rules, snap, d);
    }
  }
}
