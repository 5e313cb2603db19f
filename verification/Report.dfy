/** The report and its verdict (internal/diagnosis/report.go). */
module Reports {
  import opened Sequences
  import opened GroupBy
  import opened Model
  import opened Aggregation
  import Engine

  datatype Status = Healthy | Degraded | Unhealthy | Unknown

  datatype Item = Item(key: string, value: string, note: string)

  datatype Section = Section(title: string, items: seq<Item>, tree: seq<string>)

  datatype Contents = Contents(
    resource: ResourceRef, status: Status, headline: string, diagnoses: seq<Diagnosis>,
    overview: seq<Section>, degradations: seq<Degradation>, inspected: seq<string>)

  ghost predicate Has(ds: seq<Diagnosis>, s: Severity) {
    exists d :: d in ds && d.severity == s
  }

  /** A finding without its wording, its evidence and its links. */
  datatype Mark = Mark(id: FindingID, subject: ResourceRef, component: string, severity: Severity)

  ghost predicate Bears(d: Diagnosis, m: Mark) {
    d.id == m.id && d.subject == m.subject && d.component == m.component && d.severity == m.severity
  }

  ghost predicate Marked(ds: seq<Diagnosis>, m: Mark) {
    exists d :: d in ds && Bears(d, m)
  }

  lemma HasMarked(ds: seq<Diagnosis>, v: Severity)
    ensures Has(ds, v) <==> exists m: Mark :: m.severity == v && Marked(ds, m)
  {
    if Has(ds, v) {
      var d :| d in ds && d.severity == v;
      var m := Mark(d.id, d.subject, d.component, v);
      assert Bears(d, m);
      assert Marked(ds, m);
    }
  }

  lemma MarkedConcat(a: seq<Diagnosis>, b: seq<Diagnosis>, m: Mark)
    ensures Marked(a + b, m) <==> Marked(a, m) || Marked(b, m)
  {
    assert forall d :: d in a + b <==> d in a || d in b;
  }

  lemma MarkedOne(ds: seq<Diagnosis>, m: Mark)
    requires |ds| <= 1
    ensures Marked(ds, m) <==> ds != [] && Bears(ds[0], m)
  {
  }

  lemma MarkedFlatMap<T>(f: T -> seq<Diagnosis>, s: seq<T>, m: Mark)
    ensures Marked(FlatMap(f, s), m) <==> exists i :: 0 <= i < |s| && Marked(f(s[i]), m)
  {
    if Marked(FlatMap(f, s), m) {
      var d :| d in FlatMap(f, s) && Bears(d, m);
      InFlatMap(f, s, d);
      var i :| 0 <= i < |s| && d in f(s[i]);
      assert Marked(f(s[i]), m);
    }
    if exists i :: 0 <= i < |s| && Marked(f(s[i]), m) {
      var i :| 0 <= i < |s| && Marked(f(s[i]), m);
      var d :| d in f(s[i]) && Bears(d, m);
      InFlatMap(f, s, d);
    }
  }

  lemma MarkedBySome<T>(f: T -> seq<Diagnosis>, s: seq<T>, m: Mark)
    ensures Marked(FlatMap(f, s), m) <==> exists x :: x in s && Marked(f(x), m)
  {
    MarkedFlatMap(f, s, m);
    if Marked(FlatMap(f, s), m) {
      var i :| 0 <= i < |s| && Marked(f(s[i]), m);
      assert s[i] in s;
    }
  }

  /** A list bears the marks of the lists it is made of. */
  lemma MarkedEvaluated<S>(rules: seq<Engine.Rule<S>>, snap: S, m: Mark)
    ensures Marked(Engine.Evaluated(rules, snap, |rules|), m) <==> exists r :: 0 <= r < |rules| && Marked(rules[r](snap), m)
  {
    var out := Engine.Evaluated(rules, snap, |rules|);
    if Marked(out, m) {
      var d :| d in out && Bears(d, m);
      Engine.InEvaluated(rules, snap, d);
      var r :| 0 <= r < |rules| && d in rules[r](snap);
      assert Marked(rules[r](snap), m);
    }
    forall r | 0 <= r < |rules| && Marked(rules[r](snap), m) ensures Marked(out, m) {
      var d :| d in rules[r](snap) && Bears(d, m);
      Engine.InEvaluated(rules, snap, d);
    }
  }

  /** What the status means, without naming the loop that computes it. */
  ghost function Verdict(ds: seq<Diagnosis>, degradations: seq<Degradation>): Status {
    if Has(ds, Critical) then Unhealthy
    else if Has(ds, Warning) then Degraded
    else if degradations != [] then Unknown
    else Healthy
  }

  /** Nothing above info. */
  ghost predicate Calm(ds: seq<Diagnosis>) {
    forall d :: d in ds ==> d.severity != Critical && d.severity != Warning
  }

  lemma HealthyIff(ds: seq<Diagnosis>, degradations: seq<Degradation>)
    ensures Verdict(ds, degradations) == Healthy <==> Calm(ds) && degradations == []
  {
    assert Calm(ds) <==> !Has(ds, Critical) && !Has(ds, Warning);
  }

  lemma {:induction false} CalmFlatMap<T>(f: T -> seq<Diagnosis>, s: seq<T>)
    ensures Calm(FlatMap(f, s)) <==> forall x :: x in s ==> Calm(f(x))
  {
    if s != [] {
      CalmFlatMap(f, Front(s));
      Snoc(s);
      CalmConcat(FlatMap(f, Front(s)), f(Last(s)));
    }
  }

  lemma CalmConcat(a: seq<Diagnosis>, b: seq<Diagnosis>)
    ensures Calm(a + b) <==> Calm(a) && Calm(b)
  {
    assert forall d :: d in a + b <==> d in a || d in b;
  }

  class Report {
    var resource: ResourceRef
    var status: Status
    var headline: string
    var diagnoses: seq<Diagnosis>
    var overview: seq<Section>
    var degradations: seq<Degradation>
    var inspected: seq<string>

    constructor (resource: ResourceRef, diagnoses: seq<Diagnosis>, degradations: seq<Degradation>, inspected: seq<string>)
      ensures this.resource == resource && this.diagnoses == diagnoses
      ensures this.degradations == degradations && this.inspected == inspected
      ensures overview == [] && headline == ""
    {
      this.resource, this.diagnoses := resource, diagnoses;
      this.degradations, this.inspected := degradations, inspected;
      overview, headline, status := [], "", Unknown;
    }

    function Value(): Contents
      reads this
    {
      Contents(resource, status, headline, diagnoses, overview, degradations, inspected)
    }

    /** A section is kept exactly when it carries at least one fact. */
    method AddSection(s: Section)
      modifies this`overview
      ensures overview == old(overview) + if s.items == [] && s.tree == [] then [] else [s]
    {
      if s.items == [] && s.tree == [] {
        return;
      }
      overview := overview + [s];
    }

    method DeriveStatus() returns (s: Status)
      modifies this`status
      ensures s == status == Verdict(diagnoses, degradations)
    {
      status := Healthy;
      for i := 0 to |diagnoses|
        invariant status == Verdict(diagnoses[..i], [])
      {
        PrefixStep(diagnoses, i);
        HasSnoc(diagnoses[..i], diagnoses[i]);
        match diagnoses[i].severity {
          case Critical => status := Unhealthy;
          case Warning => if status != Unhealthy { status := Degraded; }
          case _ =>
        }
      }
      assert diagnoses[..|diagnoses|] == diagnoses;
      if status == Healthy && |degradations| > 0 {
        status := Unknown;
      }
      s := status;
    }
  }

  lemma HasSnoc(ds: seq<Diagnosis>, d: Diagnosis)
    ensures forall s :: Has(ds + [d], s) <==> Has(ds, s) || d.severity == s
  {
    forall s ensures Has(ds + [d], s) <==> Has(ds, s) || d.severity == s {
      if Has(ds, s) {
        var e :| e in ds && e.severity == s;
        assert e in ds + [d];
      }
      if d.severity == s {
        assert d in ds + [d];
      }
    }
  }

  /** Reordering findings never changes the verdict. */
  lemma VerdictPermutation(a: seq<Diagnosis>, b: seq<Diagnosis>, degradations: seq<Degradation>)
    requires multiset(a) == multiset(b)
    ensures Verdict(a, degradations) == Verdict(b, degradations)
  {
    assert forall d :: d in a <==> d in multiset(a);
    assert forall d :: d in b <==> d in multiset(b);
    assert forall s :: Has(a, s) <==> Has(b, s);
  }

  lemma VerdictOfPrioritized(ds: seq<Diagnosis>, degradations: seq<Degradation>)
    ensures Verdict(Engine.Prioritized(ds), degradations) == Verdict(ds, degradations)
  {
    Engine.PrioritizePermutes(ds);
    VerdictPermutation(Engine.Prioritized(ds), ds, degradations);
  }

  /** How bad a severity or a verdict is; "unknown" and "healthy" blame nothing. */
  function Seriousness(s: Severity): nat {
    if s == Critical then 2 else if s == Warning then 1 else 0
  }

  function Blame(s: Status): nat {
    if s == Unhealthy then 2 else if s == Degraded then 1 else 0
  }

  /** Some finding of the worst severity is the first of its aggregation key. */
  ghost predicate WorstIsFirst(ds: seq<Diagnosis>) {
    exists i :: && 0 <= i < |ds| && HasKey(KeyOf, KeyOf(ds[i]), ds) && FirstIndex(KeyOf, KeyOf(ds[i]), ds) == i
                && forall d :: d in ds ==> Seriousness(d.severity) <= Seriousness(ds[i].severity)
  }

  lemma BlameBounds(ds: seq<Diagnosis>, degradations: seq<Degradation>)
    ensures forall d :: d in ds ==> Seriousness(d.severity) <= Blame(Verdict(ds, degradations))
    ensures Blame(Verdict(ds, degradations)) > 0 ==>
              exists d :: d in ds && Seriousness(d.severity) == Blame(Verdict(ds, degradations))
  {
    forall d | d in ds ensures Seriousness(d.severity) <= Blame(Verdict(ds, degradations)) {
      assert d.severity == Critical ==> Has(ds, Critical);
      assert d.severity == Warning ==> Has(ds, Warning);
    }
  }

  lemma AggregatedComesFromFirst(ds: seq<Diagnosis>, total: int, r: Diagnosis) returns (i: nat)
    requires r in Aggregated(ds, total)
    ensures i < |ds| && HasKey(KeyOf, KeyOf(ds[i]), ds) && FirstIndex(KeyOf, KeyOf(ds[i]), ds) == i
    ensures r.severity == ds[i].severity && r.id == ds[i].id
  {
    AggregateContents(ds, total, r);
    i := FirstIndex(KeyOf, KeyOf(r), ds);
  }

  lemma FirstIsAggregated(ds: seq<Diagnosis>, total: int, i: nat) returns (r: Diagnosis)
    requires i < |ds| && HasKey(KeyOf, KeyOf(ds[i]), ds) && FirstIndex(KeyOf, KeyOf(ds[i]), ds) == i
    ensures r in Aggregated(ds, total) && r.severity == ds[i].severity
  {
    AggregateGroups(ds, total);
    var out := Aggregated(ds, total);
    assert HasKey(KeyOf, KeyOf(ds[i]), out);
    var j :| 0 <= j < |out| && KeyOf(out[j]) == KeyOf(ds[i]);
    r := out[j];
    AggregateContents(ds, total, r);
  }

  /** Collapsing repeats never makes the verdict worse. */
  lemma AggregationNeverRaises(ds: seq<Diagnosis>, total: int, degradations: seq<Degradation>)
    ensures Blame(Verdict(Aggregated(ds, total), degradations)) <= Blame(Verdict(ds, degradations))
  {
    BlameBounds(Aggregated(ds, total), degradations);
    BlameBounds(ds, degradations);
    if Blame(Verdict(Aggregated(ds, total), degradations)) > 0 {
      var r :| r in Aggregated(ds, total) && Seriousness(r.severity) == Blame(Verdict(Aggregated(ds, total), degradations));
      var i := AggregatedComesFromFirst(ds, total, r);
      assert ds[i] in ds;
    }
  }

  /** It keeps the verdict exactly when nothing is wrong or a worst finding leads its group. */
  lemma AggregationKeepsVerdictIff(ds: seq<Diagnosis>, total: int, degradations: seq<Degradation>)
    ensures Verdict(Aggregated(ds, total), degradations) == Verdict(ds, degradations)
       <==> (Blame(Verdict(ds, degradations)) == 0 || WorstIsFirst(ds))
  {
    var out := Aggregated(ds, total);
    var b := Blame(Verdict(ds, degradations));
    BlameBounds(out, degradations);
    BlameBounds(ds, degradations);
    AggregationNeverRaises(ds, total, degradations);
    if b > 0 {
      if Verdict(out, degradations) == Verdict(ds, degradations) {
        var r :| r in out && Seriousness(r.severity) == b;
        var i := AggregatedComesFromFirst(ds, total, r);
      }
      if WorstIsFirst(ds) {
        var i :| && 0 <= i < |ds| && HasKey(KeyOf, KeyOf(ds[i]), ds) && FirstIndex(KeyOf, KeyOf(ds[i]), ds) == i
                 && forall d :: d in ds ==> Seriousness(d.severity) <= Seriousness(ds[i].severity);
        assert ds[i] in ds;
        var r := FirstIsAggregated(ds, total, i);
      }
    }
  }

  /** In particular it keeps it whenever findings that share a key share a severity. */
  lemma AggregationKeepsSharedSeverity(ds: seq<Diagnosis>, total: int, degradations: seq<Degradation>)
    requires forall a, b :: a in ds && b in ds && KeyOf(a) == KeyOf(b) ==> a.severity == b.severity
    ensures Verdict(Aggregated(ds, total), degradations) == Verdict(ds, degradations)
  {
    AggregationKeepsVerdictIff(ds, total, degradations);
    BlameBounds(ds, degradations);
    var b := Blame(Verdict(ds, degradations));
    if b > 0 {
      var d :| d in ds && Seriousness(d.severity) == b;
      var n :| 0 <= n < |ds| && ds[n] == d;
      assert KeyOf(ds[n]) == KeyOf(d);
      var i := FirstIndex(KeyOf, KeyOf(d), ds);
      assert ds[i] in ds && ds[i].severity == d.severity;
      assert KeyOf(ds[i]) == KeyOf(d);
    }
  }

  /** The finding at position `i` is the first of its aggregation key. */
  ghost predicate Leads(ds: seq<Diagnosis>, i: int) {
    0 <= i < |ds| && HasKey(KeyOf, KeyOf(ds[i]), ds) && FirstIndex(KeyOf, KeyOf(ds[i]), ds) == i
  }

  ghost predicate LeadersCalm(ds: seq<Diagnosis>) {
    forall i :: Leads(ds, i) ==> ds[i].severity != Critical && ds[i].severity != Warning
  }

  /** What a calm collapsed list means: the findings that lead their groups are calm. */
  lemma CalmAfterAggregationIff(ds: seq<Diagnosis>, total: int)
    ensures Calm(Aggregated(ds, total)) <==> LeadersCalm(ds)
    ensures Calm(ds) ==> LeadersCalm(ds)
  {
    var out := Aggregated(ds, total);
    if Calm(out) {
      forall i | Leads(ds, i) ensures ds[i].severity != Critical && ds[i].severity != Warning {
        var r := FirstIsAggregated(ds, total, i);
      }
    }
    if LeadersCalm(ds) {
      forall r | r in out ensures r.severity != Critical && r.severity != Warning {
        var i := AggregatedComesFromFirst(ds, total, r);
        assert Leads(ds, i);
      }
    }
  }

  /** The condition is needed: a milder finding in front hides a critical one of the same key. */
  lemma MilderFirstHidesCritical(mild: Diagnosis, worse: Diagnosis, total: int, degradations: seq<Degradation>)
    requires KeyOf(mild) == KeyOf(worse) && mild.severity == Warning && worse.severity == Critical
    ensures Verdict([mild, worse], degradations) == Unhealthy
    ensures Verdict(Aggregated([mild, worse], total), degradations) == Degraded
  {
    var ds := [mild, worse];
    assert worse in ds && mild in ds;
    assert Has(ds, Critical);
    AggregationKeepsVerdictIff(ds, total, degradations);
    assert ds[0] == mild && ds[1] == worse;
    var r := FirstIsAggregatedWarning(ds, total);
    assert Has(Aggregated(ds, total), Warning);
  }

  lemma FirstIsAggregatedWarning(ds: seq<Diagnosis>, total: int) returns (r: Diagnosis)
    requires |ds| > 0 && ds[0].severity == Warning
    ensures r in Aggregated(ds, total) && r.severity == Warning
  {
    assert HasKey(KeyOf, KeyOf(ds[0]), ds);
    r := FirstIsAggregated(ds, total, 0);
  }
}
