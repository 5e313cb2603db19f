/** Putting findings together into one report (internal/analyze, and Aggregated of
    internal/diagnosis/rules/pod/pod.go). */
module Assembly {
  import opened Sequences
  import opened Model
  import opened Pods
  import opened PodRules
  import opened PodTheorems
  import opened Reports
  import Aggregation
  import Engine
  import Backends

  /** What one Pod contributes: its findings, or the fallback when no rule could explain it. */
  function Explained(env: Env, snap: PodSnap, ord: MapOrder): seq<Diagnosis> {
    if PodFindings(env, snap, ord) == [] then Fallback(env, snap) else PodFindings(env, snap, ord)
  }

  method ExplainPod(env: Env, snap: PodSnap, ord: MapOrder) returns (found: seq<Diagnosis>)
    ensures found == Explained(env, snap, ord)
  {
    found := Engine.Evaluate(Rules(env, ord), snap, |Rules(env, ord)|);
    if found == [] {
      found := Fallback(env, snap);
    }
  }

  /** What several Pods contribute, in their order; `ords[i]` is how the maps of the i-th are walked. */
  function Gathered(f: (PodSnap, MapOrder) -> seq<Diagnosis>, pods: seq<PodSnap>, ords: seq<MapOrder>): seq<Diagnosis>
    requires |pods| == |ords|
  {
    if pods == [] then [] else Gathered(f, Front(pods), Front(ords)) + f(Last(pods), Last(ords))
  }

  function ExplainedBy(env: Env): (PodSnap, MapOrder) -> seq<Diagnosis> {
    (snap: PodSnap, ord: MapOrder) => Explained(env, snap, ord)
  }

  function AllExplained(env: Env, pods: seq<PodSnap>, ords: seq<MapOrder>): seq<Diagnosis>
    requires |pods| == |ords|
  {
    Gathered(ExplainedBy(env), pods, ords)
  }

  function AggregatedPods(env: Env, pods: seq<PodSnap>, ords: seq<MapOrder>): seq<Diagnosis>
    requires |pods| == |ords|
  {
    Aggregation.Aggregated(AllExplained(env, pods, ords), |pods|)
  }

  method AggregatePods(env: Env, pods: seq<PodSnap>, ords: seq<MapOrder>) returns (out: seq<Diagnosis>)
    requires |pods| == |ords|
    ensures out == AggregatedPods(env, pods, ords)
  {
    var all := [];
    for i := 0 to |pods|
      invariant all == AllExplained(env, pods[..i], ords[..i])
    {
      PrefixStep(pods, i);
      PrefixStep(ords, i);
      var found := ExplainPod(env, pods[i], ords[i]);
      all := all + found;
    }
    assert pods[..|pods|] == pods && ords[..|ords|] == ords;
    out := Aggregation.AggregateByRule(all, |pods|);
  }

  /** Findings that are symptoms of what the Pods show point at the most widespread Pod finding. */
  function LinkTo(symptoms: set<FindingID>, cause: FindingID): Diagnosis -> Diagnosis {
    (d: Diagnosis) => if d.id in symptoms then d.(causedBy := cause) else d
  }

  function Linked(findings: seq<Diagnosis>, podFindings: seq<Diagnosis>, symptoms: set<FindingID>): seq<Diagnosis> {
    if podFindings == [] then findings else Map(LinkTo(symptoms, podFindings[0].id), findings)
  }

  /** The diagnoses of a report about a workload, a Service or an Ingress. */
  function Assembled(findings: seq<Diagnosis>, podFindings: seq<Diagnosis>, symptoms: set<FindingID>): seq<Diagnosis> {
    Engine.Prioritized(Linked(findings, podFindings, symptoms) + podFindings)
  }

  method Assemble(findings: seq<Diagnosis>, podFindings: seq<Diagnosis>, symptoms: set<FindingID>) returns (out: seq<Diagnosis>)
    ensures out == Assembled(findings, podFindings, symptoms)
  {
    var linked := findings;
    if |podFindings| > 0 {
      var cause := podFindings[0].id;
      for i := 0 to |findings|
        invariant |linked| == |findings|
        invariant forall j :: 0 <= j < i ==> linked[j] == LinkTo(symptoms, cause)(findings[j])
        invariant forall j :: i <= j < |findings| ==> linked[j] == findings[j]
      {
        if linked[i].id in symptoms {
          linked := linked[i := linked[i].(causedBy := cause)];
        }
      }
      assert linked == Linked(findings, podFindings, symptoms);
    }
    out := Engine.Prioritize(linked + podFindings);
  }

  // ---- No dangling cause, through aggregation and linking ----

  lemma ClosedConcat(a: seq<Diagnosis>, b: seq<Diagnosis>)
    requires NoDanglingCause(a) && NoDanglingCause(b)
    ensures NoDanglingCause(a + b)
  {
    forall d | d in a + b && d.causedBy != NoID ensures exists e :: e in a + b && e.id == d.causedBy {
      if d in a {
        var e :| e in a && e.id == d.causedBy;
        assert e in a + b;
      } else {
        var e :| e in b && e.id == d.causedBy;
        assert e in a + b;
      }
    }
  }

  lemma ExplainedClosed(env: Env, snap: PodSnap, ord: MapOrder)
    requires CollectorShaped(snap) && OrderOf(ord, snap)
    ensures NoDanglingCause(Explained(env, snap, ord))
  {
    PodNoDanglingCause(env, snap, ord);
    assert NoDanglingCause(Fallback(env, snap));
  }

  ghost predicate Collected(pods: seq<PodSnap>, ords: seq<MapOrder>) {
    |pods| == |ords| && forall i :: 0 <= i < |pods| ==> CollectorShaped(pods[i]) && OrderOf(ords[i], pods[i])
  }

  /** Each map of each Pod is walked in some order. */
  ghost predicate Walked(pods: seq<PodSnap>, ords: seq<MapOrder>) {
    |pods| == |ords| && forall i :: 0 <= i < |pods| ==> OrderOf(ords[i], pods[i])
  }

  /** Pods collected as backends are collector-shaped whatever the API answers. */
  lemma BackendsAreCollected(pods: seq<PodObject>, now: int, fetch: Backends.Fetch, ords: seq<MapOrder>)
    requires Walked(Backends.BackendSnaps(pods, now, fetch), ords)
    ensures Collected(Backends.BackendSnaps(pods, now, fetch), ords)
  {
    var snaps := Backends.BackendSnaps(pods, now, fetch);
    forall i | 0 <= i < |snaps| ensures CollectorShaped(snaps[i]) {
      assert snaps[i] == Backends.BackendSnapAt(pods, now, fetch, i);
    }
  }

  lemma {:induction false} InGathered(f: (PodSnap, MapOrder) -> seq<Diagnosis>, pods: seq<PodSnap>, ords: seq<MapOrder>, d: Diagnosis)
    requires |pods| == |ords|
    ensures d in Gathered(f, pods, ords) <==> exists i :: 0 <= i < |pods| && d in f(pods[i], ords[i])
  {
    if pods != [] {
      assert forall i :: 0 <= i < |pods| - 1 ==> Front(pods)[i] == pods[i] && Front(ords)[i] == ords[i];
      InGathered(f, Front(pods), Front(ords), d);
    }
  }

  lemma GatheredCalm(f: (PodSnap, MapOrder) -> seq<Diagnosis>, pods: seq<PodSnap>, ords: seq<MapOrder>)
    requires |pods| == |ords|
    ensures Calm(Gathered(f, pods, ords)) <==> forall i :: 0 <= i < |pods| ==> Calm(f(pods[i], ords[i]))
  {
    forall d ensures d in Gathered(f, pods, ords) <==> exists i :: 0 <= i < |pods| && d in f(pods[i], ords[i]) {
      InGathered(f, pods, ords, d);
    }
  }

  lemma {:induction false} GatheredClosed(f: (PodSnap, MapOrder) -> seq<Diagnosis>, pods: seq<PodSnap>, ords: seq<MapOrder>)
    requires |pods| == |ords| && forall i :: 0 <= i < |pods| ==> NoDanglingCause(f(pods[i], ords[i]))
    ensures NoDanglingCause(Gathered(f, pods, ords))
  {
    if pods != [] {
      assert forall i :: 0 <= i < |pods| - 1 ==> Front(pods)[i] == pods[i] && Front(ords)[i] == ords[i];
      GatheredClosed(f, Front(pods), Front(ords));
      ClosedConcat(Gathered(f, Front(pods), Front(ords)), f(Last(pods), Last(ords)));
    }
  }

  lemma AllExplainedClosed(env: Env, pods: seq<PodSnap>, ords: seq<MapOrder>)
    requires Collected(pods, ords)
    ensures NoDanglingCause(AllExplained(env, pods, ords))
  {
    var f := ExplainedBy(env);
    forall i | 0 <= i < |pods| ensures NoDanglingCause(f(pods[i], ords[i])) {
      ExplainedClosed(env, pods[i], ords[i]);
    }
    GatheredClosed(f, pods, ords);
  }

  lemma AggregatedPodsClosed(env: Env, pods: seq<PodSnap>, ords: seq<MapOrder>)
    requires Collected(pods, ords)
    ensures NoDanglingCause(AggregatedPods(env, pods, ords))
  {
    AllExplainedClosed(env, pods, ords);
    Aggregation.AggregateKeepsCauses(AllExplained(env, pods, ords), |pods|);
  }

  lemma ClosedPermutation(a: seq<Diagnosis>, b: seq<Diagnosis>)
    requires NoDanglingCause(a) && forall d :: d in a <==> d in b
    ensures NoDanglingCause(b)
  {
    forall d | d in b && d.causedBy != NoID ensures exists e :: e in b && e.id == d.causedBy {
      var e :| e in a && e.id == d.causedBy;
    }
  }

  /** Rewriting findings without touching identifiers or links keeps every cause in place. */
  lemma ClosedSameLinks(a: seq<Diagnosis>, b: seq<Diagnosis>)
    requires |a| == |b| && NoDanglingCause(a)
    requires forall i :: 0 <= i < |a| ==> a[i].id == b[i].id && a[i].causedBy == b[i].causedBy
    ensures NoDanglingCause(b)
  {
    forall d | d in b && d.causedBy != NoID ensures exists e :: e in b && e.id == d.causedBy {
      var i :| 0 <= i < |b| && b[i] == d;
      assert a[i] in a && a[i].causedBy == d.causedBy;
      var e :| e in a && e.id == a[i].causedBy;
      var j :| 0 <= j < |a| && a[j] == e;
      assert b[j] in b && b[j].id == e.id;
    }
  }

  lemma LinkedAt(findings: seq<Diagnosis>, podFindings: seq<Diagnosis>, symptoms: set<FindingID>, i: nat)
    requires i < |findings|
    ensures var linked := Linked(findings, podFindings, symptoms);
            && |linked| == |findings| && linked[i].id == findings[i].id
            && (linked[i].causedBy == findings[i].causedBy || (podFindings != [] && linked[i].causedBy == podFindings[0].id))
  {
  }

  /** A report assembled from closed findings is closed: the link it adds names a Pod finding. */
  lemma AssembledClosed(findings: seq<Diagnosis>, podFindings: seq<Diagnosis>, symptoms: set<FindingID>)
    requires NoDanglingCause(findings) && NoDanglingCause(podFindings)
    ensures NoDanglingCause(Assembled(findings, podFindings, symptoms))
  {
    var linked := Linked(findings, podFindings, symptoms);
    var all := linked + podFindings;
    forall d | d in all && d.causedBy != NoID ensures exists e :: e in all && e.id == d.causedBy {
      if d in podFindings {
        var e :| e in podFindings && e.id == d.causedBy;
        assert e in all;
      } else {
        var i :| 0 <= i < |linked| && linked[i] == d;
        LinkedCause(findings, podFindings, symptoms, i);
      }
    }
    Engine.PrioritizePermutes(all);
    ClosedPermutation(all, Engine.Prioritized(all));
  }

  lemma LinkedCause(findings: seq<Diagnosis>, podFindings: seq<Diagnosis>, symptoms: set<FindingID>, i: nat)
    requires NoDanglingCause(findings) && i < |Linked(findings, podFindings, symptoms)| == |findings|
    requires Linked(findings, podFindings, symptoms)[i].causedBy != NoID
    ensures exists e :: e in Linked(findings, podFindings, symptoms) + podFindings && e.id == Linked(findings, podFindings, symptoms)[i].causedBy
  {
    var linked := Linked(findings, podFindings, symptoms);
    LinkedAt(findings, podFindings, symptoms, i);
    if podFindings != [] && linked[i].causedBy == podFindings[0].id {
      assert podFindings[0] in linked + podFindings;
    } else {
      assert findings[i] in findings;
      var e :| e in findings && e.id == findings[i].causedBy;
      var j :| 0 <= j < |findings| && findings[j] == e;
      LinkedAt(findings, podFindings, symptoms, j);
      assert linked[j] in linked + podFindings;
    }
  }

  lemma HasConcat(a: seq<Diagnosis>, b: seq<Diagnosis>, s: Severity)
    ensures Has(a + b, s) <==> Has(a, s) || Has(b, s)
  {
    assert forall d :: d in a + b <==> d in a || d in b;
  }

  lemma LinkedHas(findings: seq<Diagnosis>, podFindings: seq<Diagnosis>, symptoms: set<FindingID>, s: Severity)
    ensures Has(Linked(findings, podFindings, symptoms), s) <==> Has(findings, s)
  {
    var linked := Linked(findings, podFindings, symptoms);
    assert |linked| == |findings| && forall i :: 0 <= i < |findings| ==> linked[i].severity == findings[i].severity;
    if Has(findings, s) {
      var d :| d in findings && d.severity == s;
      var i :| 0 <= i < |findings| && findings[i] == d;
      assert linked[i] in linked;
    }
    if Has(linked, s) {
      var d :| d in linked && d.severity == s;
      var i :| 0 <= i < |linked| && linked[i] == d;
      assert findings[i] in findings;
    }
  }

  /** What stands in an assembled report: the Pod findings, and the rules' findings, of which exactly the
      symptoms blame the first Pod finding. */
  lemma InAssembled(findings: seq<Diagnosis>, podFindings: seq<Diagnosis>, symptoms: set<FindingID>, d: Diagnosis)
    ensures d in Assembled(findings, podFindings, symptoms) <==>
              || d in podFindings
              || exists f :: f in findings && d == if podFindings != [] && f.id in symptoms then f.(causedBy := podFindings[0].id) else f
  {
    var linked := Linked(findings, podFindings, symptoms);
    Engine.PrioritizePermutes(linked + podFindings);
    assert forall i :: 0 <= i < |findings| ==>
             linked[i] == if podFindings != [] && findings[i].id in symptoms then findings[i].(causedBy := podFindings[0].id) else findings[i];
    if d in linked {
      var i :| 0 <= i < |linked| && linked[i] == d;
      assert findings[i] in findings;
    }
    forall f | f in findings && d == (if podFindings != [] && f.id in symptoms then f.(causedBy := podFindings[0].id) else f) ensures d in linked {
      var i :| 0 <= i < |findings| && findings[i] == f;
      assert linked[i] == d;
    }
  }

  lemma AssembledMarked(findings: seq<Diagnosis>, podFindings: seq<Diagnosis>, symptoms: set<FindingID>, m: Mark)
    ensures Marked(Assembled(findings, podFindings, symptoms), m) <==> Marked(findings, m) || Marked(podFindings, m)
  {
    var out := Assembled(findings, podFindings, symptoms);
    if Marked(out, m) {
      var d :| d in out && Bears(d, m);
      InAssembled(findings, podFindings, symptoms, d);
    }
    if Marked(findings, m) {
      var f :| f in findings && Bears(f, m);
      var d := if podFindings != [] && f.id in symptoms then f.(causedBy := podFindings[0].id) else f;
      InAssembled(findings, podFindings, symptoms, d);
      assert Bears(d, m);
    }
    if Marked(podFindings, m) {
      var d :| d in podFindings && Bears(d, m);
      InAssembled(findings, podFindings, symptoms, d);
    }
  }

  /** Linking and ordering keep every finding's severity, so what the rules and the Pods show is
      what the verdict sees. */
  lemma AssembledHas(findings: seq<Diagnosis>, podFindings: seq<Diagnosis>, symptoms: set<FindingID>, s: Severity)
    ensures Has(Assembled(findings, podFindings, symptoms), s) <==> Has(findings, s) || Has(podFindings, s)
  {
    LinkedHas(findings, podFindings, symptoms, s);
    HasConcat(Linked(findings, podFindings, symptoms), podFindings, s);
    Engine.PrioritizePermutes(Linked(findings, podFindings, symptoms) + podFindings);
  }

  /** An assembled report is calm exactly when the rules and the Pods are. */
  lemma AssembledCalm(findings: seq<Diagnosis>, podFindings: seq<Diagnosis>, symptoms: set<FindingID>)
    ensures Calm(Assembled(findings, podFindings, symptoms)) <==> Calm(findings) && Calm(podFindings)
  {
    var out := Assembled(findings, podFindings, symptoms);
    AssembledHas(findings, podFindings, symptoms, Critical);
    AssembledHas(findings, podFindings, symptoms, Warning);
    CalmHas(out);
    CalmHas(findings);
    CalmHas(podFindings);
  }

  lemma CalmHas(ds: seq<Diagnosis>)
    ensures Calm(ds) <==> !Has(ds, Critical) && !Has(ds, Warning)
  {
  }
}
