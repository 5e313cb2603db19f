/** Every report lists known severities only, in the engine's order, so the promises about the order
    and the headings of prioritised findings are promises about the reports. */
module ReportOrder {
  import opened Sequences
  import opened Model
  import opened Pods
  import opened PodRules
  import opened Reports
  import opened Assembly
  import opened Engine
  import StableSort
  import Names
  import Aggregation
  import PodTheorems
  import PodHealth
  import Services
  import Claims
  import Deployments
  import StatefulSets
  import IngressRules
  import Ingresses

  // ---- Known severities through every stage ----

  lemma KnownFlatMap<T>(f: T -> seq<Diagnosis>, s: seq<T>)
    requires forall x :: x in s ==> KnownSeverities(f(x))
    ensures KnownSeverities(FlatMap(f, s))
  {
    forall d | d in FlatMap(f, s) ensures !d.severity.OtherSeverity? {
      InFlatMap(f, s, d);
      var i :| 0 <= i < |s| && d in f(s[i]);
      assert s[i] in s;
    }
  }

  lemma AggregatedKnown(ds: seq<Diagnosis>, total: int)
    requires KnownSeverities(ds)
    ensures KnownSeverities(Aggregation.Aggregated(ds, total))
  {
    forall r | r in Aggregation.Aggregated(ds, total) ensures !r.severity.OtherSeverity? {
      var i := AggregatedComesFromFirst(ds, total, r);
      assert ds[i] in ds;
    }
  }

  lemma GatheredKnown(f: (PodSnap, MapOrder) -> seq<Diagnosis>, pods: seq<PodSnap>, ords: seq<MapOrder>)
    requires |pods| == |ords| && forall i :: 0 <= i < |pods| ==> KnownSeverities(f(pods[i], ords[i]))
    ensures KnownSeverities(Gathered(f, pods, ords))
  {
    forall d | d in Gathered(f, pods, ords) ensures !d.severity.OtherSeverity? {
      InGathered(f, pods, ords, d);
    }
  }

  lemma ExplainedKnown(env: Env, snap: PodSnap, ord: MapOrder)
    ensures KnownSeverities(PodTheorems.PodFindings(env, snap, ord)) && KnownSeverities(Explained(env, snap, ord))
  {
    PodHealth.ExplainedWorded(env, snap, ord);
  }

  lemma AggregatedPodsKnown(env: Env, pods: seq<PodSnap>, ords: seq<MapOrder>)
    requires |pods| == |ords|
    ensures KnownSeverities(AggregatedPods(env, pods, ords))
  {
    var f := ExplainedBy(env);
    forall i | 0 <= i < |pods| ensures KnownSeverities(f(pods[i], ords[i])) {
      ExplainedKnown(env, pods[i], ords[i]);
    }
    GatheredKnown(f, pods, ords);
    AggregatedKnown(Gathered(f, pods, ords), |pods|);
  }

  lemma AssembledInOrder(findings: seq<Diagnosis>, podFindings: seq<Diagnosis>, symptoms: set<FindingID>)
    requires KnownSeverities(findings) && KnownSeverities(podFindings)
    ensures InOrder(Assembled(findings, podFindings, symptoms))
  {
    var out := Assembled(findings, podFindings, symptoms);
    forall d | d in out ensures !d.severity.OtherSeverity? {
      assert Has(out, d.severity);
      AssembledHas(findings, podFindings, symptoms, d.severity);
    }
    PrioritizedInOrder(Linked(findings, podFindings, symptoms) + podFindings);
  }

  lemma EvaluatedInOrder<S>(rules: seq<Rule<S>>, snap: S)
    requires KnownSeverities(Evaluated(rules, snap, |rules|))
    ensures InOrder(Evaluated(rules, snap, |rules|))
  {
    PrioritizedInOrder(FlatMap(FindingsOf(snap), rules));
  }

  lemma EvaluatedCauseFirst<S>(rules: seq<Rule<S>>, snap: S, i: nat, j: nat)
    requires KnownSeverities(Evaluated(rules, snap, |rules|)) && i < |Evaluated(rules, snap, |rules|)| && j < |Evaluated(rules, snap, |rules|)|
    requires Evaluated(rules, snap, |rules|)[j].causedBy == Evaluated(rules, snap, |rules|)[i].id != NoID
    requires forall d :: d in Evaluated(rules, snap, |rules|) ==> d.causedBy != Evaluated(rules, snap, |rules|)[j].id || d.causedBy == NoID
    ensures i < j <==> SeverityRank(Evaluated(rules, snap, |rules|)[i].severity) <= SeverityRank(Evaluated(rules, snap, |rules|)[j].severity)
  {
    var all := FlatMap(FindingsOf(snap), rules);
    PrioritizePermutes(all);
    CausePrecedesConsequenceIff(all, i, j);
  }

  lemma AtMostOneInOrder(ds: seq<Diagnosis>)
    requires |ds| <= 1 && KnownSeverities(ds)
    ensures InOrder(ds)
  {
    if ds != [] {
      assert StableSort.Sort(Before(CausesOf(ds)), Front(ds)) == [];
    }
  }

  // ---- The reports ----

  lemma PodReportInOrder(env: Env, snap: PodSnap, ord: MapOrder)
    ensures InOrder(Explained(env, snap, ord))
  {
    ExplainedKnown(env, snap, ord);
    if PodTheorems.PodFindings(env, snap, ord) == [] {
      AtMostOneInOrder(Fallback(env, snap));
    } else {
      EvaluatedInOrder(Rules(env, ord), snap);
    }
  }

  lemma ClaimRulesKnown(say: Wording, snap: Claims.ClaimSnap)
    ensures KnownSeverities(Claims.StorageClassRule(say, snap)) && KnownSeverities(Claims.ProvisioningRule(say, snap))
    ensures KnownSeverities(Claims.ConsumerRule(say, snap)) && KnownSeverities(Claims.LostRule(say, snap))
  {
  }

  lemma ClaimFindingsKnown(say: Wording, snap: Claims.ClaimSnap)
    ensures KnownSeverities(Claims.ClaimFindings(say, snap))
  {
    ClaimRulesKnown(say, snap);
    forall d | d in Claims.ClaimFindings(say, snap) ensures !d.severity.OtherSeverity? {
      Claims.InClaimFindings(say, snap, d);
    }
  }

  lemma ClaimReportInOrder(say: Wording, snap: Claims.ClaimSnap)
    ensures InOrder(Claims.ClaimDiagnoses(say, snap))
  {
    ClaimFindingsKnown(say, snap);
    if Claims.ClaimFindings(say, snap) == [] {
      AtMostOneInOrder(Claims.Fallback(say, snap));
    } else {
      EvaluatedInOrder(Claims.ClaimRules(say), snap);
    }
  }

  lemma ServiceFindingsKnown(env: Env, snap: Services.ServiceSnap)
    ensures KnownSeverities(Services.ServiceFindings(env, snap))
  {
    var declared := Services.DeclaredPortNames(snap.BackendPods());
    var f := Services.TargetPortOf(env.say, snap, declared);
    forall p ensures KnownSeverities(f(p)) {
      assert f(p) == Services.TargetPort(env.say, snap, declared, p);
    }
    KnownFlatMap(f, snap.service.ports);
    forall d | d in Services.ServiceFindings(env, snap) ensures !d.severity.OtherSeverity? {
      Services.InServiceFindings(env, snap, d);
    }
  }

  lemma DemotedKnown(ds: seq<Diagnosis>)
    requires KnownSeverities(ds)
    ensures KnownSeverities(Map(Services.Demote, ds))
  {
    var out := Map(Services.Demote, ds);
    forall d | d in out ensures !d.severity.OtherSeverity? {
      var i :| 0 <= i < |out| && out[i] == d;
      assert d == Services.Demote(ds[i]) && ds[i] in ds;
    }
  }

  lemma ServiceReportInOrder(env: Env, snap: Services.ServiceSnap, ords: seq<MapOrder>)
    requires |ords| == |snap.BackendPods()|
    ensures InOrder(Services.ServiceDiagnoses(env, snap, ords))
  {
    ServiceFindingsKnown(env, snap);
    AggregatedPodsKnown(env, snap.BackendPods(), ords);
    DemotedKnown(AggregatedPods(env, snap.BackendPods(), ords));
    AssembledInOrder(Services.ServiceFindings(env, snap), Services.BackendFindings(env, snap, ords), {ServiceNoReadyEndpoints});
  }

  lemma DeploymentRulesKnown(say: Wording, snap: Deployments.DeploymentSnap)
    ensures KnownSeverities(Deployments.IntentRule(say, snap)) && KnownSeverities(Deployments.ConditionRule(say, snap))
    ensures KnownSeverities(Deployments.AvailabilityRule(say, snap))
  {
  }

  lemma DeploymentFindingsKnown(say: Wording, snap: Deployments.DeploymentSnap)
    ensures KnownSeverities(Deployments.DeploymentFindings(say, snap))
  {
    DeploymentRulesKnown(say, snap);
    forall d | d in Deployments.DeploymentFindings(say, snap) ensures !d.severity.OtherSeverity? {
      Deployments.InDeploymentFindings(say, snap, d);
    }
  }

  lemma DeploymentReportInOrder(env: Env, snap: Deployments.DeploymentSnap, ords: seq<MapOrder>)
    requires |ords| == |snap.pods|
    ensures InOrder(Deployments.DeploymentDiagnoses(env, snap, ords))
  {
    DeploymentFindingsKnown(env.say, snap);
    AggregatedPodsKnown(env, snap.pods, ords);
    AssembledInOrder(Deployments.DeploymentFindings(env.say, snap), AggregatedPods(env, snap.pods, ords), Deployments.SYMPTOMS);
  }

  lemma SetClaimsKnown(say: Wording, snap: StatefulSets.SetSnap, order: seq<string>)
    ensures KnownSeverities(StatefulSets.SetClaimRule(say, snap, order))
  {
    var f := StatefulSets.SetClaimOf(say, snap);
    forall n ensures KnownSeverities(f(n)) {
      assert f(n) == StatefulSets.SetClaimFindings(say, snap, n);
    }
    KnownFlatMap(f, StableSort.Sort(Names.ByName(), order));
  }

  lemma SetRulesKnown(say: Wording, snap: StatefulSets.SetSnap)
    ensures KnownSeverities(StatefulSets.OrderingRule(say, snap)) && KnownSeverities(StatefulSets.ServiceRule(say, snap))
    ensures KnownSeverities(StatefulSets.UpdateRule(say, snap)) && KnownSeverities(StatefulSets.AvailabilityRule(say, snap))
  {
  }

  lemma SetFindingsKnown(say: Wording, snap: StatefulSets.SetSnap, order: seq<string>)
    ensures KnownSeverities(StatefulSets.SetFindings(say, snap, order))
  {
    SetClaimsKnown(say, snap, order);
    SetRulesKnown(say, snap);
    forall d | d in StatefulSets.SetFindings(say, snap, order) ensures !d.severity.OtherSeverity? {
      StatefulSets.InSetFindings(say, snap, order, d);
    }
  }

  lemma SetReportInOrder(env: Env, snap: StatefulSets.SetSnap, order: seq<string>, ords: seq<MapOrder>)
    requires |ords| == |snap.pods|
    ensures InOrder(StatefulSets.SetDiagnoses(env, snap, order, ords))
  {
    SetFindingsKnown(env.say, snap, order);
    var f := StatefulSets.ShownBy(env, snap);
    forall i | 0 <= i < |snap.pods| ensures KnownSeverities(f(snap.pods[i], ords[i])) {
      ExplainedKnown(env, snap.pods[i], ords[i]);
    }
    GatheredKnown(f, snap.pods, ords);
    AggregatedKnown(Gathered(f, snap.pods, ords), |snap.pods|);
    AssembledInOrder(StatefulSets.SetFindings(env.say, snap, order), StatefulSets.SetPodFindings(env, snap, ords), {StatefulSetUnavailableReplicas});
  }

  lemma IngressFindingsKnown(say: Wording, snap: Ingresses.IngressSnap, order: seq<string>)
    ensures KnownSeverities(IngressRules.IngressFindings(say, snap, order))
  {
    var f := IngressRules.FindingsFor(say, snap);
    forall n ensures KnownSeverities(f(n)) {
    }
    KnownFlatMap(f, StableSort.Sort(Names.ByName(), order));
    forall d | d in IngressRules.IngressFindings(say, snap, order) ensures !d.severity.OtherSeverity? {
      IngressRules.InIngressFindings(say, snap, order, d);
    }
  }

  lemma IngressReportInOrder(env: Env, snap: Ingresses.IngressSnap, order: seq<string>, ords: seq<MapOrder>)
    requires |ords| == |IngressRules.PodsBehindIngress(snap, order)|
    ensures InOrder(IngressRules.IngressDiagnoses(env, snap, order, ords))
  {
    var pods := IngressRules.PodsBehindIngress(snap, order);
    IngressFindingsKnown(env.say, snap, order);
    AggregatedPodsKnown(env, pods, ords);
    AssembledInOrder(IngressRules.IngressFindings(env.say, snap, order), AggregatedPods(env, pods, ords), {IngressServiceNoEndpoints});
  }
}
