/** From the API to the report (internal/analyze): collection, rules, linking and verdict of each kind
    of resource, with what the final status promises for every API behaviour. */
module Analysis {
  import opened Sequences
  import opened Names
  import opened Model
  import opened Pods
  import opened PodRules
  import opened Assembly
  import opened Reports
  import PodCollect
  import PodVerdict
  import PodHealth
  import ServiceVerdict
  import ClaimVerdict
  import DeploymentVerdict
  import SetVerdict
  import IngressVerdict
  import Backends
  import Services
  import Claims
  import StatefulSets
  import Deployments
  import Ingresses
  import IngressRules
  import Engine
  import ReportOrder
  import Rendering

  /** Backend Pods carry no maps, so there is only one way to walk them. */
  const NO_ORDER := MapOrder([], [], [], [], [], [], [])

  function NoOrders(n: nat): seq<MapOrder> {
    seq(n, _ => NO_ORDER)
  }

  lemma NothingToWalk(pods: seq<PodSnap>)
    requires forall i :: 0 <= i < |pods| ==> pods[i].configMaps == map[] && pods[i].secrets == map[] && pods[i].claims == map[]
    ensures Walked(pods, NoOrders(|pods|))
  {
    var none: seq<string> := [];
    assert (set x | x in none) == {};
    forall i | 0 <= i < |pods| ensures OrderOf(NoOrders(|pods|)[i], pods[i]) {
      assert NoOrders(|pods|)[i] == NO_ORDER;
      assert Enumerates(none, pods[i].configMaps.Keys) && Enumerates(none, pods[i].secrets.Keys) && Enumerates(none, pods[i].claims.Keys);
    }
  }

  lemma BackendsHaveNoMaps(pods: seq<PodObject>, now: int, fetch: Backends.Fetch)
    ensures forall i :: 0 <= i < |pods| ==>
              var s := Backends.BackendSnaps(pods, now, fetch)[i];
              s.configMaps == map[] && s.secrets == map[] && s.claims == map[]
  {
    var snaps := Backends.BackendSnaps(pods, now, fetch);
    forall i | 0 <= i < |pods| ensures snaps[i].configMaps == map[] && snaps[i].secrets == map[] && snaps[i].claims == map[] {
      assert snaps[i] == Backends.BackendSnapAt(pods, now, fetch, i);
    }
  }

  method Conclude(resource: ResourceRef, diagnoses: seq<Diagnosis>, degradations: seq<Degradation>) returns (report: Report)
    requires Engine.InOrder(diagnoses)
    ensures fresh(report) && report.diagnoses == diagnoses && report.degradations == degradations
    ensures report.status == Verdict(diagnoses, degradations)
    ensures Rendering.ConsequencesHeaded(report.diagnoses)
  {
    Rendering.ReportHeadings(diagnoses);
    report := new Report(resource, diagnoses, degradations, []);
    var _ := report.DeriveStatus();
  }

  method WalkMaps(snap: PodSnap) returns (ord: MapOrder)
    ensures OrderOf(ord, snap)
  {
    var a := AnyKeys(snap.configMaps.Keys);
    var b := AnyKeys(snap.secrets.Keys);
    var c := AnyKeys(snap.claims.Keys);
    var d := AnyKeys(snap.configMaps.Keys);
    var e := AnyKeys(snap.secrets.Keys);
    var f := AnyKeys(snap.claims.Keys);
    var g := AnyKeys(snap.claims.Keys);
    ord := MapOrder(a, b, c, d, e, f, g);
  }

  method AnalyzePod(env: Env, api: PodCollect.PodApi) returns (report: Report)
    ensures fresh(report) && NoDanglingCause(report.diagnoses)
    ensures Engine.InOrder(report.diagnoses) && Rendering.ConsequencesHeaded(report.diagnoses)
    ensures report.status == Healthy <==> PodCollect.EverythingRead(api) && Calm(report.diagnoses)
    ensures report.status == PodVerdict.TableVerdict(PodCollect.CollectedPod(api), PodCollect.EverythingRead(api))
    ensures report.diagnoses == [] ==> PodReady(api.pod) || PodCollect.CollectedPod(api).IsTerminal()
    ensures forall name :: PodCollect.NamesAbsent(report.diagnoses, PodMissingConfigMap, "configmap", name) ==> api.configMap(name).NotFound?
    ensures forall name :: PodCollect.NamesAbsent(report.diagnoses, PodMissingSecret, "secret", name) ==> api.secret(name).NotFound?
    ensures forall name :: PodCollect.NamesAbsent(report.diagnoses, PodPVCNotFound, "persistentvolumeclaim", name) ==> api.claim(name).NotFound?
  {
    var snap := PodCollect.CollectPod(api);
    var ord := WalkMaps(snap);
    var found := ExplainPod(env, snap, ord);
    PodFacts(env, api, ord);
    ReportOrder.PodReportInOrder(env, snap, ord);
    PodVerdict.ExactPodVerdict(env, api, ord);
    report := Conclude(snap.Ref(), found, snap.degradations);
  }

  lemma PodFacts(env: Env, api: PodCollect.PodApi, ord: MapOrder)
    requires OrderOf(ord, PodCollect.CollectedPod(api))
    ensures var out := PodCollect.PodReport(env, api, ord);
            && NoDanglingCause(out)
            && (Verdict(out, PodCollect.CollectedPod(api).degradations) == Healthy <==> PodCollect.EverythingRead(api) && Calm(out))
            && (out == [] ==> PodReady(api.pod) || PodCollect.CollectedPod(api).IsTerminal())
            && (forall n :: PodCollect.NamesAbsent(out, PodMissingConfigMap, "configmap", n) ==> api.configMap(n).NotFound?)
            && (forall n :: PodCollect.NamesAbsent(out, PodMissingSecret, "secret", n) ==> api.secret(n).NotFound?)
            && (forall n :: PodCollect.NamesAbsent(out, PodPVCNotFound, "persistentvolumeclaim", n) ==> api.claim(n).NotFound?)
  {
    PodCollect.PodReportNoDanglingCause(env, api, ord);
    PodCollect.DegradedIff(api);
    HealthyIff(PodCollect.PodReport(env, api, ord), PodCollect.CollectedPod(api).degradations);
    PodCollect.FallbackWarns(env, PodCollect.CollectedPod(api));
    AbsenceFacts(env, api, ord);
  }

  lemma AbsenceFacts(env: Env, api: PodCollect.PodApi, ord: MapOrder)
    requires OrderOf(ord, PodCollect.CollectedPod(api))
    ensures forall n :: PodCollect.NamesAbsent(PodCollect.PodReport(env, api, ord), PodMissingConfigMap, "configmap", n) ==> api.configMap(n).NotFound?
    ensures forall n :: PodCollect.NamesAbsent(PodCollect.PodReport(env, api, ord), PodMissingSecret, "secret", n) ==> api.secret(n).NotFound?
    ensures forall n :: PodCollect.NamesAbsent(PodCollect.PodReport(env, api, ord), PodPVCNotFound, "persistentvolumeclaim", n) ==> api.claim(n).NotFound?
  {
    var out := PodCollect.PodReport(env, api, ord);
    forall n | PodCollect.NamesAbsent(out, PodMissingConfigMap, "configmap", n) ensures api.configMap(n).NotFound? {
      PodCollect.ConfigMapNamedAbsentIff(env, api, ord, n);
    }
    forall n | PodCollect.NamesAbsent(out, PodMissingSecret, "secret", n) ensures api.secret(n).NotFound? {
      PodCollect.SecretNamedAbsentIff(env, api, ord, n);
    }
    forall n | PodCollect.NamesAbsent(out, PodPVCNotFound, "persistentvolumeclaim", n) ensures api.claim(n).NotFound? {
      PodCollect.ClaimNamedAbsentIff(env, api, ord, n);
    }
  }

  method AnalyzeService(env: Env, api: Services.ServiceApi) returns (report: Report)
    ensures fresh(report) && NoDanglingCause(report.diagnoses)
    ensures Engine.InOrder(report.diagnoses) && Rendering.ConsequencesHeaded(report.diagnoses)
    ensures Services.EverythingRead(api) && (api.service.external || Services.Reachable(api)) ==> report.status == Healthy
    ensures report.status == Healthy ==> Services.EverythingRead(api) && (api.service.external || Services.Published(api))
    ensures PodHealth.HistoryApart(env.say) && report.status == Healthy ==> api.service.external || Services.Reachable(api)
    ensures report.status == ServiceVerdict.ServiceStatus(env, api, NoOrders(|Services.BackendsBehind(api)|))
  {
    var snap;
    ghost var order;
    snap, order := Services.CollectService(api);
    var ords := NoOrders(|snap.BackendPods()|);
    if snap.backends.Some? {
      BackendsHaveNoMaps(api.pods.value, api.now, api.podEvents);
    }
    NothingToWalk(snap.BackendPods());
    var rules := Services.ServiceRules(env.say);
    var findings := Engine.Evaluate(rules, snap, |rules|);
    var backends := Services.CollectBackendFindings(env, snap, ords);
    var all := Assemble(findings, backends, {ServiceNoReadyEndpoints});
    Services.ServiceNoDanglingCause(env, api, order, ords);
    ReportOrder.ServiceReportInOrder(env, snap, ords);
    report := Conclude(snap.Ref(), all, snap.degradations);
    Services.HealthyServiceIff(env, api, order, ords);
    ServiceVerdict.ExactServiceStatus(env, api, order, ords);
  }

  method AnalyzeClaim(env: Env, api: Claims.ClaimApi) returns (report: Report)
    ensures fresh(report) && NoDanglingCause(report.diagnoses)
    ensures Engine.InOrder(report.diagnoses) && Rendering.ConsequencesHeaded(report.diagnoses)
    ensures report.status == Healthy <==> Claims.EverythingRead(api) && Claims.BoundOrAwaited(api)
    ensures report.status == ClaimVerdict.ClaimStatus(api)
  {
    var snap;
    ghost var order;
    snap, order := Claims.CollectClaim(api);
    var rules := Claims.ClaimRules(env.say);
    var found := Engine.Evaluate(rules, snap, |rules|);
    if found == [] {
      found := Claims.Fallback(env.say, snap);
    }
    Claims.ClaimReportNoDanglingCause(env.say, api, order);
    Claims.HealthyClaimIff(env.say, api, order);
    ClaimVerdict.ExactClaimStatus(env.say, api, order);
    ReportOrder.ClaimReportInOrder(env.say, snap);
    report := Conclude(snap.Ref(), found, snap.degradations);
  }

  method AnalyzeDeployment(env: Env, api: Deployments.DeploymentApi) returns (report: Report)
    ensures fresh(report) && NoDanglingCause(report.diagnoses)
    ensures Engine.InOrder(report.diagnoses) && Rendering.ConsequencesHeaded(report.diagnoses)
    ensures Deployments.EverythingRead(api) && Deployments.RolledOut(api.deployment) && PodHealth.AllWell(Deployments.CollectedPods(api)) ==>
              report.status == Healthy
    ensures report.status == Healthy ==> Deployments.EverythingRead(api) && Deployments.RolledOut(api.deployment)
    ensures PodHealth.HistoryApart(env.say) && report.status == Healthy ==> PodHealth.AllWell(Deployments.CollectedPods(api))
    ensures report.status == DeploymentVerdict.DeploymentStatus(env, api, NoOrders(|Deployments.CollectedPods(api)|))
  {
    var snap;
    ghost var order;
    snap, order := Deployments.CollectDeployment(api);
    var ords := NoOrders(|snap.pods|);
    BackendsHaveNoMaps(Deployments.PodsOf(api), api.now, api.podEvents);
    NothingToWalk(snap.pods);
    var rules := Deployments.DeploymentRules(env.say);
    var findings := Engine.Evaluate(rules, snap, |rules|);
    var pods := AggregatePods(env, snap.pods, ords);
    var all := Assemble(findings, pods, Deployments.SYMPTOMS);
    Deployments.DeploymentNoDanglingCause(env, api, order, ords);
    Deployments.HealthyDeploymentIff(env, api, order, ords);
    DeploymentVerdict.ExactDeploymentStatus(env, api, order, ords);
    ReportOrder.DeploymentReportInOrder(env, snap, ords);
    report := Conclude(snap.Ref(), all, snap.degradations);
  }

  method AnalyzeStatefulSet(env: Env, api: StatefulSets.SetApi) returns (report: Report)
    ensures fresh(report) && NoDanglingCause(report.diagnoses)
    ensures Engine.InOrder(report.diagnoses) && Rendering.ConsequencesHeaded(report.diagnoses)
    ensures StatefulSets.EverythingRead(api) && StatefulSets.Provided(api) && StatefulSets.PodsWellOrHeld(api, StatefulSets.SnapsOf(api)) ==>
              report.status == Healthy
    ensures report.status == Healthy ==> StatefulSets.EverythingRead(api) && StatefulSets.Provided(api)
    ensures PodHealth.HistoryApart(env.say) && report.status == Healthy ==> StatefulSets.PodsWellOrHeld(api, StatefulSets.SnapsOf(api))
    ensures report.status == SetVerdict.SetStatus(env, api, NoOrders(|StatefulSets.OwnedPods(api)|))
  {
    var snap;
    ghost var order;
    snap, order := StatefulSets.CollectSet(api);
    var ords := NoOrders(|snap.pods|);
    BackendsHaveNoMaps(StatefulSets.OwnedPods(api), api.now, api.podEvents);
    NothingToWalk(snap.pods);
    var keys := AnyKeys(snap.claims.Keys);
    var rules := StatefulSets.SetRules(env.say, keys);
    var findings := Engine.Evaluate(rules, snap, |rules|);
    var pods := StatefulSets.EvaluatePods(env, snap, ords);
    var all := Assemble(findings, pods, {StatefulSetUnavailableReplicas});
    StatefulSets.SetReportNoDanglingCause(env, api, order, keys, ords);
    ReportOrder.SetReportInOrder(env, snap, keys, ords);
    report := Conclude(snap.Ref(), all, snap.degradations);
    StatefulSets.HealthySetIff(env, api, order, keys, ords);
    SetVerdict.ExactSetStatus(env, api, order, keys, ords);
  }

  lemma IngressPodsHaveNoMaps(api: Ingresses.IngressApi, resolved: Ingresses.Log, order: seq<string>)
    ensures var pods := IngressRules.PodsBehindIngress(Ingresses.CollectedIngress(api, resolved), order);
            forall i :: 0 <= i < |pods| ==> pods[i].configMaps == map[] && pods[i].secrets == map[] && pods[i].claims == map[]
  {
    var snap := Ingresses.CollectedIngress(api, resolved);
    var pods := IngressRules.PodsBehindIngress(snap, order);
    forall i | 0 <= i < |pods| ensures pods[i].configMaps == map[] && pods[i].secrets == map[] && pods[i].claims == map[] {
      IngressRules.BackendPodOrigin(api, resolved, order, pods[i]);
    }
  }

  method AnalyzeIngress(env: Env, api: Ingresses.IngressApi) returns (report: Report)
    ensures fresh(report) && NoDanglingCause(report.diagnoses)
    ensures Engine.InOrder(report.diagnoses) && Rendering.ConsequencesHeaded(report.diagnoses)
    ensures IngressRules.EverythingRead(api) && IngressRules.Routed(api) && IngressRules.PodsWell(api) ==> report.status == Healthy
    ensures report.status == Healthy ==> IngressRules.EverythingRead(api) && IngressRules.Routed(api)
    ensures PodHealth.HistoryApart(env.say) && report.status == Healthy ==> IngressRules.PodsWell(api)
    ensures report.status == IngressVerdict.IngressStatus(env, api, NoOrders(|IngressRules.PodsLookedAt(api)|))
  {
    var snap;
    ghost var resolved;
    snap, resolved := Ingresses.CollectIngress(api);
    var keys := AnyKeys(snap.services.Keys);
    var rules := IngressRules.IngressRuleSet(env.say, keys);
    var findings := Engine.Evaluate(rules, snap, |rules|);
    var behind := IngressRules.PodsBehindIngress(snap, keys);
    IngressPodsHaveNoMaps(api, resolved, keys);
    NothingToWalk(behind);
    IngressRules.PodsAlike(api, resolved, keys);
    var ords := NoOrders(|behind|);
    var pods := AggregatePods(env, behind, ords);
    var all := Assemble(findings, pods, {IngressServiceNoEndpoints});
    IngressRules.IngressNoDanglingCause(env, api, resolved, keys, ords);
    ReportOrder.IngressReportInOrder(env, snap, keys, ords);
    report := Conclude(snap.Ref(), all, snap.degradations);
    IngressRules.HealthyIngressIff(env, api, resolved, keys, ords);
    IngressVerdict.ExactIngressStatus(env, api, resolved, keys, ords);
  }
}
