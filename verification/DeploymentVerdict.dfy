/** The findings and the verdict about a Deployment as a table over its fields. */
module DeploymentVerdict {
  import opened Sequences
  import opened Model
  import opened Collecting
  import opened Pods
  import opened PodRules
  import opened Assembly
  import opened Reports
  import opened Deployments
  import Backends

  function Ref(d: DeploymentObject): ResourceRef {
    ResourceRef("Deployment", d.ns, d.name)
  }

  /** One replica unless the spec says otherwise. */
  function Wanted(d: DeploymentObject): int {
    match d.replicas
    case None => 1
    case Some(n) => n
  }

  predicate Short(d: DeploymentObject) {
    Wanted(d) != 0 && !d.paused && d.available < Wanted(d)
  }

  predicate Overdue(d: DeploymentObject) {
    d.progressing.Some? && d.progressing.value.status == "False" && d.progressing.value.reason == "ProgressDeadlineExceeded"
  }

  predicate RollingOut(d: DeploymentObject) {
    d.progressing.Some? && d.progressing.value.status == "True" && d.progressing.value.reason == "ReplicaSetUpdated"
  }

  predicate SaysIntent(d: DeploymentObject, m: Mark) {
    || (Wanted(d) == 0 && m == Mark(DeploymentScaledToZero, Ref(d), "", Info))
    || (d.paused && m == Mark(DeploymentPaused, Ref(d), "", Warning))
  }

  predicate SaysCondition(d: DeploymentObject, m: Mark) {
    || (d.replicaFailure && m == Mark(DeploymentReplicaFailure, Ref(d), "", Critical))
    || (Overdue(d) && m == Mark(DeploymentProgressDeadlineExceeded, Ref(d), "", Critical))
    || (RollingOut(d) && m == Mark(DeploymentRolloutInProgress, Ref(d), "", Info))
  }

  predicate SaysShort(d: DeploymentObject, m: Mark) {
    Short(d) && m == Mark(DeploymentUnavailableReplicas, Ref(d), "", if d.available <= 0 then Critical else Warning)
  }

  /** What is to be reported about the Deployment itself. */
  predicate DeploymentSays(d: DeploymentObject, m: Mark) {
    SaysIntent(d, m) || SaysCondition(d, m) || SaysShort(d, m)
  }

  lemma IntentSays(say: Wording, snap: DeploymentSnap, m: Mark)
    ensures Marked(IntentRule(say, snap), m) <==> SaysIntent(snap.deployment, m)
  {
    var d := snap.deployment;
    var a := if d.Desired() == 0 then [Finding(DeploymentScaledToZero, snap.Ref(), "", Info, Certain, say(DeploymentScaledToZero, 0, []))] else [];
    var b := if d.paused then [Finding(DeploymentPaused, snap.Ref(), "", Warning, Certain, say(DeploymentPaused, 0, []))] else [];
    assert IntentRule(say, snap) == a + b;
    MarkedConcat(a, b, m);
    MarkedOne(a, m);
    MarkedOne(b, m);
  }

  lemma ProgressSays(say: Wording, snap: DeploymentSnap, b: seq<Diagnosis>, m: Mark)
    requires b == ConditionRule(say, snap)[if snap.deployment.replicaFailure then 1 else 0..]
    ensures Marked(b, m) <==>
              || (Overdue(snap.deployment) && m == Mark(DeploymentProgressDeadlineExceeded, Ref(snap.deployment), "", Critical))
              || (RollingOut(snap.deployment) && m == Mark(DeploymentRolloutInProgress, Ref(snap.deployment), "", Info))
  {
    MarkedOne(b, m);
  }

  lemma ConditionSays(say: Wording, snap: DeploymentSnap, m: Mark)
    ensures Marked(ConditionRule(say, snap), m) <==> SaysCondition(snap.deployment, m)
  {
    var d := snap.deployment;
    var a := if d.replicaFailure then [Finding(DeploymentReplicaFailure, snap.Ref(), "", Critical, Certain, say(DeploymentReplicaFailure, 0, []))] else [];
    var b := ConditionRule(say, snap)[|a|..];
    assert ConditionRule(say, snap) == a + b;
    MarkedConcat(a, b, m);
    MarkedOne(a, m);
    ProgressSays(say, snap, b, m);
  }

  lemma AvailabilitySays(say: Wording, snap: DeploymentSnap, m: Mark)
    ensures Marked(AvailabilityRule(say, snap), m) <==> SaysShort(snap.deployment, m)
  {
    MarkedOne(AvailabilityRule(say, snap), m);
  }

  /** The Deployment rules report exactly what the table says. */
  lemma DeploymentRulesSay(say: Wording, snap: DeploymentSnap, m: Mark)
    ensures Marked(DeploymentFindings(say, snap), m) <==> DeploymentSays(snap.deployment, m)
  {
    IntentSays(say, snap, m);
    ConditionSays(say, snap, m);
    AvailabilitySays(say, snap, m);
    DeploymentRuleOutputs(say, snap);
    MarkedEvaluated(DeploymentRules(say), snap, m);
  }

  lemma DeploymentReportSays(env: Env, api: DeploymentApi, order: seq<int>, ords: seq<MapOrder>, m: Mark)
    requires |ords| == |CollectedPods(api)|
    ensures Marked(DeploymentDiagnoses(env, CollectedDeployment(api, order), ords), m)
       <==> DeploymentSays(api.deployment, m) || Marked(AggregatedPods(env, CollectedPods(api), ords), m)
  {
    var snap := CollectedDeployment(api, order);
    DeploymentRulesSay(env.say, snap, m);
    AssembledMarked(DeploymentFindings(env.say, snap), AggregatedPods(env, snap.pods, ords), SYMPTOMS, m);
  }

  predicate DeploymentBroken(d: DeploymentObject) {
    d.replicaFailure || Overdue(d) || (Short(d) && d.available <= 0)
  }

  predicate DeploymentShaky(d: DeploymentObject) {
    d.paused || (Short(d) && d.available > 0)
  }

  lemma DeploymentSeverities(d: DeploymentObject)
    ensures DeploymentBroken(d) <==> exists m: Mark :: m.severity == Critical && DeploymentSays(d, m)
    ensures DeploymentShaky(d) <==> exists m: Mark :: m.severity == Warning && DeploymentSays(d, m)
  {
    var r := Ref(d);
    assert DeploymentSays(d, Mark(DeploymentReplicaFailure, r, "", Critical)) <==> d.replicaFailure;
    assert DeploymentSays(d, Mark(DeploymentProgressDeadlineExceeded, r, "", Critical)) <==> Overdue(d);
    assert DeploymentSays(d, Mark(DeploymentUnavailableReplicas, r, "", Critical)) <==> Short(d) && d.available <= 0;
    assert DeploymentSays(d, Mark(DeploymentUnavailableReplicas, r, "", Warning)) <==> Short(d) && d.available > 0;
    assert DeploymentSays(d, Mark(DeploymentPaused, r, "", Warning)) <==> d.paused;
  }

  ghost function DeploymentStatus(env: Env, api: DeploymentApi, ords: seq<MapOrder>): Status
    requires |ords| == |CollectedPods(api)|
  {
    var found := AggregatedPods(env, CollectedPods(api), ords);
    if DeploymentBroken(api.deployment) || Has(found, Critical) then Unhealthy
    else if DeploymentShaky(api.deployment) || Has(found, Warning) then Degraded
    else if EverythingRead(api) then Healthy
    else Status.Unknown
  }

  /** The exact status of a Deployment report, for every API behaviour, schedule and wording. */
  lemma ExactDeploymentStatus(env: Env, api: DeploymentApi, order: seq<int>, ords: seq<MapOrder>)
    requires Backends.Covers(order, |Backends.NeedEvents(PodsOf(api))|) && |ords| == |CollectedPods(api)|
    ensures Verdict(DeploymentDiagnoses(env, CollectedDeployment(api, order), ords), CollectedDeployment(api, order).degradations)
         == DeploymentStatus(env, api, ords)
  {
    var ds, found := DeploymentDiagnoses(env, CollectedDeployment(api, order), ords), AggregatedPods(env, CollectedPods(api), ords);
    HasMarked(ds, Critical);
    HasMarked(ds, Warning);
    HasMarked(found, Critical);
    HasMarked(found, Warning);
    forall m ensures Marked(ds, m) <==> DeploymentSays(api.deployment, m) || Marked(found, m) {
      DeploymentReportSays(env, api, order, ords, m);
    }
    DeploymentSeverities(api.deployment);
    DeploymentReadIff(api, order);
  }
}
