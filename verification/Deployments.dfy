/** Deployments: collection, rules and report (internal/collect/deployment.go,
    internal/diagnosis/rules/deployment, internal/analyze/deployment.go). */
module Deployments {
  import opened Sequences
  import opened Model
  import opened Events
  import opened Collecting
  import opened Pods
  import opened PodRules
  import opened Assembly
  import Services
  import Backends
  import Reports
  import Engine
  import PodHealth

  datatype Progress = Progress(status: string, reason: string)

  datatype DeploymentObject = DeploymentObject(
    name: string, ns: string, replicas: Option<int32>, paused: bool, available: int,
    replicaFailure: bool, progressing: Option<Progress>)
  {
    function Desired(): int {
      if replicas.Some? then replicas.value else 1
    }
  }

  datatype DeploymentSnap = DeploymentSnap(deployment: DeploymentObject, pods: seq<PodSnap>, degradations: seq<Degradation>) {
    function Ref(): ResourceRef {
      ResourceRef("Deployment", deployment.ns, deployment.name)
    }
  }

  function IntentRule(say: Wording, snap: DeploymentSnap): seq<Diagnosis> {
    (if snap.deployment.Desired() == 0 then
       [Finding(DeploymentScaledToZero, snap.Ref(), "", Info, Certain, say(DeploymentScaledToZero, 0, []))] else [])
    + if snap.deployment.paused then [Finding(DeploymentPaused, snap.Ref(), "", Warning, Certain, say(DeploymentPaused, 0, []))] else []
  }

  function ConditionRule(say: Wording, snap: DeploymentSnap): seq<Diagnosis> {
    var p := snap.deployment.progressing;
    (if snap.deployment.replicaFailure then
       [Finding(DeploymentReplicaFailure, snap.Ref(), "", Critical, Certain, say(DeploymentReplicaFailure, 0, []))] else [])
    + if p == Some(Progress("False", "ProgressDeadlineExceeded")) then
        [Finding(DeploymentProgressDeadlineExceeded, snap.Ref(), "", Critical, Certain, say(DeploymentProgressDeadlineExceeded, 0, []))]
      else if p == Some(Progress("True", "ReplicaSetUpdated")) then
        [Finding(DeploymentRolloutInProgress, snap.Ref(), "", Info, Certain, say(DeploymentRolloutInProgress, 0, []))]
      else []
  }

  function AvailabilityRule(say: Wording, snap: DeploymentSnap): seq<Diagnosis> {
    var desired, available := snap.deployment.Desired(), snap.deployment.available;
    if desired == 0 || snap.deployment.paused || available >= desired then []
    else [Finding(DeploymentUnavailableReplicas, snap.Ref(), "", if available > 0 then Warning else Critical, Certain,
                  say(DeploymentUnavailableReplicas, 0, [Number(available), Number(desired)]))]
  }

  function DeploymentRules(say: Wording): seq<Engine.Rule<DeploymentSnap>> {
    [(s: DeploymentSnap) => IntentRule(say, s), (s: DeploymentSnap) => ConditionRule(say, s), (s: DeploymentSnap) => AvailabilityRule(say, s)]
  }

  function DeploymentFindings(say: Wording, snap: DeploymentSnap): seq<Diagnosis> {
    Engine.Evaluated(DeploymentRules(say), snap, |DeploymentRules(say)|)
  }

  const SYMPTOMS: set<FindingID> := {DeploymentUnavailableReplicas, DeploymentProgressDeadlineExceeded}

  function DeploymentDiagnoses(env: Env, snap: DeploymentSnap, ords: seq<MapOrder>): seq<Diagnosis>
    requires |ords| == |snap.pods|
  {
    Assembled(DeploymentFindings(env.say, snap), AggregatedPods(env, snap.pods, ords), SYMPTOMS)
  }

  lemma DeploymentRuleOutputs(say: Wording, snap: DeploymentSnap)
    ensures |DeploymentRules(say)| == 3
    ensures DeploymentRules(say)[0](snap) == IntentRule(say, snap)
    ensures DeploymentRules(say)[1](snap) == ConditionRule(say, snap)
    ensures DeploymentRules(say)[2](snap) == AvailabilityRule(say, snap)
  {
  }

  lemma InDeploymentFindings(say: Wording, snap: DeploymentSnap, d: Diagnosis)
    ensures d in DeploymentFindings(say, snap) <==> d in IntentRule(say, snap) || d in ConditionRule(say, snap) || d in AvailabilityRule(say, snap)
  {
    DeploymentRuleOutputs(say, snap);
    Services.InThree(DeploymentRules(say), snap, d);
  }

  lemma DeploymentRulesUncaused(say: Wording, snap: DeploymentSnap)
    ensures NoDanglingCause(DeploymentFindings(say, snap))
  {
    forall d | d in DeploymentFindings(say, snap) ensures d.causedBy == NoID {
      InDeploymentFindings(say, snap, d);
    }
  }

  // ---- Collection ----

  /** Everything the API can answer while one Deployment is analysed. A selector that does not parse
      is an error found before any request. Of the ReplicaSets only whether they could be read matters
      to the verdict. */
  datatype DeploymentApi = DeploymentApi(
    deployment: DeploymentObject, events: Read<seq<Event>>, selectorError: Option<string>, replicaSets: Read<()>,
    pods: Read<seq<PodObject>>, podEvents: Backends.Fetch, now: int)

  const EVENT_PURPOSE := "explaining failed rollouts and rejected Pods"
  const SELECTOR_PURPOSE := "finding the Pods this Deployment owns"
  const REVISION_PURPOSE := "identifying the current revision"
  const POD_PURPOSE := "diagnosing the Pods this Deployment owns"

  function PodsOf(api: DeploymentApi): seq<PodObject> {
    if api.selectorError.None? && api.pods.Got? then api.pods.value else []
  }

  function SelectedDoubts(api: DeploymentApi, order: seq<int>): seq<Degradation> {
    if api.selectorError.Some? then [Degradation("pods", "Error", SELECTOR_PURPOSE, api.selectorError.value)]
    else Complaint("replicasets", REVISION_PURPOSE, api.replicaSets) + Complaint("pods", POD_PURPOSE, api.pods)
         + Backends.BackendComplaints(PodsOf(api), api.podEvents, order)
  }

  function DeploymentDoubts(api: DeploymentApi, order: seq<int>): seq<Degradation> {
    Complaint("events", EVENT_PURPOSE, api.events) + SelectedDoubts(api, order)
  }

  function CollectedPods(api: DeploymentApi): seq<PodSnap> {
    Backends.BackendSnaps(PodsOf(api), api.now, api.podEvents)
  }

  /** The snapshot for one lock order of the event goroutines. */
  function CollectedDeployment(api: DeploymentApi, order: seq<int>): DeploymentSnap {
    DeploymentSnap(api.deployment, CollectedPods(api), Recorded([], DeploymentDoubts(api, order)))
  }

  method CollectSelected(coll: Collection, api: DeploymentApi) returns (pods: seq<PodSnap>, ghost order: seq<int>)
    requires coll.Valid()
    modifies coll`degradations
    ensures coll.Valid() && Backends.Covers(order, |Backends.NeedEvents(PodsOf(api))|)
    ensures coll.degradations == Recorded(old(coll.degradations), SelectedDoubts(api, order))
    ensures pods == CollectedPods(api)
  {
    order, pods := [], [];
    assert Backends.NeedEvents([]) == [] by {
      Backends.NeedEventsAreFirstUnready([]);
    }
    if api.selectorError.Some? {
      coll.Degrade(Degradation("pods", "Error", SELECTOR_PURPOSE, api.selectorError.value));
      return;
    }
    ghost var log := coll.degradations;
    ghost var sets, listed := Complaint("replicasets", REVISION_PURPOSE, api.replicaSets), Complaint("pods", POD_PURPOSE, api.pods);
    DegradeRead(coll, "replicasets", REVISION_PURPOSE, api.replicaSets);
    DegradeRead(coll, "pods", POD_PURPOSE, api.pods);
    RecordedTwice(log, sets, listed);
    RecordedNothing(coll.degradations);
    if api.pods.Got? {
      pods, order := Backends.BackendSnapshots(coll, api.pods.value, api.now, api.podEvents);
    }
    RecordedTwice(log, sets + listed, Backends.BackendComplaints(PodsOf(api), api.podEvents, order));
  }

  method CollectDeployment(api: DeploymentApi) returns (snap: DeploymentSnap, ghost order: seq<int>)
    ensures Backends.Covers(order, |Backends.NeedEvents(PodsOf(api))|)
    ensures snap == CollectedDeployment(api, order)
  {
    var coll := new Collection();
    DegradeRead(coll, "events", EVENT_PURPOSE, api.events);
    var pods;
    pods, order := CollectSelected(coll, api);
    RecordedTwice([], Complaint("events", EVENT_PURPOSE, api.events), SelectedDoubts(api, order));
    snap := DeploymentSnap(api.deployment, pods, coll.degradations);
  }

  // ---- Results ----

  lemma DeploymentNoDanglingCause(env: Env, api: DeploymentApi, order: seq<int>, ords: seq<MapOrder>)
    requires Walked(CollectedPods(api), ords)
    ensures NoDanglingCause(DeploymentDiagnoses(env, CollectedDeployment(api, order), ords))
  {
    var snap := CollectedDeployment(api, order);
    BackendsAreCollected(PodsOf(api), api.now, api.podEvents, ords);
    AggregatedPodsClosed(env, snap.pods, ords);
    DeploymentRulesUncaused(env.say, snap);
    AssembledClosed(DeploymentFindings(env.say, snap), AggregatedPods(env, snap.pods, ords), SYMPTOMS);
  }

  /** The rollout has what it asks for and nothing holds it up. */
  predicate RolledOut(d: DeploymentObject) {
    && (d.Desired() == 0 || d.available >= d.Desired()) && !d.paused && !d.replicaFailure
    && d.progressing != Some(Progress("False", "ProgressDeadlineExceeded"))
  }

  lemma IntentCalm(say: Wording, snap: DeploymentSnap)
    ensures Reports.Calm(IntentRule(say, snap)) <==> !snap.deployment.paused
  {
    var out := IntentRule(say, snap);
    assert snap.deployment.paused ==> out[|out| - 1] in out && out[|out| - 1].severity == Warning;
  }

  lemma ConditionCalm(say: Wording, snap: DeploymentSnap)
    ensures Reports.Calm(ConditionRule(say, snap))
       <==> !snap.deployment.replicaFailure && snap.deployment.progressing != Some(Progress("False", "ProgressDeadlineExceeded"))
  {
    var out := ConditionRule(say, snap);
    assert snap.deployment.replicaFailure ==> out[0] in out && out[0].severity == Critical;
    assert snap.deployment.progressing == Some(Progress("False", "ProgressDeadlineExceeded")) ==>
             out[|out| - 1] in out && out[|out| - 1].severity == Critical;
  }

  lemma AvailabilityCalm(say: Wording, snap: DeploymentSnap)
    ensures Reports.Calm(AvailabilityRule(say, snap))
       <==> snap.deployment.Desired() == 0 || snap.deployment.paused || snap.deployment.available >= snap.deployment.Desired()
  {
    var out := AvailabilityRule(say, snap);
    assert out != [] ==> out[0] in out && (out[0].severity == Critical || out[0].severity == Warning);
  }

  lemma RulesCalm(say: Wording, snap: DeploymentSnap)
    ensures Reports.Calm(DeploymentFindings(say, snap)) <==> RolledOut(snap.deployment)
  {
    IntentCalm(say, snap);
    ConditionCalm(say, snap);
    AvailabilityCalm(say, snap);
    var found := DeploymentFindings(say, snap);
    assert Reports.Calm(found) <==>
             Reports.Calm(IntentRule(say, snap)) && Reports.Calm(ConditionRule(say, snap)) && Reports.Calm(AvailabilityRule(say, snap)) by {
      forall d ensures d in found <==> d in IntentRule(say, snap) || d in ConditionRule(say, snap) || d in AvailabilityRule(say, snap) {
        InDeploymentFindings(say, snap, d);
      }
    }
  }

  /** Every read the analysis of this Deployment depends on succeeded. */
  ghost predicate EverythingRead(api: DeploymentApi) {
    && api.events.Got? && api.selectorError.None? && api.replicaSets.Got? && api.pods.Got?
    && forall j :: j in Backends.NeedEvents(PodsOf(api)) ==> api.podEvents(j).Got?
  }

  lemma DeploymentReadIff(api: DeploymentApi, order: seq<int>)
    requires Backends.Covers(order, |Backends.NeedEvents(PodsOf(api))|)
    ensures CollectedDeployment(api, order).degradations == [] <==> EverythingRead(api)
  {
    RecordedFacts([], DeploymentDoubts(api, order));
    Backends.SilentBackends(PodsOf(api), api.podEvents, order);
  }

  /** For every API behaviour and every schedule, a Deployment is reported healthy when every read
      succeeded, it has every replica it asks for, nothing holds its rollout up and its Pods are well;
      and only then, if history and trouble are worded apart. */
  lemma HealthyDeploymentIff(env: Env, api: DeploymentApi, order: seq<int>, ords: seq<MapOrder>)
    requires Backends.Covers(order, |Backends.NeedEvents(PodsOf(api))|) && Walked(CollectedPods(api), ords)
    ensures var healthy := Reports.Verdict(DeploymentDiagnoses(env, CollectedDeployment(api, order), ords), CollectedDeployment(api, order).degradations) == Reports.Healthy;
            && (EverythingRead(api) && RolledOut(api.deployment) && PodHealth.AllWell(CollectedPods(api)) ==> healthy)
            && (healthy ==> EverythingRead(api) && RolledOut(api.deployment))
            && (PodHealth.HistoryApart(env.say) ==>
                  (healthy <==> EverythingRead(api) && RolledOut(api.deployment) && PodHealth.AllWell(CollectedPods(api))))
  {
    var snap := CollectedDeployment(api, order);
    DeploymentReadIff(api, order);
    Reports.HealthyIff(DeploymentDiagnoses(env, snap, ords), snap.degradations);
    AssembledCalm(DeploymentFindings(env.say, snap), AggregatedPods(env, snap.pods, ords), SYMPTOMS);
    RulesCalm(env.say, snap);
    PodHealth.CalmPodsIff(env, snap.pods, ords);
  }
}
