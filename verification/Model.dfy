/** The findings every rule produces and every renderer consumes. */
module Model {
  import opened Sequences

  datatype Severity = Info | Warning | Critical | OtherSeverity(text: string)

  function SeverityRank(s: Severity): nat {
    match s
    case Critical => 0
    case Warning => 1
    case Info => 2
    case OtherSeverity(_) => 3
  }

  datatype Confidence = Certain | Likely | Possible | OtherConfidence(name: string)

  function ConfidenceRank(c: Confidence): nat {
    match c
    case Certain => 0
    case Likely => 1
    case Possible => 2
    case OtherConfidence(_) => 3
  }

  /** The stable identifiers of the rules; NoID is the empty string of an unset CausedBy. */
  datatype FindingID =
    | NoID
    | PodOOMKilled | PodCrashLoop | PodContainerTerminatedError | PodInitContainerFailed | PodEvicted
    | PodImagePullFailed | PodUnschedulable | PodUnschedulableCPU | PodUnschedulableMemory
    | PodUntoleratedTaint | PodUnschedulableAffinity | PodUnschedulableVolume | PodSchedulingGated
    | PodReadinessProbeFailed | PodLivenessProbeFailed | PodStartupProbeFailed | PodFailedMount
    | PodMissingConfigMap | PodMissingSecret | PodCreateContainerConfigErr | PodPVCNotFound
    | PodPVCNotBound | PodNodeNotReady | PodRestarted | PodNotReadyUnexplained
    | ServiceNoMatchingPods | ServiceNoReadyEndpoints | ServiceSomeEndpointsNotReady
    | ServiceNoEndpointsWithoutSelector | ServiceTargetPortNotFound
    | DeploymentUnavailableReplicas | DeploymentProgressDeadlineExceeded | DeploymentReplicaFailure
    | DeploymentScaledToZero | DeploymentPaused | DeploymentRolloutInProgress
    | StatefulSetOrderedRolloutBlocked | StatefulSetUnavailableReplicas | StatefulSetClaimNotBound
    | StatefulSetClaimNotFound | StatefulSetServiceNotFound | StatefulSetServiceNotHeadless
    | StatefulSetUpdateOnDelete | StatefulSetUpdatePartitioned | StatefulSetScaledToZero
    | IngressServiceNotFound | IngressServicePortNotFound | IngressServiceNoEndpoints
    | IngressClassNotFound | IngressNoClass | IngressNoAddress | IngressNoRules
    | PVCStorageClassNotFound | PVCNoDefaultClass | PVCProvisioningFailed | PVCNoMatchingVolume
    | PVCWaitingForConsumer | PVCNoConsumer | PVCLost | PVCPending

  datatype ResourceRef = ResourceRef(kind: string, ns: string, name: string)

  datatype Evidence = Evidence(source: string, field: string, value: string, message: string)

  datatype Suggestion = Suggestion(description: string, commands: seq<string>)

  datatype Aggregate = Aggregate(count: nat, total: int, subjects: seq<ResourceRef>)

  datatype Diagnosis = Diagnosis(
    id: FindingID, subject: ResourceRef, component: string,
    severity: Severity, confidence: Confidence,
    summary: string, explanation: string, evidence: seq<Evidence>,
    possibleCauses: seq<string>, suggestions: seq<Suggestion>,
    causedBy: FindingID, aggregate: Option<Aggregate>)

  /** A finding with no evidence, prose or links attached yet. */
  function Finding(id: FindingID, subject: ResourceRef, component: string, severity: Severity,
                   confidence: Confidence, summary: string): Diagnosis
  {
    Diagnosis(id, subject, component, severity, confidence, summary, "", [], [], [], NoID, None)
  }

  /** An argument of a summary's format string. */
  datatype Arg = Text(s: string) | Number(n: int) | Age(ns: int) | Kind(init: bool, sidecar: bool)

  /** `say(id, k, args)` is the k-th summary format of a rule, applied to its arguments. Rules are
      modelled for every wording: only which summaries are equal matters to the engine. */
  type Wording = (FindingID, nat, seq<Arg>) -> string

  datatype Degradation = Degradation(resource: string, reason: string, requiredFor: string, detail: string)

  /** Every cause named by a finding is the ID of a finding of the same list. */
  ghost predicate NoDanglingCause(ds: seq<Diagnosis>) {
    forall d :: d in ds && d.causedBy != NoID ==> exists e :: e in ds && e.id == d.causedBy
  }
}
