# KubeWhy, modelled and verified in Dafny

KubeWhy turns answers of the Kubernetes API into snapshots, snapshots into findings, and findings into
a verdict and a text report. This project models that pipeline and proves what its stages guarantee
together, for every input, every API behaviour, every goroutine schedule and every map iteration order.

How the program is represented:

- **The API** is an oracle. Every read answers with an object, `NotFound`, `Forbidden`, a timeout or
  another error; the `...Api` datatypes hold one answer per read, and the theorems quantify over them.
- **Go map iteration** is an arbitrary enumeration of the keys, a different one for every loop.
- **Goroutines** under a mutex are a state machine over their steps; a schedule is any run of it.
- **Loops and objects that change** are methods and classes, each proved equal to a specification
  function; the theorems are about those functions. `Analysis` puts the methods together, from the API
  to the final status.
- **A cancelled context** is the number of rules that may still start; the report theorems are about a
  live context.
- **Summaries** are an arbitrary function of the rule, the format and its arguments (`Wording`), because
  only their equality matters: it is the aggregation key. Times are integers, strings are sequences of
  code points, `int32` counters wrap.

Where the documentation and the code differ, the model follows the code, and states when the promise
holds. `engine.go` promises that a consequence is printed after its cause; it is exactly when the cause
is at least as serious (`Engine.CausePrecedesConsequenceIff`). In a Pod report that is always, except for
a claim that waits for its first consumer (`PodCases.PodCauseFirstIff`), and a Pod whose report prints
such a claim after the scheduling failure it causes is `PodCases.ClaimPrintedAfterItsConsequence`. The
comparators of `Prioritize` and of the ordinal sort are strict weak orders only under the conditions of
`Engine.ComparatorIsStrictWeakIff` and `Ordinals.OrdinalOrderIsStrictWeakIff`, and break at
`Engine.ComparatorClashes` and `Ordinals.OrdinalOrderCycles`. `Dedup` is idempotent exactly under the
condition of `Events.DedupIdempotentIff`, and not at `Events.DedupNotIdempotent`. Aggregation can turn
unhealthy into degraded (`PodCases.RecoveredOOMHidesUnrecovered`).

It cannot turn anything into healthy, because KubeWhy never words history and trouble alike: the
summaries of a past probe failure and of a claim that waits on purpose differ from those of a present
failure and of a claim that is stuck. `PodHealth.KubeWhyKeepsHistoryApart` derives that from how the
summaries end. The reports about Services and workloads are proved healthy for every wording when their
Pods are well, and only then under `PodHealth.HistoryApart`; a Pod is well when it is neither broken nor
shaky nor unexplained by the table of `PodVerdict`.

| files | part of KubeWhy |
|---|---|
| `Sequences`, `GroupBy`, `StableSort`, `Names`, `Text` | vocabulary: plain grouping, `sort.SliceStable`, string operations |
| `Model`, `Engine`, `Aggregation`, `Report` | the diagnosis engine |
| `Events`, `Collecting`, `Backends`, `Storage`, `PodCollect`, `PodReads`, `Degradations`, `Purposes`, `Shown` | events, degradations, collectors, and what each collector reads, keeps and records |
| `Pods`, `Scheduling`, `SchedulerCases`, `PodRules`, `PodRuleLoops`, `PodTheorems`, `PodVerdict`, `PodHealth`, `PodCases`, `Assembly` | Pod rules and how findings are put together |
| `Services`, `Claims`, `Ordinals`, `StatefulSets`, `Ingresses`, `IngressRules`, `Deployments`, `ServiceVerdict`, `ClaimVerdict`, `SetVerdict`, `IngressVerdict`, `DeploymentVerdict`, `Blames`, `Summaries`, `ReportOrder`, `Analysis` | the other resources, what their reports say and blame, and the whole way from the API to the verdict |
| `Layout`, `Colour`, `Palette`, `Rendering`, `Outline`, `Margins`, `Erasure`, `Renderer` | the text renderer |

## Model

| member | source | states |
|---|---|---|
| `Engine.Evaluate` | internal/diagnosis/engine.go:11-20 | the rules that start before cancellation, in order, prioritised; nothing else |
| `Engine.EvaluateLive` | internal/diagnosis/engine.go:11-20 | with a live context every finding of every rule appears, as often as produced |
| `Engine.Prioritize` | internal/diagnosis/engine.go:27-64 | the in-place copy, cause set and sort compute the stable sort the lemmas below are about |
| `Engine.PrioritizePermutes` | internal/diagnosis/engine.go:27-64 | nothing is lost or invented, for any severities |
| `Engine.ComparatorIsStrictWeakIff` | internal/diagnosis/engine.go:41-62 | the comparator is a strict weak order if and only if no unknown severities clash |
| `Engine.ComparatorClashes` | internal/diagnosis/engine.go:54-61 | three findings of two unknown severities on which it is none |
| `Engine.PrioritizeSorts` | internal/diagnosis/engine.go:41-62 | nothing stands before a finding that belongs before it: the more serious first, then what explains another finding, then what explains nothing and is not explained, then what is only explained, then certain before likely before possible; findings of which neither belongs first keep their order |
| `Engine.PrioritizeUnique` | internal/diagnosis/engine.go:41-62 | any other stable sort by the same comparator gives the same list |
| `Engine.PrioritizeIdempotent` | internal/diagnosis/engine.go:27-64 | sorting twice is sorting once |
| `Engine.CausePrecedesConsequenceIff` | internal/diagnosis/engine.go:22-64 | a cause stands before a consequence that causes nothing itself exactly when it is at least as serious |
| `Engine.CauseAfterItsConsequence` | internal/diagnosis/engine.go:22-26 | of two findings, an info-level cause is sorted after the critical finding it causes |
| `Aggregation.AggregateByRule` | internal/diagnosis/aggregate.go:14-40 | the loop with its position index refines a plain group-by followed by a stable sort |
| `Aggregation.AggregateContents` | internal/diagnosis/aggregate.go:18-33 | each result is the first finding of its key with that key's subjects in order, their number and the total |
| `Aggregation.AggregateGroups` | internal/diagnosis/aggregate.go:18-33 | exactly one result per key (identifier, component, summary) |
| `Aggregation.AggregateConserves` | internal/diagnosis/aggregate.go:23-33 | the counts sum to the number of findings |
| `Aggregation.AggregateOrder` | internal/diagnosis/aggregate.go:35-39 | descending count, ties by first appearance |
| `Aggregation.AggregateMeans` | internal/diagnosis/aggregate.go:14-40 | one finding per problem (rule, component, wording), which lists every affected object in order; none is lost, and the most widespread come first |
| `Aggregation.AggregateKeepsCauses` | internal/diagnosis/aggregate.go:14-40 | aggregation leaves no dangling cause behind |
| `Reports.Report.DeriveStatus` | internal/diagnosis/report.go:82-99 | the status: unhealthy if a critical finding exists, else degraded if a warning does, else unknown if a read failed, else healthy |
| `Reports.Report.AddSection` | internal/diagnosis/report.go:73-78 | a section is kept exactly when it carries a fact |
| `Reports.VerdictPermutation` | internal/diagnosis/report.go:82-99 | reordering never changes the verdict |
| `Reports.VerdictOfPrioritized` | internal/diagnosis/engine.go:27-64 | prioritising never changes the verdict |
| `Reports.AggregationNeverRaises` | internal/diagnosis/aggregate.go:14-40 | collapsing never makes the verdict worse |
| `Reports.AggregationKeepsVerdictIff` | internal/diagnosis/aggregate.go:23-33 | it keeps the verdict if and only if nothing is wrong or a worst finding comes first in its group |
| `Reports.AggregationKeepsSharedSeverity` | internal/diagnosis/aggregate.go:23-33 | it keeps it whenever findings sharing a key share a severity |
| `Reports.MilderFirstHidesCritical` | internal/diagnosis/aggregate.go:23-33 | a milder finding in front hides a critical one of the same key |
| `Reports.HealthyIff` | internal/diagnosis/report.go:82-99 | healthy means nothing above info and no failed read |
| `Reports.CalmAfterAggregationIff` | internal/diagnosis/aggregate.go:23-33 | a collapsed list holds nothing above info exactly when no finding that leads its group is above info |
| `Events.WithReason` | internal/snapshot/snapshot.go:75-86 | the events with one of the reasons, in order |
| `Events.Latest` | internal/snapshot/snapshot.go:101-110 | the scan finds the first matching event of the ordered list |
| `Events.LatestIsMostRecent` | internal/snapshot/snapshot.go:99-110 | no matching event is more recent, and there is a result exactly when some event matches |
| `Events.Dedup` | internal/snapshot/snapshot.go:116-136 | the index over the sorted copy refines grouping by (reason, message, field path) |
| `Events.DedupKeys` | internal/snapshot/snapshot.go:112-136 | unique keys, the same keys as before, still most recent first |
| `Events.DedupConserves` | internal/snapshot/snapshot.go:121-134 | each count is the total of max(count, 1) over its key, wrapped to int32 |
| `Events.DedupTimes` | internal/snapshot/snapshot.go:121-134 | the latest LastSeen and the earliest FirstSeen of the key |
| `Events.DedupMeans` | internal/snapshot/snapshot.go:112-136 | in the fields of an event: no two kept ones repeat each other, each is the most recent of its repeats but for its count and first time, none is lost |
| `Events.DedupCounts` | internal/snapshot/snapshot.go:121-134 | a kept event counts how often it happened, every record at least once, as an int32 |
| `Events.DedupIdempotentIff` | internal/snapshot/snapshot.go:116-136 | idempotent if and only if no key happened a multiple of 2^32 times, which an `int32` counts as zero |
| `Events.DedupNotIdempotent` | internal/snapshot/snapshot.go:116-136 | three events whose counts add up to 2^32 and change again in a second pass |
| `Events.LatestAfterDedup` | internal/snapshot/snapshot.go:99-136 | deduplication never changes which event Latest selects, apart from its count and FirstSeen |
| `Collecting.Collection.Degrade` | internal/snapshot/snapshot.go:148-155 | the log keeps the first entry of every (resource, reason), without duplicates |
| `Collecting.Collection.Inspect` | internal/snapshot/snapshot.go:158-165 | each inspected item is listed once, in order |
| `Collecting.DegradeRead` | internal/collect/collect.go:19-38 | a failed read is recorded with its reason, a successful one leaves no trace |
| `Collecting.CheckExistence` | internal/collect/collect.go:43-53 | Missing only on NotFound, Unknown with a degradation for any other failure |
| `Collecting.RecordedFacts` | internal/snapshot/snapshot.go:144-155 | no duplicates, exactly the attempted pairs, and empty only if nothing failed |
| `Collecting.RecordedNotes` | internal/collect/collect.go:19-38 | a pair of resource and reason is on record exactly when some attempt failed with it: forbidden, not found, timed out or otherwise |
| `Backends.ChooseBackends` | internal/collect/service.go:75-88 | the Pods whose events are fetched |
| `Backends.NeedEventsAreFirstUnready` | internal/collect/service.go:65-88 | at most eight, only unready ones, in order, none skipped for a later one |
| `Backends.BackendSnapIs` | internal/collect/service.go:70-116 | a backend is shown as listed, without node and references, and with its deduplicated events exactly when it is one of those eight and they could be read |
| `Backends.StepInv` | internal/collect/service.go:94-109 | every step of every goroutine keeps mutual exclusion and equivalence to a sequential pass |
| `Backends.SomeoneCanMove` | internal/collect/service.go:94-110 | no schedule deadlocks: until all are finished some goroutine can step |
| `Backends.RunIsBounded` | internal/collect/service.go:94-110 | every schedule finishes within a fixed number of steps |
| `Backends.CompleteRun` | internal/collect/service.go:94-110 | a finished schedule leaves on each Pod the deduplicated events of its own answer, or none on error |
| `Backends.ScheduleIndependence` | internal/collect/service.go:94-110 | two schedules leave the same events and the same (resource, reason) pairs, without duplicates; entries differ in their detail at most, and only for a pair that is new |
| `Backends.EveryLockOrderHappens` | internal/collect/service.go:94-110 | every order of taking the lock belongs to some complete schedule, so results for all orders are results for all schedules and no more |
| `Backends.SilentBackends` | internal/collect/service.go:94-110 | nothing is recorded exactly when the events of all chosen Pods could be read |
| `Backends.BackendSnapshots` | internal/collect/service.go:70-116 | the snapshots and the degradations, for whichever lock order happened |
| `Scheduling.ParseSchedulerMessage` | internal/diagnosis/rules/pod/scheduling.go:183-213 | the loop computes the parser the round trip is about |
| `Scheduling.ParseUndoesMessage` | internal/diagnosis/rules/pod/scheduling.go:170-213 | parsing undoes printing: node count and reasons in order, with or without a preemption clause |
| `Scheduling.RoundTripIff` | internal/diagnosis/rules/pod/scheduling.go:183-213 | any list of counted reasons survives printing and parsing if and only if every text is well formed |
| `Scheduling.Dominant` | internal/diagnosis/rules/pod/scheduling.go:254-280 | a specific identifier exactly when all reasons fall in one named category |
| `Scheduling.DominantID` | internal/diagnosis/rules/pod/scheduling.go:257-280 | the set of categories decides the same |
| `SchedulerCases.CategoryIff` | internal/diagnosis/rules/pod/scheduling.go:215-239 | which words put a reason in its category, and which words must not stand beside them |
| `SchedulerCases.OneReason` | internal/diagnosis/rules/pod/scheduling.go:183-280 | a printed message with one counted reason is parsed and reported under the identifier those words decide |
| `SchedulerCases.MessagesLeadTo` | internal/diagnosis/rules/pod/scheduling.go:183-280 | for any node counts: too little CPU, too little memory, an untolerated taint, a node affinity and an unbound claim each lead to their own identifier |
| `Scheduling.EffectiveRequests` | internal/diagnosis/rules/pod/scheduling.go:367-387 | the three loops compute the effective request: enough CPU and memory for containers and sidecars together and for every init container on its own, and no more |
| `Scheduling.EffectiveIsMax` | internal/diagnosis/rules/pod/scheduling.go:364-387 | the maximum of what runs together and the largest single init container |
| `Scheduling.EffectivePermutation` | internal/diagnosis/rules/pod/scheduling.go:364-387 | the order of either container list does not matter |
| `Pods.ContainersMerged` | internal/snapshot/pod.go:126-158 | every container of the spec, init containers first, each with the first status of its name among the statuses of its own kind |
| `Pods.ReadyIff` | internal/collect/service.go:118-128 | ready means running with a first Ready condition that is true |
| `Pods.ScanReady` | internal/collect/service.go:118-128 | readiness: running, and the first Ready condition is true |
| `PodRules.EvaluateOOM` | internal/diagnosis/rules/pod/oom.go:31-86 | one finding per container with an OOM kill, a warning only once it recovered |
| `PodRules.EvaluateCrashLoop` | internal/diagnosis/rules/pod/crashloop.go:29-99 | one finding per container backing off or flapping without an OOM kill |
| `PodRules.EvaluateTerminated` | internal/diagnosis/rules/pod/terminated.go:27-98 | evictions, and containers that ended in an error nothing else claims |
| `PodRules.EvaluateRestartHistory` | internal/diagnosis/rules/pod/restarts.go:32-100 | running containers whose past restarts no other rule reports |
| `PodTheorems.OneOwner` | internal/diagnosis/rules/pod/helpers.go:146-166 | OOM kill, crash loop and restart history exclude each other, and one of the first two claims a container that backs off or flaps |
| `PodTheorems.OneOwnerInReport` | internal/diagnosis/rules/pod/crashloop.go:29-54 | findings of two of these rules are about two different containers, and name different ones if names are distinct |
| `PodTheorems.EndedBesideCrashIff` | internal/diagnosis/rules/pod/terminated.go:40-59 | the terminated rule fires beside the crash loop rule exactly for a Pod that never restarts |
| `PodTheorems.RuleIsItsContainers` | internal/diagnosis/rules/pod/crashloop.go:29-54 | a rule's output is exactly what its containers contribute |
| `Summaries.ContainerSummary` | internal/diagnosis/rules/pod/crashloop.go:29-99 | what the five rules about containers say is told of a container of the Pod: its kind and name, the exit code of its end, the number of its restarts and when the last run ended |
| `PodRuleLoops.ListMissing` | internal/diagnosis/rules/pod/config.go:104-113 | the names confirmed absent, sorted, the same for every iteration order |
| `Names.LessIsAlphabetical` | internal/diagnosis/rules/pod/config.go:104-113 | the order of names is alphabetical: up to some point they agree, and there one ends or has the smaller letter |
| `Names.NamesAscend` | internal/diagnosis/rules/pod/config.go:104-113 | sorted names ascend in it |
| `PodTheorems.MissingNamesAgree` | internal/diagnosis/rules/pod/config.go:104-113 | which names are listed does not depend on the iteration order |
| `PodRuleLoops.EvaluateConfigRefs` | internal/diagnosis/rules/pod/config.go:28-77 | one finding per absent ConfigMap and Secret, and configuration errors linked to them, the same for every iteration order |
| `PodRuleLoops.EvaluateMounts` | internal/diagnosis/rules/pod/mount.go:24-89 | a mount failure linked to what is confirmed absent, the same for every iteration order |
| `PodRuleLoops.EvaluateScheduling` | internal/diagnosis/rules/pod/scheduling.go:35-101 | the scheduling finding linked to an absent or pending claim |
| `PodRuleLoops.EvaluateClaims` | internal/diagnosis/rules/pod/claim.go:28-67 | one finding per absent or unbound claim, in name order, the same for every iteration order |
| `PodTheorems.MountRuleAgrees` | internal/diagnosis/rules/pod/mount.go:62-74 | neither does the mount finding with its link |
| `PodTheorems.VolumeCauseDependsIff` | internal/diagnosis/rules/pod/scheduling.go:89-99 | the claim a scheduling finding blames depends on the iteration order exactly when one claim is missing and another pending |
| `PodTheorems.ClaimRuleAgrees` | internal/diagnosis/rules/pod/claim.go:28-67 | the claim and configuration findings do not depend on iteration orders |
| `PodTheorems.PodNoDanglingCause` | internal/diagnosis/rules/pod/scheduling.go:89-99 | every cause a Pod finding names is a finding of the same report, for every iteration order |
| `Blames.QuotedNamesAre` | internal/diagnosis/rules/pod/config.go:115-126 | the names a kubelet message quotes are read out of it, all of them, in order |
| `Blames.PodBlame` | internal/diagnosis/rules/pod/config.go:53-75 | what every finding of a Pod report blames: a configuration error what its message quotes, else whatever is missing; a mount failure a missing object; a scheduling failure a claim, only where the scheduler named a volume; nothing else anything. Every finding is certain but for a failed image pull |
| `Assembly.AggregatePods` | internal/diagnosis/rules/pod/pod.go:80-93 | every Pod's findings or its fallback, then aggregated |
| `Assembly.Assemble` | internal/analyze/service.go:35-54 | symptoms linked to the most widespread Pod finding, everything prioritised |
| `Assembly.AggregatedPodsClosed` | internal/diagnosis/rules/pod/pod.go:80-93 | no dangling cause through aggregation over Pods |
| `Assembly.AssembledClosed` | internal/analyze/service.go:41-54 | no dangling cause through linking and ordering |
| `Assembly.AssembledHas` | internal/analyze/service.go:41-55 | the report holds a severity exactly when the rules or the Pods do |
| `Assembly.InAssembled` | internal/analyze/deployment.go:32-53 | what stands in an assembled report: the Pod findings, and the findings of the rules, of which exactly the symptoms blame the first Pod finding |
| `Blames.DeploymentBlame` | internal/analyze/deployment.go:32-53 | of the findings about a Deployment exactly unavailable replicas and an exceeded deadline blame its Pods, and all are certain |
| `Blames.ServiceBlame` | internal/analyze/service.go:35-54 | of those about a Service exactly the missing ready endpoint |
| `Blames.SetBlame` | internal/analyze/statefulset.go:27-45 | of those about a StatefulSet exactly unavailable replicas |
| `Blames.IngressBlame` | internal/analyze/ingress.go:25-43 | of those about an Ingress exactly a Service without endpoints; a missing default class is only likely, a missing address only possibly, a problem |
| `ClaimVerdict.ClaimBlames` | internal/diagnosis/rules/pvc/pvc.go:159-167 | in a claim report a provisioning failure blames the absent class or the absent default, and nothing else blames anything |
| `Blames.ClaimConfidence` | internal/diagnosis/rules/pvc/pvc.go:66-345 | everything a claim report says is certain |
| `Storage.StorageClassInfo` | internal/collect/storageclass.go:23-73 | which class a claim relies on, and what is recorded when nobody could look |
| `Storage.ClassMissingIff` | internal/collect/storageclass.go:23-73 | a class is missing exactly on NotFound or on a list without a default; unknown exactly when a degradation was recorded |
| `Storage.ClassIs` | internal/collect/storageclass.go:23-92 | what the claim and the API say decides what the rules see: a named class that is absent, no default where one is needed, a class that waits for a consumer |
| `PodCollect.NameSet.Add` | internal/collect/pod.go:261-267 | distinct trimmed names in insertion order |
| `PodCollect.ReferencedConfig` | internal/collect/pod.go:195-249 | the required ConfigMap and Secret names of containers, volumes and pull secrets |
| `PodCollect.CollectPodClaims` | internal/collect/pod.go:118-147 | one entry per mounted claim, each read once |
| `PodCollect.CollectPod` | internal/collect/pod.go:22-76 | the whole snapshot and every degradation, for every API behaviour |
| `PodReads.SnapshotIs` | internal/collect/pod.go:22-116 | which ConfigMaps and Secrets are looked up: those a suspect Pod requires, by name, each kept as the API answered |
| `PodReads.SnapshotClaims` | internal/collect/pod.go:118-147 | which claims are looked up: those a suspect Pod mounts, each kept with its phase and class as the API answered |
| `PodReads.SnapshotNode` | internal/collect/pod.go:80-94 | the node is kept exactly for a placed Pod that is not in service |
| `PodCollect.ConfigMapNamedAbsentIff` | internal/collect/pod.go:97-114 | a report names a ConfigMap absent if and only if it was looked up and the API answered NotFound |
| `PodCollect.SecretNamedAbsentIff` | internal/collect/pod.go:97-114 | the same for Secrets |
| `PodCollect.ClaimNamedAbsentIff` | internal/collect/pod.go:118-147 | the same for claims of a Pod that is not finished |
| `PodCollect.DegradedIff` | internal/collect/pod.go:59-73 | a degradation is recorded if and only if some related read failed |
| `Degradations.PodNotes` | internal/collect/pod.go:22-147 | exactly which pairs of resource and reason are on record after a Pod was collected, read by read |
| `Degradations.ServiceNotes` | internal/collect/service.go:25-116 | after a Service was collected, for every lock order |
| `Degradations.ClaimReportNotes` | internal/collect/pvc.go:19-70 | after a claim was collected |
| `Degradations.DeploymentNotes` | internal/collect/deployment.go:18-61 | after a Deployment was collected |
| `Degradations.SetNotes` | internal/collect/statefulset.go:18-139 | after a StatefulSet was collected |
| `Degradations.IngressNotes` | internal/collect/ingress.go:22-172 | after an Ingress was collected |
| `Purposes.PodPurposes` | internal/collect/pod.go:22-147 | what each entry of a Pod says its read was for |
| `Purposes.ServicePurposes` | internal/collect/service.go:25-116 | of a Service |
| `Purposes.ClaimPurposes` | internal/collect/pvc.go:19-70 | of a claim |
| `Purposes.DeploymentPurposes` | internal/collect/deployment.go:18-61 | of a Deployment |
| `Purposes.SetPurposes` | internal/collect/statefulset.go:18-139 | of a StatefulSet |
| `Purposes.IngressPurposes` | internal/collect/ingress.go:22-172 | of an Ingress |
| `Shown.DeploymentShows` | internal/collect/deployment.go:18-61 | a Deployment report is about the Pods its selector lists |
| `Shown.ServiceShows` | internal/collect/service.go:25-63 | a Service report about the Pods it selects, and none for an alias |
| `Shown.SetShows` | internal/collect/statefulset.go:49-86 | a StatefulSet report about the listed Pods it owns, each as often as it is listed |
| `Shown.IngressShows` | internal/collect/ingress.go:146-172 | an Ingress report about the Pods of Services it routes to that select some and publish no ready endpoint |
| `Shown.ClaimShows` | internal/collect/pvc.go:52-80 | a claim report counts the listed Pods that mount the claim |
| `PodCollect.HealthyPodWasFullyRead` | internal/diagnosis/report.go:94-97 | a Pod with any failed read is never reported healthy |
| `PodCollect.HealthyPodIff` | internal/analyze/pod.go:31-42 | exactly when a Pod report is healthy: everything read, nothing above info, and finished, ready or explained by info findings |
| `PodCollect.PodReportNoDanglingCause` | internal/analyze/pod.go:31-42 | no dangling cause in a Pod report, for every API behaviour |
| `PodVerdict.ContainerAgrees` | internal/diagnosis/rules/pod/helpers.go:141-175 | which facts about one container make the six container rules report which finding, how seriously, under which name |
| `PodVerdict.ProbeSeverity` | internal/diagnosis/rules/pod/probes.go:79-132 | a probe failure is critical while it lasts or when a recent one costs the container its life, a warning when recent, history otherwise |
| `PodVerdict.RulesAgreeWithTable` | internal/diagnosis/rules/pod/pod.go:45-61 | the eleven rules together report exactly what a table of raw facts about the Pod, its events, references and node says: identifier, object, container and severity, for every wording and iteration order |
| `PodVerdict.SilentIff` | internal/analyze/pod.go:38-40 | exactly when no rule has anything to say, so that the fallback decides |
| `PodVerdict.ExactPodVerdict` | internal/analyze/pod.go:31-42 | the exact status of a Pod from what the API shows, for every API behaviour |
| `PodVerdict.PodReportSays` | internal/analyze/pod.go:31-42 | a Pod report says what the table says, or that nothing explains why the Pod is not in service |
| `PodVerdict.CrashLoopingInitContainer` | internal/diagnosis/rules/pod/crashloop.go:29-60 | in fields of the Pod object: an init status waiting in CrashLoopBackOff, with no OOM kill, in an unfinished Pod makes its report unhealthy |
| `PodHealth.KubeWhyKeepsHistoryApart` | internal/diagnosis/rules/pod/probes.go:99-112 | summaries that end as KubeWhy's do never word a past probe failure or a waiting claim like a present failure |
| `PodHealth.ExplainedWorded` | internal/diagnosis/rules/pod/claim.go:69-101 | every Pod finding has a known severity, and is worded as history exactly when it is info |
| `PodHealth.CollapsedCalmIff` | internal/diagnosis/aggregate.go:23-33 | collapsing such findings never hides trouble: the result is calm, under `HistoryApart`, exactly when all of them were |
| `PodHealth.WellIff` | internal/analyze/pod.go:31-42 | what one Pod contributes is calm exactly when it is neither broken, shaky nor unexplained |
| `PodHealth.CalmPodsIff` | internal/diagnosis/rules/pod/pod.go:80-93 | what several Pods contribute after collapsing is calm, under `HistoryApart`, exactly when every one of them is well |
| `PodCases.PodCauseFirstIff` | internal/diagnosis/engine.go:22-26 | in every Pod report a cause is printed before its consequence exactly when it is not a claim waiting for its first consumer |
| `PodCases.ClaimPrintedAfterItsConsequence` | internal/diagnosis/rules/pod/claim.go:95-101 | the report of a Pod with such a claim prints it after the scheduling failure it causes |
| `PodCases.RecoveredOOMHidesUnrecovered` | internal/diagnosis/rules/pod/oom.go:42-51 | two Pods, one recovered from its OOM kill: their order decides between degraded and unhealthy |
| `Services.EndpointsFor` | internal/collect/endpoints.go:23-38 | slices first, Endpoints when slices are unknown to the server, unknown and degraded otherwise |
| `Services.FromEndpointSlices` | internal/collect/endpoints.go:40-59 | every endpoint of every slice, first address, unset condition read as ready |
| `Services.LegacyEndpointsFor` | internal/collect/endpoints.go:63-87 | ready and unready addresses; no object means no endpoints, which is a fact |
| `Services.UnknownEndpointsAreRecorded` | internal/collect/endpoints.go:23-87 | endpoints are known exactly when nothing was recorded |
| `Services.CollectService` | internal/collect/service.go:25-63 | the Service snapshot for every API behaviour and lock order |
| `Services.CollectBackendFindings` | internal/diagnosis/rules/service/service.go:53-66 | while an endpoint is ready no backend finding is critical and every other one keeps its severity; otherwise all keep it |
| `Services.ServiceReadIff` | internal/collect/service.go:25-63 | nothing is recorded exactly when events, endpoints, Pods and the events of the chosen Pods could be read |
| `Services.ServiceRulesCalm` | internal/diagnosis/rules/service/rules.go:31-238 | the three rules stay calm exactly for an alias, or when all endpoints are ready, the selector matches something and the named target ports are declared |
| `ServiceVerdict.EndpointsAre` | internal/collect/endpoints.go:23-87 | the endpoints are those the API lists, ready unless it says otherwise, and known when it answered |
| `ServiceVerdict.ServiceRulesSay` | internal/diagnosis/rules/service/rules.go:31-256 | the Service rules report exactly what a table of the API answers says: nothing selected or published, none or not all ready, a named port nobody declares |
| `ServiceVerdict.BackendsMarked` | internal/diagnosis/rules/service/service.go:50-66 | what the Pods contribute: while some endpoint is ready a critical finding counts as a warning, otherwise each counts as it is |
| `ServiceVerdict.ServiceReportSays` | internal/analyze/service.go:35-55 | a Service report says exactly that |
| `ServiceVerdict.ExactServiceStatus` | internal/analyze/service.go:35-62 | the exact status of a Service report, in the answers of the API and the findings of its Pods |
| `Summaries.EndpointsSummary` | internal/diagnosis/rules/service/rules.go:150-184 | it is told how many of all endpoints are not ready |
| `Services.HealthyServiceIff` | internal/analyze/service.go:35-62 | under `HistoryApart` exactly when a Service report is healthy: everything read, and an alias, or all endpoints ready, something selected, named ports declared and every Pod behind it well; the condition suffices for every wording |
| `Services.HealthyServiceHasReadyEndpoint` | internal/analyze/service.go:35-62 | so healthy only for a DNS alias or with an endpoint known to be ready, including denied reads |
| `Services.ServiceNoDanglingCause` | internal/analyze/service.go:35-62 | no dangling cause in a Service report |
| `Claims.CollectClaim` | internal/collect/pvc.go:19-70 | the claim snapshot: class and consumers only for a claim that has not bound |
| `Claims.ClaimReportNoDanglingCause` | internal/diagnosis/rules/pvc/pvc.go:159-167 | the class a provisioning failure blames is reported beside it |
| `Claims.HealthyClaimIff` | internal/analyze/pvc.go:25-35 | exactly when a claim report is healthy: everything read, and bound or waiting on purpose for a Pod that mounts it |
| `ClaimVerdict.ClaimRulesSay` | internal/diagnosis/rules/pvc/pvc.go:52-318 | the claim rules report exactly what a table of the API answers says: absent class, failed provisioning or binding, consumer, lost |
| `ClaimVerdict.ClaimReportSays` | internal/analyze/pvc.go:25-35 | a claim report says that, or that an unbound claim is pending for no reason found |
| `ClaimVerdict.ExactClaimStatus` | internal/analyze/pvc.go:25-41 | the exact status of a claim report |
| `Ordinals.OrdinalIff` | internal/snapshot/statefulset.go:97-112 | which names carry an ordinal, and which |
| `Ordinals.OrdinalUndoesName` | internal/snapshot/statefulset.go:97-118 | the ordinal of a claim or Pod name is the one printed into it |
| `Ordinals.ClaimNameInjective` | internal/snapshot/statefulset.go:114-118 | different templates or ordinals never share a claim, whatever characters the names contain |
| `Ordinals.SelectOwned` | internal/collect/statefulset.go:63-82 | the ownership filter and ordinal sort |
| `Ordinals.OrdinalOrderIsStrictWeakIff` | internal/collect/statefulset.go:74-81 | the comparator is a strict weak order if and only if no name without an ordinal is wedged between two out of order |
| `Ordinals.OrdinalOrderCycles` | internal/collect/statefulset.go:74-81 | three names on which the comparator goes in a circle |
| `Ordinals.CollectedAscends` | internal/collect/statefulset.go:63-82 | with named replicas the list is the owned Pods, each once, by ascending ordinal |
| `Ordinals.FindFirstUnready` | internal/snapshot/statefulset.go:131-138 | the first unready Pod of the list |
| `Ordinals.FirstUnreadyIsLowest` | internal/snapshot/statefulset.go:129-138 | it has the lowest ordinal of all unready Pods |
| `Ordinals.FindMissingOrdinals` | internal/snapshot/statefulset.go:143-157 | the map and the loop compute the absent ordinals |
| `Ordinals.MissingIsComplement` | internal/snapshot/statefulset.go:140-157 | exactly the desired ordinals no Pod carries, ascending |
| `Ordinals.MissingAfterIff` | internal/diagnosis/rules/statefulset/statefulset.go:120-134 | all never-created replicas follow a replica exactly when all before it exist |
| `Ordinals.NeverCreatedFollowBlocker` | internal/diagnosis/rules/statefulset/statefulset.go:120-134 | so they follow the blocker when the Pods present form an initial run |
| `StatefulSets.CollectClaimTemplates` | internal/collect/statefulset.go:111-139 | the claims of every replica, unless all are ready |
| `StatefulSets.ClaimsAreReplicasTimesTemplates` | internal/collect/statefulset.go:117-137 | the map has exactly replicas times templates entries |
| `StatefulSets.CollectSet` | internal/collect/statefulset.go:18-45 | the StatefulSet snapshot for every API behaviour |
| `StatefulSets.PodsBlockedByTheirClaim` | internal/diagnosis/rules/statefulset/statefulset.go:80-94 | the blocked replicas, for any iteration order |
| `StatefulSets.BlockedIff` | internal/diagnosis/rules/statefulset/statefulset.go:80-94 | a replica is blocked if and only if claims were read and one of its own is absent, or found and not bound |
| `StatefulSets.BlockedNameIff` | internal/diagnosis/rules/statefulset/statefulset.go:80-94 | only names of such replicas are marked |
| `StatefulSets.EvaluatePods` | internal/diagnosis/rules/statefulset/statefulset.go:64-76 | Pod findings with the fallback suppressed for blocked replicas, aggregated |
| `StatefulSets.FallbackLostIff` | internal/diagnosis/rules/statefulset/statefulset.go:64-76 | exactly which Pods lose the fallback, whatever their names |
| `StatefulSets.EvaluateOrdering` | internal/diagnosis/rules/statefulset/statefulset.go:120-161 | the blocked rollout finding with its blocker and never-created replicas |
| `StatefulSets.EvaluateClaims` | internal/diagnosis/rules/statefulset/statefulset.go:179-254 | one finding per absent or unbound claim, in name order |
| `StatefulSets.SetClaimRuleAgrees` | internal/diagnosis/rules/statefulset/statefulset.go:179-185 | they do not depend on the iteration order |
| `StatefulSets.OrderedRollout` | internal/diagnosis/rules/statefulset/statefulset.go:120-161 | from any API listing: the blocker is the lowest unready replica and the never-created ones are exactly the absent tail after it |
| `StatefulSets.SetReportNoDanglingCause` | internal/analyze/statefulset.go:27-45 | no dangling cause in a StatefulSet report |
| `StatefulSets.SetReadIff` | internal/collect/statefulset.go:18-45 | nothing is recorded exactly when every read succeeded or its NotFound is a fact |
| `StatefulSets.HealthySetIff` | internal/analyze/statefulset.go:27-46 | under `HistoryApart` exactly when a StatefulSet report is healthy: everything read, enough ready replicas, no blocked rollout, a headless governing Service, usable claims, every Pod well or waiting for its own claim; the condition suffices for every wording |
| `SetVerdict.SetRulesSay` | internal/diagnosis/rules/statefulset/statefulset.go:107-443 | the StatefulSet rules report exactly what a table of the API answers says: blocked rollout, claims, governing Service, update strategy, replicas |
| `SetVerdict.SetReportSays` | internal/analyze/statefulset.go:27-45 | a StatefulSet report says that and what its Pods show |
| `SetVerdict.ExactSetStatus` | internal/analyze/statefulset.go:27-53 | the exact status of a StatefulSet report |
| `Summaries.SetSummary` | internal/diagnosis/rules/statefulset/statefulset.go:120-161 | a blocked rollout tells the blocking replica and how many wait, unavailable replicas how many of those wanted are ready |
| `Ingresses.FlattenPaths` | internal/collect/ingress.go:59-90 | the routing table in declaration order, default backend first |
| `IngressVerdict.InPaths` | internal/collect/ingress.go:59-97 | the table lists every route of the Ingress and nothing else |
| `IngressVerdict.PathsStart` | internal/collect/ingress.go:59-72 | it starts with the default backend |
| `IngressVerdict.PathsGrow` | internal/collect/ingress.go:73-90 | every further rule adds its paths at the end, in its own order |
| `Ingresses.CollectClass` | internal/collect/ingress.go:99-142 | which class should serve the Ingress |
| `Ingresses.CollectBackend` | internal/collect/ingress.go:146-172 | one backend Service, its endpoints, and its Pods when it publishes nothing |
| `Ingresses.CollectServices` | internal/collect/ingress.go:48-53 | each distinct backend Service is resolved exactly once |
| `Ingresses.CollectIngress` | internal/collect/ingress.go:22-55 | the Ingress snapshot for every API behaviour |
| `IngressRules.FindMissingPorts` | internal/diagnosis/rules/ingress/ingress.go:153-164 | the ports asked for and not exposed, each once |
| `IngressRules.MissingPortsAre` | internal/diagnosis/rules/ingress/ingress.go:153-164 | they are ports of routes that the Service does not expose, all of them, no two that read the same |
| `IngressRules.EvaluateBackends` | internal/diagnosis/rules/ingress/ingress.go:80-126 | the backend findings, for any iteration order |
| `IngressRules.OneFindingPerService` | internal/diagnosis/rules/ingress/ingress.go:80-126 | everything said about a Service is at most one finding, for its first broken link |
| `IngressRules.BreakIff` | internal/diagnosis/rules/ingress/ingress.go:105-124 | the first broken link in terms of the API's answers: existence, then port, then endpoints |
| `IngressRules.RoutesListedOnce` | internal/diagnosis/rules/ingress/ingress.go:348-356 | the route evidence lists every path to a broken Service exactly once and no other |
| `IngressRules.RouteReads` | internal/diagnosis/rules/ingress/ingress.go:348-356 | a route is written as host and path, or as the default, followed by its Service and port |
| `IngressRules.IngressReadIff` | internal/collect/ingress.go:22-55 | nothing is recorded exactly when every read succeeded or its NotFound is a fact |
| `IngressRules.HealthyIngressIff` | internal/analyze/ingress.go:25-43 | under `HistoryApart` exactly when an Ingress report is healthy: everything read, some route, every Service routed to exists, exposes the ports and has a ready endpoint or is an alias, an address or a class that may still give one, every Pod behind a Service that publishes nothing well; the condition suffices for every wording |
| `IngressVerdict.IngressRulesSay` | internal/diagnosis/rules/ingress/ingress.go:66-346 | the Ingress rules report exactly what a table of the API answers says: no rules, the first broken link to each Service, class, address |
| `IngressVerdict.IngressReportSays` | internal/analyze/ingress.go:25-43 | an Ingress report says that and what the Pods looked at show |
| `IngressVerdict.ExactIngressStatus` | internal/analyze/ingress.go:25-50 | the exact status of an Ingress report |
| `IngressRules.IngressNoDanglingCause` | internal/analyze/ingress.go:25-43 | no dangling cause in an Ingress report |
| `Deployments.CollectDeployment` | internal/collect/deployment.go:18-61 | the Deployment snapshot for every API behaviour and lock order |
| `Deployments.DeploymentNoDanglingCause` | internal/analyze/deployment.go:32-53 | no dangling cause in a Deployment report |
| `Deployments.HealthyDeploymentIff` | internal/analyze/deployment.go:32-54 | under `HistoryApart` exactly when a Deployment report is healthy: everything read, every desired replica available, not paused, failed or overdue, every Pod well; the condition suffices for every wording |
| `DeploymentVerdict.DeploymentRulesSay` | internal/diagnosis/rules/deployment/deployment.go:60-267 | the Deployment rules report exactly what a table of its fields says: scaled to zero, paused, replica failure, deadline exceeded, rolling out, too few replicas, none of them critical unless nothing is available or the rollout failed |
| `DeploymentVerdict.DeploymentReportSays` | internal/analyze/deployment.go:32-53 | a Deployment report says that and what its Pods show |
| `DeploymentVerdict.ExactDeploymentStatus` | internal/analyze/deployment.go:32-54 | the exact status: unhealthy for a replica failure, an exceeded deadline, no available replica of those wanted, or a critical Pod finding; degraded for fewer, a pause or a Pod warning; unknown if a read failed |
| `Summaries.DeploymentSummary` | internal/diagnosis/rules/deployment/deployment.go:225-260 | it is told how many replicas of those wanted are available |
| `ReportOrder.PodReportInOrder` | internal/analyze/pod.go:31-42 | a Pod report lists known severities only, in the engine's order |
| `ReportOrder.ServiceReportInOrder` | internal/analyze/service.go:35-55 | so does a Service report |
| `ReportOrder.ClaimReportInOrder` | internal/analyze/pvc.go:25-35 | so does a claim report |
| `ReportOrder.DeploymentReportInOrder` | internal/analyze/deployment.go:32-54 | so does a Deployment report |
| `ReportOrder.SetReportInOrder` | internal/analyze/statefulset.go:27-46 | so does a StatefulSet report |
| `ReportOrder.IngressReportInOrder` | internal/analyze/ingress.go:25-44 | so does an Ingress report |
| `Analysis.AnalyzePod` | internal/analyze/pod.go:20-49 | from API to status: no dangling cause, in order and headed as promised, absences confirmed, the exact status by the table of `PodVerdict`, an empty report only for a ready or finished Pod |
| `Analysis.AnalyzeService` | internal/analyze/service.go:25-62 | from API to status: no dangling cause, in order and headed as promised, the exact status by the table of `ServiceVerdict`, healthy, under `HistoryApart`, exactly when everything was read and the Service is an alias or leads to Pods that are well |
| `Analysis.AnalyzeClaim` | internal/analyze/pvc.go:16-41 | from API to status: no dangling cause, in order and headed as promised, the exact status by the table of `ClaimVerdict`, healthy exactly when everything was read and the claim is bound or awaited |
| `Analysis.AnalyzeDeployment` | internal/analyze/deployment.go:22-54 | from API to status: no dangling cause, in order and headed as promised, the exact status by the table of `DeploymentVerdict`, healthy, under `HistoryApart`, exactly when everything was read, the rollout is complete and the Pods are well |
| `Analysis.AnalyzeStatefulSet` | internal/analyze/statefulset.go:17-53 | from API to status: no dangling cause, in order and headed as promised, the exact status by the table of `SetVerdict`, healthy, under `HistoryApart`, exactly when everything was read, the set has what it asks for and its Pods are well or wait for their own claims |
| `Analysis.AnalyzeIngress` | internal/analyze/ingress.go:15-50 | from API to status: no dangling cause, in order and headed as promised, the exact status by the table of `IngressVerdict`, healthy, under `HistoryApart`, exactly when everything was read, every route is served, the Ingress is adopted or may still be, and the Pods looked at are well |
| `Layout.Wrap` | internal/output/style.go:128-144 | the loop computes the greedy breaking |
| `Layout.WrapIsOptimal` | internal/output/style.go:127-144 | every word once and in order, every line fits or is a single word, no other such breaking has fewer lines |
| `Layout.GreedyIsBest` | internal/output/style.go:128-144 | fewest lines, and among those the shortest last line |
| `Colour.PassErasable` | internal/output/color.go:126-162 | one replacement pass over any text, coloured or not, adds only what stripping removes |
| `Colour.ValueErasable` | internal/output/color.go:139-175 | stripping a coloured value or note gives the stripped text, for every string |
| `Colour.PaintErasable` | internal/output/style.go:74-79 | painting is erasable |
| `Palette.WordColour` | internal/output/color.go:100-160 | which words of Kubernetes are shown in red, yellow and green, with which control sequences, and that any other single word stays as it is |
| `Palette.CountColour` | internal/output/color.go:139-160 | a count of the form have/want is green when complete, red at none and yellow between |
| `Palette.HeadingColour` | internal/output/color.go:184-200 | a heading is bold red, yellow or blue by severity |
| `Palette.HeadlineColour` | internal/output/text.go:80-92 | the sign in front of the headline is green, red or yellow by status |
| `Palette.LineColours` | internal/output/color.go:178-181 | commands are cyan, labels dim, titles bold |
| `Palette.NoteColour` | internal/output/color.go:167-175 | a note keeps the colours of its words, and is dim if it has none |
| `Erasure.ColourIsErasable` | internal/output/text.go:44-291 | stripping the coloured report gives exactly the plain report |
| `Outline.DocumentSaysOutline` | internal/output/text.go:44-291 | whatever the width, the words of a report are exactly those of its outline, in order: sign and headline, per finding heading, summary, explanation, evidence, causes, suggestions and rule, then sections, what could not be read, reassurance, what was inspected |
| `Outline.ReportSaysOutline` | internal/output/text.go:21-78 | so are the words of the printed text |
| `Margins.MarginReads` | internal/output/text.go:44-291 | along the left margin it reads as headline, headings and titles only; everything else hangs under them, and a blank line stands above each |
| `Renderer.RenderText` | internal/output/text.go:21-78 | the writer receives the specified document, or its beginning and an error |
| `Renderer.TextRenderer.WriteLine` | internal/output/text.go:34-42 | nothing is written after a failed write |
| `Renderer.TextRenderer.WriteDiagnosis` | internal/output/text.go:94-146 | the lines of one finding |
| `Renderer.TextRenderer.WriteSection` | internal/output/text.go:214-241 | title, aligned items and tree of a section |
| `Renderer.EvidenceAligned` | internal/output/text.go:173-187 | all values of the evidence start in one column |
| `Rendering.HeadedConsequenceIff` | internal/output/text.go:148-163 | headed CONSEQUENCE exactly when the cause was printed before |
| `Rendering.ConsequenceHeading` | internal/output/text.go:148-163 | in a prioritised report: exactly when a finding it blames is at least as serious |
| `Rendering.ReportHeadings` | internal/output/text.go:148-163 | the same for every consequence of a report that is in order |

## Left out

- Kubeconfig loading, typed clients, timeouts and error texts: only the outcome of a read is kept.
- CLI flags, exit codes, shell completion, JSON output, rule catalogs and metadata: plumbing.
- Terminal, locale and Windows console detection: environment reads; a style is a parameter.
- Explanations, possible causes, suggestions and most evidence that the rules attach: text constants. The renderer is proved for arbitrary ones; the rules keep the evidence that names absent objects, routes and never-created replicas.
- Image pull classification, exit code interpretation, probe wording and `format.Duration`: tables and presentation, arbitrary parameters of the model.
- Overview sections and headlines of the reports: display only; the renderer is proved for arbitrary ones.
- The calls to `Inspect` inside the collectors: `Collection.Inspect` itself is modelled, what each collector lists is not.
- The owner chain of a Pod: its failed reads are an arbitrary list of degradations. Its result is display only.
- The ReplicaSets of a Deployment: whether they could be read is modelled, their order and the current revision are display only.
- Partial writes: a write either succeeds as a whole or fails.
- Unicode beyond code points: `strings.ToLower` is modelled on ASCII letters, and strings are valid UTF-8.
- An oracle answers repeated reads of one claim or Service name within one run in the same way; in a StatefulSet this can only matter when two templates share a name.
- Scheduling.ParseUndoesMessage: the node count is at most the largest int, because `Atoi` saturates above it and its error is ignored.
- Sorting by a comparator that is no strict weak order: `Sort` is insertion, as `sort.SliceStable` is for up to twenty elements. Beyond that its result on such a comparator is not modelled; it concerns unknown severities, and `StatefulSets.CollectSet` and `StatefulSets.HealthySetIff` for owned Pods whose names carry no ordinal (`Ordinals.OrdinalOrderIsStrictWeakIff`).
