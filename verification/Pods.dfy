/** The Pod object and the snapshot the Pod rules read (internal/snapshot/pod.go). */
module Pods {
  import opened Sequences
  import opened Model
  import opened Events
  import opened Collecting

  datatype PodPhase = Pending | Running | Succeeded | Failed | OtherPhase(text: string)

  datatype RestartPolicy = Always | OnFailure | Never | OtherPolicy(text: string)

  datatype Terminated = Terminated(exitCode: int, reason: string, finishedAt: int)

  datatype Waiting = Waiting(reason: string, message: string)

  datatype ContainerStatus = ContainerStatus(
    name: string, restartCount: int32, ready: bool, waiting: Option<Waiting>, running: bool,
    terminated: Option<Terminated>, lastTerminated: Option<Terminated>)

  /** A ConfigMap or Secret named by a container or a volume. */
  datatype ConfigRef = ConfigMapRef(name: string, optional: bool) | SecretRef(name: string, optional: bool)

  datatype ContainerSpec = ContainerSpec(
    name: string, alwaysRestart: bool, cpu: int, memory: int, portNames: seq<string>, refs: seq<ConfigRef>)

  datatype Condition = Condition(typ: string, status: string, message: string)

  datatype Volume = Volume(claim: Option<string>, refs: seq<ConfigRef>)

  datatype PodObject = PodObject(
    name: string, ns: string, phase: PodPhase, statusReason: string, restartPolicy: RestartPolicy,
    nodeName: string, gates: seq<string>,
    initContainers: seq<ContainerSpec>, containers: seq<ContainerSpec>,
    initStatuses: seq<ContainerStatus>, statuses: seq<ContainerStatus>,
    conditions: seq<Condition>, volumes: seq<Volume>, pullSecrets: seq<string>,
    owners: seq<string>, createdAt: int, deletedAt: Option<int>)

  datatype ClaimPhase = NoPhase | ClaimPending | Bound | Lost | OtherClaimPhase(text: string)

  datatype ClaimRef = ClaimRef(name: string, existence: Existence, phase: ClaimPhase, storageClass: string, bindingMode: string)
  {
    predicate WaitsForConsumer() {
      bindingMode == "WaitForFirstConsumer"
    }
  }

  /** A node and the status of its Ready condition, when it reports one. */
  datatype Node = Node(name: string, ready: Option<string>)

  datatype PodSnap = PodSnap(
    pod: PodObject, events: seq<Event>, node: Option<Node>,
    configMaps: map<string, Existence>, secrets: map<string, Existence>, claims: map<string, ClaimRef>,
    degradations: seq<Degradation>, now: int)
  {
    predicate IsTerminal() {
      pod.phase == Succeeded || pod.phase == Failed
    }

    function Ref(): ResourceRef {
      ResourceRef("Pod", pod.ns, pod.name)
    }
  }

  /** A container's spec merged with its status, when one is reported. */
  datatype Container = Container(name: string, init: bool, sidecar: bool, spec: ContainerSpec, status: Option<ContainerStatus>)
  {
    function Restarts(): int {
      if status.Some? then status.value.restartCount else 0
    }

    function Waits(): Option<Waiting> {
      if status.Some? then status.value.waiting else None
    }

    function Ended(): Option<Terminated> {
      if status.Some? then status.value.terminated else None
    }

    function LastEnded(): Option<Terminated> {
      if status.Some? then status.value.lastTerminated else None
    }

    predicate IsRunning() {
      status.Some? && status.value.running
    }

    predicate Ready() {
      status.Some? && status.value.ready
    }

    /** The arguments a summary uses to name the container. */
    function Named(): seq<Arg> {
      [Kind(init, sidecar), Text(name)]
    }
  }

  function StatusNamed(name: string): ContainerStatus -> bool {
    (s: ContainerStatus) => s.name == name
  }

  function InitContainer(p: PodObject): ContainerSpec -> Container {
    (c: ContainerSpec) => Container(c.name, true, c.alwaysRestart, c, FirstWhere(StatusNamed(c.name), p.initStatuses))
  }

  function RegularContainer(p: PodObject): ContainerSpec -> Container {
    (c: ContainerSpec) => Container(c.name, false, false, c, FirstWhere(StatusNamed(c.name), p.statuses))
  }

  /** Init containers, then regular ones. */
  function Containers(p: PodObject): seq<Container> {
    Map(InitContainer(p), p.initContainers) + Map(RegularContainer(p), p.containers)
  }

  /** The first status of that name, and None exactly when there is none. */
  ghost predicate FirstStatus(statuses: seq<ContainerStatus>, name: string, found: Option<ContainerStatus>) {
    match found
    case None => forall k :: 0 <= k < |statuses| ==> statuses[k].name != name
    case Some(status) => exists k :: 0 <= k < |statuses| && statuses[k] == status && status.name == name
                                     && forall j :: 0 <= j < k ==> statuses[j].name != name
  }

  lemma FirstStatusFound(statuses: seq<ContainerStatus>, name: string)
    ensures FirstStatus(statuses, name, FirstWhere(StatusNamed(name), statuses))
  {
    FirstWhereFound(StatusNamed(name), statuses);
    assert forall k :: 0 <= k < |statuses| ==> statuses[k] in statuses;
  }

  ghost predicate MergesInit(p: PodObject, i: nat, c: Container)
    requires i < |p.initContainers|
  {
    && c.name == p.initContainers[i].name && c.init && c.sidecar == p.initContainers[i].alwaysRestart
    && c.spec == p.initContainers[i] && FirstStatus(p.initStatuses, c.name, c.status)
  }

  ghost predicate MergesRegular(p: PodObject, i: nat, c: Container)
    requires i < |p.containers|
  {
    && c.name == p.containers[i].name && !c.init && !c.sidecar
    && c.spec == p.containers[i] && FirstStatus(p.statuses, c.name, c.status)
  }

  /** Every container of the spec, init containers first, each with the first status of its name from
      the statuses of its own kind. */
  lemma ContainersMerged(p: PodObject)
    ensures |Containers(p)| == |p.initContainers| + |p.containers|
    ensures forall i :: 0 <= i < |p.initContainers| ==> MergesInit(p, i, Containers(p)[i])
    ensures forall k :: |p.initContainers| <= k < |Containers(p)| ==> MergesRegular(p, k - |p.initContainers|, Containers(p)[k])
  {
    forall i | 0 <= i < |p.initContainers| ensures MergesInit(p, i, Containers(p)[i]) {
      FirstStatusFound(p.initStatuses, p.initContainers[i].name);
    }
    forall k | |p.initContainers| <= k < |Containers(p)| ensures MergesRegular(p, k - |p.initContainers|, Containers(p)[k]) {
      FirstStatusFound(p.statuses, Containers(p)[k].name);
    }
  }

  function ConditionNamed(typ: string): Condition -> bool {
    (c: Condition) => c.typ == typ
  }

  function ConditionOf(p: PodObject, typ: string): Option<Condition> {
    FirstWhere(ConditionNamed(typ), p.conditions)
  }

  /** The scan both the collector and the snapshot use to decide readiness. */
  function PodReady(p: PodObject): bool {
    p.phase == Running && ConditionOf(p, "Ready").Some? && ConditionOf(p, "Ready").value.status == "True"
  }

  /** The first condition of that type, if there is one. */
  ghost predicate FirstCondition(p: PodObject, typ: string, c: Condition) {
    exists k :: 0 <= k < |p.conditions| && p.conditions[k] == c && c.typ == typ && forall j :: 0 <= j < k ==> p.conditions[j].typ != typ
  }

  lemma ConditionFound(p: PodObject, typ: string)
    ensures ConditionOf(p, typ).None? <==> forall k :: 0 <= k < |p.conditions| ==> p.conditions[k].typ != typ
    ensures forall c :: FirstCondition(p, typ, c) <==> ConditionOf(p, typ) == Some(c)
  {
    FirstWhereFound(ConditionNamed(typ), p.conditions);
    assert forall k :: 0 <= k < |p.conditions| ==> p.conditions[k] in p.conditions;
  }

  /** A running Pod whose first Ready condition is true. */
  lemma ReadyIff(p: PodObject)
    ensures PodReady(p) <==> p.phase == Running && exists c :: FirstCondition(p, "Ready", c) && c.status == "True"
  {
    ConditionFound(p, "Ready");
  }

  method ScanReady(p: PodObject) returns (ready: bool)
    ensures ready == PodReady(p)
  {
    if p.phase != Running {
      return false;
    }
    for i := 0 to |p.conditions|
      invariant FirstWhere(ConditionNamed("Ready"), p.conditions[..i]).None?
    {
      PrefixStep(p.conditions, i);
      if p.conditions[i].typ == "Ready" {
        FirstWherePrefix(ConditionNamed("Ready"), p.conditions, i + 1);
        return p.conditions[i].status == "True";
      }
    }
    assert p.conditions[..|p.conditions|] == p.conditions;
    return false;
  }

  lemma {:induction false} FirstWherePrefix<T>(p: T -> bool, s: seq<T>, n: nat)
    requires n <= |s| && FirstWhere(p, s[..n]).Some?
    ensures FirstWhere(p, s) == FirstWhere(p, s[..n])
  {
    if n < |s| {
      assert Front(s)[..n] == s[..n];
      FirstWherePrefix(p, Front(s), n);
    } else {
      assert s[..n] == s;
    }
  }
}
