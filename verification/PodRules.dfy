/** The Pod rules (internal/diagnosis/rules/pod). */
module PodRules {
  import opened Sequences
  import opened GroupBy
  import opened StableSort
  import opened Text
  import opened Names
  import opened Model
  import opened Events
  import opened Collecting
  import opened Pods
  import Scheduling
  import Engine

  const OOM_REASON := "OOMKilled"
  const CRASH_LOOP_REASON := "CrashLoopBackOff"
  const RECENT: int := 10 * MINUTE

  /** The lookup tables behind the rules: summary wording, and how sure the classification of a
      registry message is. Results hold for every choice of them, unless they ask for a wording that
      tells history from trouble. */
  datatype Env = Env(say: Wording, pullConfidence: (PodSnap, Container) -> Confidence)

  // ---- What the container rules look at ----

  datatype OOMState = NotOOM | OOMNow | OOMBefore

  /** The termination that reports an OOM kill, checking the current state first. */
  function OOMTermination(c: Container): OOMState {
    if c.Ended().Some? && c.Ended().value.reason == OOM_REASON then OOMNow
    else if c.LastEnded().Some? && c.LastEnded().value.reason == OOM_REASON then OOMBefore
    else NotOOM
  }

  predicate IsFlapping(c: Container, now: int) {
    && c.Restarts() >= 2 && c.LastEnded().Some? && c.LastEnded().value.exitCode != 0
    && now - c.LastEnded().value.finishedAt <= RECENT
  }

  predicate InBackoff(c: Container) {
    c.Waits().Some? && c.Waits().value.reason == CRASH_LOOP_REASON
  }

  function SeverityFor(recovered: bool): Severity {
    if recovered then Warning else Critical
  }

  // ---- OOM kills (oom.go) ----

  function OOMDiagnosis(env: Env, snap: PodSnap, c: Container): Diagnosis {
    var recovered := c.IsRunning() && OOMTermination(c) == OOMBefore && !IsFlapping(c, snap.now);
    Finding(PodOOMKilled, snap.Ref(), c.name, SeverityFor(recovered), Certain, env.say(PodOOMKilled, 0, c.Named()))
  }

  function OOMOf(env: Env, snap: PodSnap): Container -> seq<Diagnosis> {
    (c: Container) =>
      if OOMTermination(c) == NotOOM then [] else [OOMDiagnosis(env, snap, c)]
  }

  function OOMRule(env: Env, snap: PodSnap): seq<Diagnosis> {
    FlatMap(OOMOf(env, snap), Containers(snap.pod))
  }

  method EvaluateOOM(env: Env, snap: PodSnap) returns (out: seq<Diagnosis>)
    ensures out == OOMRule(env, snap)
  {
    var cs := Containers(snap.pod);
    out := [];
    for i := 0 to |cs|
      invariant out == FlatMap(OOMOf(env, snap), cs[..i])
    {
      PrefixStep(cs, i);
      if OOMTermination(cs[i]) == NotOOM {
        continue;
      }
      out := out + [OOMDiagnosis(env, snap, cs[i])];
    }
    assert cs[..|cs|] == cs;
  }

  // ---- Crash loops (crashloop.go) ----

  function FailureID(c: Container, regular: FindingID): FindingID {
    if c.init && !c.sidecar then PodInitContainerFailed else regular
  }

  function CrashDiagnosis(env: Env, snap: PodSnap, c: Container): Diagnosis {
    var id := FailureID(c, PodCrashLoop);
    var severity := if id != PodInitContainerFailed && !InBackoff(c) && c.Ready() then Warning else Critical;
    Finding(id, snap.Ref(), c.name, severity, Certain, env.say(PodCrashLoop, 0, c.Named()))
  }

  function CrashOf(env: Env, snap: PodSnap): Container -> seq<Diagnosis> {
    (c: Container) =>
      if !InBackoff(c) && !IsFlapping(c, snap.now) then []
      else if OOMTermination(c) != NotOOM then []
      else [CrashDiagnosis(env, snap, c)]
  }

  function CrashRule(env: Env, snap: PodSnap): seq<Diagnosis> {
    if snap.IsTerminal() then [] else FlatMap(CrashOf(env, snap), Containers(snap.pod))
  }

  method EvaluateCrashLoop(env: Env, snap: PodSnap) returns (out: seq<Diagnosis>)
    ensures out == CrashRule(env, snap)
  {
    out := [];
    if snap.IsTerminal() {
      return;
    }
    var cs := Containers(snap.pod);
    for i := 0 to |cs|
      invariant out == FlatMap(CrashOf(env, snap), cs[..i])
    {
      PrefixStep(cs, i);
      if !InBackoff(cs[i]) && !IsFlapping(cs[i], snap.now) {
        continue;
      }
      if OOMTermination(cs[i]) != NotOOM {
        continue;
      }
      out := out + [CrashDiagnosis(env, snap, cs[i])];
    }
    assert cs[..|cs|] == cs;
  }

  // ---- Containers that ended (terminated.go) ----

  function Evictions(env: Env, snap: PodSnap): seq<Diagnosis> {
    if snap.pod.statusReason != "Evicted" then []
    else [Finding(PodEvicted, snap.Ref(), "", Critical, Certain, env.say(PodEvicted, 0, []))]
  }

  predicate AwaitsRestart(snap: PodSnap) {
    snap.pod.phase != Failed && snap.pod.restartPolicy != Never
  }

  function EndedDiagnosis(env: Env, snap: PodSnap, c: Container, exitCode: int): Diagnosis {
    var id, args := FailureID(c, PodContainerTerminatedError), c.Named() + [Number(exitCode)];
    if AwaitsRestart(snap) then Finding(id, snap.Ref(), c.name, Warning, Certain, env.say(PodContainerTerminatedError, 1, args))
    else Finding(id, snap.Ref(), c.name, Critical, Certain, env.say(PodContainerTerminatedError, 0, args))
  }

  function EndedOf(env: Env, snap: PodSnap): Container -> seq<Diagnosis> {
    (c: Container) =>
      if c.Ended().None? || c.Ended().value.exitCode == 0 || c.Ended().value.reason == OOM_REASON then []
      else if AwaitsRestart(snap) && (IsFlapping(c, snap.now) || InBackoff(c)) then []
      else [EndedDiagnosis(env, snap, c, c.Ended().value.exitCode)]
  }

  function EndedRule(env: Env, snap: PodSnap): seq<Diagnosis> {
    Evictions(env, snap) + if snap.pod.phase == Succeeded then [] else FlatMap(EndedOf(env, snap), Containers(snap.pod))
  }

  method EvaluateTerminated(env: Env, snap: PodSnap) returns (out: seq<Diagnosis>)
    ensures out == EndedRule(env, snap)
  {
    out := Evictions(env, snap);
    if snap.pod.phase == Succeeded {
      return;
    }
    var ended := EvaluateEnded(env, snap);
    out := out + ended;
  }

  method EvaluateEnded(env: Env, snap: PodSnap) returns (out: seq<Diagnosis>)
    ensures out == FlatMap(EndedOf(env, snap), Containers(snap.pod))
  {
    out := [];
    var cs := Containers(snap.pod);
    for i := 0 to |cs|
      invariant out == FlatMap(EndedOf(env, snap), cs[..i])
    {
      PrefixStep(cs, i);
      var term := cs[i].Ended();
      if term.None? || term.value.exitCode == 0 || term.value.reason == OOM_REASON {
        continue;
      }
      if AwaitsRestart(snap) && (IsFlapping(cs[i], snap.now) || InBackoff(cs[i])) {
        continue;
      }
      out := out + [EndedDiagnosis(env, snap, cs[i], term.value.exitCode)];
    }
    assert cs[..|cs|] == cs;
  }

  // ---- Restart history (restarts.go) ----

  function RestartDiagnosis(env: Env, snap: PodSnap, c: Container): Diagnosis {
    var args := c.Named() + [Number(c.Restarts())];
    var summary :=
      if c.LastEnded().None? then env.say(PodRestarted, 0, args)
      else env.say(PodRestarted, 1, args + [Age(snap.now - c.LastEnded().value.finishedAt)]);
    Finding(PodRestarted, snap.Ref(), c.name, Info, Certain, summary)
  }

  function RestartOf(env: Env, snap: PodSnap): Container -> seq<Diagnosis> {
    (c: Container) =>
      if c.Restarts() == 0 || !c.IsRunning() then []
      else if IsFlapping(c, snap.now) || InBackoff(c) then []
      else if OOMTermination(c) != NotOOM then []
      else [RestartDiagnosis(env, snap, c)]
  }

  function RestartRule(env: Env, snap: PodSnap): seq<Diagnosis> {
    if snap.IsTerminal() then [] else FlatMap(RestartOf(env, snap), Containers(snap.pod))
  }

  method EvaluateRestartHistory(env: Env, snap: PodSnap) returns (out: seq<Diagnosis>)
    ensures out == RestartRule(env, snap)
  {
    out := [];
    if snap.IsTerminal() {
      return;
    }
    var cs := Containers(snap.pod);
    for i := 0 to |cs|
      invariant out == FlatMap(RestartOf(env, snap), cs[..i])
    {
      PrefixStep(cs, i);
      if cs[i].Restarts() == 0 || !cs[i].IsRunning() || IsFlapping(cs[i], snap.now) || InBackoff(cs[i])
         || OOMTermination(cs[i]) != NotOOM
      {
        continue;
      }
      out := out + [RestartDiagnosis(env, snap, cs[i])];
    }
    assert cs[..|cs|] == cs;
  }

  // ---- Image pulls, probes and the node (imagepull.go, probes.go, node.go) ----

  const IMAGE_WAIT_REASONS := ["ImagePullBackOff", "ErrImagePull", "InvalidImageName", "ImageInspectError", "ErrImageNeverPull", "RegistryUnavailable"]

  function ImagePullOf(env: Env, snap: PodSnap): Container -> seq<Diagnosis> {
    (c: Container) => ImagePull(env, snap, c)
  }

  function ImagePull(env: Env, snap: PodSnap, c: Container): seq<Diagnosis> {
    if c.Waits().None? || c.Waits().value.reason !in IMAGE_WAIT_REASONS then []
    else [Finding(PodImagePullFailed, snap.Ref(), c.name, Critical, env.pullConfidence(snap, c),
                  env.say(PodImagePullFailed, 0, c.Named()))]
  }

  function ImagePullRule(env: Env, snap: PodSnap): seq<Diagnosis> {
    FlatMap(ImagePullOf(env, snap), Containers(snap.pod))
  }

  /** The container an event refers to, from its field path. */
  function EventContainer(e: Event): string {
    var a, b := "spec.containers{", "spec.initContainers{";
    var f := e.fieldPath;
    if a <= f && |f| > |a| && f[|f| - 1] == '}' then f[|a|..|f| - 1]
    else if b <= f && |f| > |b| && f[|f| - 1] == '}' then f[|b|..|f| - 1]
    else ""
  }

  datatype ProbeKind = Readiness | Liveness | Startup

  datatype ProbeHit = ProbeHit(event: Event, kind: ProbeKind)

  datatype ProbeKey = ProbeKey(container: string, kind: ProbeKind)

  function ProbeKeyOf(h: ProbeHit): ProbeKey {
    ProbeKey(EventContainer(h.event), h.kind)
  }

  function ProbeHits(e: Event): seq<ProbeHit> {
    if "Readiness probe failed" <= e.message then [ProbeHit(e, Readiness)]
    else if "Liveness probe failed" <= e.message then [ProbeHit(e, Liveness)]
    else if "Startup probe failed" <= e.message then [ProbeHit(e, Startup)]
    else []
  }

  /** The last container of that name, which is the one a map built in order keeps. */
  function ContainerNamed(cs: seq<Container>, name: string): Option<Container> {
    if cs == [] then None else if Last(cs).name == name then Some(Last(cs)) else ContainerNamed(Front(cs), name)
  }

  function ProbeDiagnosis(env: Env, snap: PodSnap, h: ProbeHit): Diagnosis {
      var c := ContainerNamed(Containers(snap.pod), EventContainer(h.event));
      var failing := c.Some? && !c.value.Ready();
      var recent := snap.now - h.event.lastSeen <= RECENT;
      var id := match h.kind case Readiness => PodReadinessProbeFailed case Liveness => PodLivenessProbeFailed case Startup => PodStartupProbeFailed;
      var subject := if c.Some? then [Text(c.value.name)] else [];
      var summary :=
        if failing then env.say(id, 0, subject)
        else if recent then env.say(id, 1, subject)
        else env.say(id, 2, subject + [Age(snap.now - h.event.lastSeen)]);
      var severity :=
        if h.kind == Liveness && c.Some? && c.value.Restarts() > 0 && recent then Critical
        else if h.kind == Startup && (failing || recent) then Critical
        else if failing then Critical else if recent then Warning else Info;
      Finding(id, snap.Ref(), if c.Some? then c.value.name else "", severity, Certain, summary)
  }

  /** One finding per container and probe kind, from the most recent event. */
  function ProbeRule(env: Env, snap: PodSnap): seq<Diagnosis> {
    if snap.IsTerminal() then []
    else Map((h: ProbeHit) => ProbeDiagnosis(env, snap, h), Firsts(ProbeKeyOf, FlatMap(ProbeHits, Ordered(Filter(HasReason(["Unhealthy"]), snap.events)))))
  }

  function NodeRule(env: Env, snap: PodSnap): seq<Diagnosis> {
    if snap.node.None? || snap.IsTerminal() || snap.node.value.ready.None? || snap.node.value.ready.value == "True" then []
    else [Finding(PodNodeNotReady, ResourceRef("Node", "", snap.node.value.name), "", Critical, Certain,
                  env.say(PodNodeNotReady, 0, [Text(snap.node.value.name)]))]
  }

  // ---- Missing configuration (config.go) ----

  /** Go walks a map in a new order every time: one order for each loop of each rule. */
  datatype MapOrder = MapOrder(
    configMaps: seq<string>, secrets: seq<string>, claims: seq<string>,
    mountConfigMaps: seq<string>, mountSecrets: seq<string>, mountClaims: seq<string>,
    schedulingClaims: seq<string>)

  ghost predicate OrderOf(ord: MapOrder, snap: PodSnap) {
    && Enumerates(ord.configMaps, snap.configMaps.Keys) && Enumerates(ord.mountConfigMaps, snap.configMaps.Keys)
    && Enumerates(ord.secrets, snap.secrets.Keys) && Enumerates(ord.mountSecrets, snap.secrets.Keys)
    && Enumerates(ord.claims, snap.claims.Keys) && Enumerates(ord.mountClaims, snap.claims.Keys)
    && Enumerates(ord.schedulingClaims, snap.claims.Keys)
  }

  function IsMissing(refs: map<string, Existence>): string -> bool {
    (name: string) => name in refs && refs[name] == Missing
  }

  /** The names the API server confirmed absent, sorted. */
  function MissingNames(refs: map<string, Existence>, order: seq<string>): seq<string> {
    Sort(ByName(), Filter(IsMissing(refs), order))
  }

  /** The names a kubelet message quotes: `"([^"]+)"`. */
  function QuotedNames(s: string): seq<string>
    decreases |s|
  {
    match Find(s, '"')
    case None => []
    case Some(i) =>
      var rest := s[i + 1..];
      match Find(rest, '"')
      case None => []
      case Some(j) => if j == 0 then QuotedNames(rest) else [rest[..j]] + QuotedNames(rest[j + 1..])
  }

  predicate ReferencesAny(message: string, names: seq<string>) {
    exists i :: 0 <= i < |QuotedNames(message)| && QuotedNames(message)[i] in names
  }

  function AbsenceEvidence(kind: string, name: string): Evidence {
    Evidence("api", kind + "/" + name, "NotFound", "")
  }

  function MissingObject(env: Env, snap: PodSnap, id: FindingID, kind: string, name: string): Diagnosis {
    Finding(id, snap.Ref(), "", Critical, Certain, env.say(id, 0, [Text(name)])).(evidence := [AbsenceEvidence(kind, name)])
  }

  function ConfigCause(message: string, configMaps: seq<string>, secrets: seq<string>): FindingID {
    if ReferencesAny(message, configMaps) then PodMissingConfigMap
    else if ReferencesAny(message, secrets) then PodMissingSecret
    else if configMaps != [] then PodMissingConfigMap
    else if secrets != [] then PodMissingSecret
    else NoID
  }

  function ConfigErrorOf(env: Env, snap: PodSnap, configMaps: seq<string>, secrets: seq<string>): Container -> seq<Diagnosis> {
    (c: Container) => ConfigError(env, snap, configMaps, secrets, c)
  }

  function ConfigError(env: Env, snap: PodSnap, configMaps: seq<string>, secrets: seq<string>, c: Container): seq<Diagnosis> {
    if c.Waits().None? || c.Waits().value.reason !in ["CreateContainerConfigError", "CreateContainerError"] then []
    else [Finding(PodCreateContainerConfigErr, snap.Ref(), c.name, Critical, Certain,
                  env.say(PodCreateContainerConfigErr, 0, c.Named()))
          .(causedBy := ConfigCause(c.Waits().value.message, configMaps, secrets))]
  }

  function AbsentObjects(env: Env, snap: PodSnap, id: FindingID, kind: string, names: seq<string>): seq<Diagnosis> {
    Map((name: string) => MissingObject(env, snap, id, kind, name), names)
  }

  function ConfigErrors(env: Env, snap: PodSnap, configMaps: seq<string>, secrets: seq<string>): seq<Diagnosis> {
    FlatMap(ConfigErrorOf(env, snap, configMaps, secrets), Containers(snap.pod))
  }

  function ConfigRule(env: Env, snap: PodSnap, ord: MapOrder): seq<Diagnosis> {
    var cms, secs := MissingNames(snap.configMaps, ord.configMaps), MissingNames(snap.secrets, ord.secrets);
    AbsentObjects(env, snap, PodMissingConfigMap, "configmap", cms)
    + AbsentObjects(env, snap, PodMissingSecret, "secret", secs)
    + ConfigErrors(env, snap, cms, secs)
  }

  // ---- Mount failures (mount.go) ----

  predicate AnyWaiting(cs: seq<Container>) {
    exists i :: 0 <= i < |cs| && cs[i].Waits().Some?
  }

  /** The cause the loop over the claims leaves behind: the last missing one wins. */
  function MissingClaimCause(claims: map<string, ClaimRef>, order: seq<string>): FindingID {
    if order == [] then NoID
    else if Last(order) in claims && claims[Last(order)].existence == Missing then PodPVCNotFound
    else MissingClaimCause(claims, Front(order))
  }

  function MountCause(snap: PodSnap, ord: MapOrder): FindingID {
    if MissingNames(snap.configMaps, ord.mountConfigMaps) != [] then PodMissingConfigMap
    else if MissingNames(snap.secrets, ord.mountSecrets) != [] then PodMissingSecret
    else MissingClaimCause(snap.claims, ord.mountClaims)
  }

  function MountRule(env: Env, snap: PodSnap, ord: MapOrder): seq<Diagnosis> {
    if snap.IsTerminal() || LatestOf(snap.events, ["FailedMount", "FailedAttachVolume"]).None? || !AnyWaiting(Containers(snap.pod)) then []
    else [Finding(PodFailedMount, snap.Ref(), "", Critical, Certain, env.say(PodFailedMount, 0, []))
          .(causedBy := MountCause(snap, ord))]
  }

  // ---- Scheduling (scheduling.go) ----

  function SchedulerMessage(snap: PodSnap): string {
    var cond := ConditionOf(snap.pod, "PodScheduled");
    if cond.Some? && cond.value.status == "False" && cond.value.message != "" then cond.value.message
    else
      var ev := LatestOf(snap.events, ["FailedScheduling"]);
      if ev.Some? then ev.value.message else ""
  }

  /** The cause the loop over the claims leaves behind: the last missing or pending one wins. */
  function VolumeCause(claims: map<string, ClaimRef>, order: seq<string>): FindingID {
    if order == [] then NoID
    else
      var name := Last(order);
      if name in claims && claims[name].existence == Missing then PodPVCNotFound
      else if name in claims && claims[name].phase == ClaimPending then PodPVCNotBound
      else VolumeCause(claims, Front(order))
  }

  function Unschedulable(env: Env, snap: PodSnap, ord: MapOrder, report: Scheduling.SchedulerReport): Diagnosis {
    var id := match Scheduling.Dominant(report.reasons) case Some(id) => id case None => PodUnschedulable;
    Finding(id, snap.Ref(), "", Critical, Certain, env.say(PodUnschedulable, 0, []))
    .(causedBy := if Scheduling.HasCategory(report.reasons, Scheduling.VolumeCategory) then VolumeCause(snap.claims, ord.schedulingClaims) else NoID)
  }

  function SchedulingRule(env: Env, snap: PodSnap, ord: MapOrder): seq<Diagnosis> {
    if snap.pod.nodeName != "" || snap.IsTerminal() then []
    else if snap.pod.gates != [] then
      [Finding(PodSchedulingGated, snap.Ref(), "", Warning, Certain, env.say(PodSchedulingGated, 0, []))]
    else if SchedulerMessage(snap) == "" then []
    else [Unschedulable(env, snap, ord, Scheduling.Parsed(SchedulerMessage(snap)))]
  }

  // ---- Claims (claim.go) ----

  function PhaseText(p: ClaimPhase): string {
    match p
    case NoPhase => "Unknown"
    case ClaimPending => "Pending"
    case Bound => "Bound"
    case Lost => "Lost"
    case OtherClaimPhase(text) => text
  }

  function UnboundClaim(env: Env, subject: ResourceRef, claim: ClaimRef): Diagnosis {
    if claim.WaitsForConsumer() then Finding(PodPVCNotBound, subject, "", Info, Certain, env.say(PodPVCNotBound, 1, [Text(claim.name)]))
    else Finding(PodPVCNotBound, subject, "", Critical, Certain, env.say(PodPVCNotBound, 0, [Text(claim.name), Text(PhaseText(claim.phase))]))
  }

  function ClaimFindings(env: Env, snap: PodSnap, name: string): seq<Diagnosis> {
    if name !in snap.claims then []
    else
      var claim := snap.claims[name];
      if claim.existence == Missing then
        [Finding(PodPVCNotFound, ResourceRef("PersistentVolumeClaim", snap.pod.ns, name), "", Critical, Certain, env.say(PodPVCNotFound, 0, [Text(name)]))
         .(evidence := [AbsenceEvidence("persistentvolumeclaim", name)])]
      else if claim.existence == Found && claim.phase != Bound then
        [UnboundClaim(env, ResourceRef("PersistentVolumeClaim", snap.pod.ns, claim.name), claim)]
      else []
  }

  function ClaimOf(env: Env, snap: PodSnap): string -> seq<Diagnosis> {
    (name: string) => ClaimFindings(env, snap, name)
  }

  function ClaimRule(env: Env, snap: PodSnap, ord: MapOrder): seq<Diagnosis> {
    if snap.IsTerminal() then [] else FlatMap(ClaimOf(env, snap), Sort(ByName(), ord.claims))
  }

  // ---- The rule set (pod.go) and the fallback (fallback.go) ----

  /** The eleven rules in evaluation order. */
  function Rules(env: Env, ord: MapOrder): seq<Engine.Rule<PodSnap>> {
    [(s: PodSnap) => OOMRule(env, s),
     (s: PodSnap) => CrashRule(env, s),
     (s: PodSnap) => EndedRule(env, s),
     (s: PodSnap) => ImagePullRule(env, s),
     (s: PodSnap) => SchedulingRule(env, s, ord),
     (s: PodSnap) => ProbeRule(env, s),
     (s: PodSnap) => ConfigRule(env, s, ord),
     (s: PodSnap) => MountRule(env, s, ord),
     (s: PodSnap) => ClaimRule(env, s, ord),
     (s: PodSnap) => NodeRule(env, s),
     (s: PodSnap) => RestartRule(env, s)]
  }

  function Fallback(env: Env, snap: PodSnap): seq<Diagnosis> {
    if snap.IsTerminal() || PodReady(snap.pod) then []
    else
      var summary :=
        if snap.pod.deletedAt.Some? then env.say(PodNotReadyUnexplained, 2, [Age(snap.now - snap.pod.deletedAt.value)])
        else if snap.pod.phase == Pending then env.say(PodNotReadyUnexplained, 1, [Age(snap.now - snap.pod.createdAt)])
        else env.say(PodNotReadyUnexplained, 0, []);
      [Finding(PodNotReadyUnexplained, snap.Ref(), "", Warning, Certain, summary)]
  }
}
