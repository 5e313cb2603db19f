/** The findings and the verdict about a Pod as a table over what the API shows: raw fields of the Pod,
    its events, references and node, without naming the rules or anything they compute. */
module PodVerdict {
  import opened Sequences
  import opened GroupBy
  import opened Model
  import opened Events
  import opened Collecting
  import opened Pods
  import opened PodRules
  import opened PodTheorems
  import opened Reports
  import opened Assembly
  import StableSort
  import Scheduling
  import Engine
  import PodCollect

  // ---- The table: containers ----

  function PodRef(snap: PodSnap): ResourceRef {
    ResourceRef("Pod", snap.pod.ns, snap.pod.name)
  }

  predicate Finished(snap: PodSnap) {
    snap.pod.phase == Succeeded || snap.pod.phase == Failed
  }

  predicate KilledNow(c: Container) {
    c.status.Some? && c.status.value.terminated.Some? && c.status.value.terminated.value.reason == "OOMKilled"
  }

  predicate KilledBefore(c: Container) {
    c.status.Some? && c.status.value.lastTerminated.Some? && c.status.value.lastTerminated.value.reason == "OOMKilled"
  }

  predicate OutOfMemory(c: Container) {
    KilledNow(c) || KilledBefore(c)
  }

  predicate Waiting(c: Container, reasons: seq<string>) {
    c.status.Some? && c.status.value.waiting.Some? && c.status.value.waiting.value.reason in reasons
  }

  predicate BackingOff(c: Container) {
    Waiting(c, ["CrashLoopBackOff"])
  }

  /** Restarted twice or more, the last time from a failure within ten minutes. */
  predicate Flapping(snap: PodSnap, c: Container) {
    && c.status.Some? && c.status.value.restartCount >= 2 && c.status.value.lastTerminated.Some?
    && c.status.value.lastTerminated.value.exitCode != 0
    && snap.now - c.status.value.lastTerminated.value.finishedAt <= 600_000_000_000
  }

  /** Running again after an OOM kill, and no longer cycling. */
  predicate Recovered(snap: PodSnap, c: Container) {
    c.status.Some? && c.status.value.running && KilledBefore(c) && !KilledNow(c) && !Flapping(snap, c)
  }

  predicate BlocksStart(c: Container) {
    c.init && !c.sidecar
  }

  predicate Serving(c: Container) {
    c.status.Some? && c.status.value.ready
  }

  predicate EndedInError(c: Container) {
    && c.status.Some? && c.status.value.terminated.Some?
    && c.status.value.terminated.value.exitCode != 0 && c.status.value.terminated.value.reason != "OOMKilled"
  }

  predicate WillRestart(snap: PodSnap) {
    snap.pod.phase != Failed && snap.pod.restartPolicy != Never
  }

  predicate SaysKilled(snap: PodSnap, c: Container, m: Mark) {
    OutOfMemory(c) && m == Mark(PodOOMKilled, PodRef(snap), c.name, if Recovered(snap, c) then Warning else Critical)
  }

  predicate SaysCrashing(snap: PodSnap, c: Container, m: Mark) {
    && !Finished(snap) && !OutOfMemory(c) && (BackingOff(c) || Flapping(snap, c))
    && m == Mark(if BlocksStart(c) then PodInitContainerFailed else PodCrashLoop, PodRef(snap), c.name,
                 if BackingOff(c) || BlocksStart(c) || !Serving(c) then Critical else Warning)
  }

  predicate SaysEnded(snap: PodSnap, c: Container, m: Mark) {
    && snap.pod.phase != Succeeded && EndedInError(c) && (WillRestart(snap) ==> !Flapping(snap, c) && !BackingOff(c))
    && m == Mark(if BlocksStart(c) then PodInitContainerFailed else PodContainerTerminatedError, PodRef(snap), c.name,
                 if WillRestart(snap) then Warning else Critical)
  }

  predicate SaysUnpulled(snap: PodSnap, c: Container, m: Mark) {
    && Waiting(c, ["ErrImagePull", "ImagePullBackOff", "InvalidImageName", "ErrImageNeverPull", "ImageInspectError", "RegistryUnavailable"])
    && m == Mark(PodImagePullFailed, PodRef(snap), c.name, Critical)
  }

  predicate SaysMisconfigured(snap: PodSnap, c: Container, m: Mark) {
    && Waiting(c, ["CreateContainerConfigError", "CreateContainerError"])
    && m == Mark(PodCreateContainerConfigErr, PodRef(snap), c.name, Critical)
  }

  predicate SaysRestarted(snap: PodSnap, c: Container, m: Mark) {
    && !Finished(snap) && c.status.Some? && c.status.value.restartCount != 0 && c.status.value.running
    && !Flapping(snap, c) && !BackingOff(c) && !OutOfMemory(c)
    && m == Mark(PodRestarted, PodRef(snap), c.name, Info)
  }

  predicate ContainerSays(snap: PodSnap, c: Container, m: Mark) {
    || SaysKilled(snap, c, m) || SaysCrashing(snap, c, m) || SaysEnded(snap, c, m)
    || SaysUnpulled(snap, c, m) || SaysMisconfigured(snap, c, m) || SaysRestarted(snap, c, m)
  }

  // ---- The table: placement ----

  ghost predicate AllAre(rs: seq<Scheduling.Reason>, c: Scheduling.Category) {
    rs != [] && forall i :: 0 <= i < |rs| ==> rs[i].category == c
  }

  /** The identifier for a scheduler's reasons: a specific one only when they are all of its kind. */
  ghost predicate NamesReasons(rs: seq<Scheduling.Reason>, id: FindingID) {
    || (id == PodUnschedulableCPU && AllAre(rs, Scheduling.CPU))
    || (id == PodUnschedulableMemory && AllAre(rs, Scheduling.Memory))
    || (id == PodUntoleratedTaint && AllAre(rs, Scheduling.Taint))
    || (id == PodUnschedulableAffinity && AllAre(rs, Scheduling.Affinity))
    || (id == PodUnschedulableVolume && AllAre(rs, Scheduling.VolumeCategory))
    || (id == PodUnschedulable
        && !AllAre(rs, Scheduling.CPU) && !AllAre(rs, Scheduling.Memory) && !AllAre(rs, Scheduling.Taint)
        && !AllAre(rs, Scheduling.Affinity) && !AllAre(rs, Scheduling.VolumeCategory))
  }

  ghost predicate ConditionTells(snap: PodSnap, text: string) {
    exists c :: FirstCondition(snap.pod, "PodScheduled", c) && c.status == "False" && c.message == text && text != ""
  }

  /** The most recent event of one of the reasons; of several equally recent ones the first. */
  ghost predicate MostRecent(evs: seq<Event>, reasons: seq<string>, i: int) {
    && 0 <= i < |evs| && evs[i].reason in reasons
    && (forall j :: 0 <= j < |evs| && evs[j].reason in reasons ==> evs[j].lastSeen <= evs[i].lastSeen)
    && forall j :: 0 <= j < i && evs[j].reason in reasons ==> evs[j].lastSeen < evs[i].lastSeen
  }

  ghost predicate EventTells(snap: PodSnap, text: string) {
    exists i :: MostRecent(snap.events, ["FailedScheduling"], i) && snap.events[i].message == text && text != ""
  }

  /** What the scheduler last said about the Pod. */
  ghost predicate SchedulerTells(snap: PodSnap, text: string) {
    ConditionTells(snap, text) || ((forall t :: !ConditionTells(snap, t)) && EventTells(snap, text))
  }

  ghost predicate SaysUnplaced(snap: PodSnap, m: Mark) {
    && snap.pod.nodeName == "" && !Finished(snap)
    && if snap.pod.gates != [] then m == Mark(PodSchedulingGated, PodRef(snap), "", Warning)
       else exists text :: SchedulerTells(snap, text) && NamesReasons(Scheduling.Parsed(text).reasons, m.id)
                           && m == Mark(m.id, PodRef(snap), "", Critical)
  }

  // ---- The table: probes ----

  function FailureText(kind: ProbeKind): string {
    match kind
    case Readiness => "Readiness probe failed"
    case Liveness => "Liveness probe failed"
    case Startup => "Startup probe failed"
  }

  predicate ProbeFailure(e: Event, kind: ProbeKind) {
    e.reason == "Unhealthy" && FailureText(kind) <= e.message
  }

  /** The event is about the container of that name; with no name, about none in particular. */
  ghost predicate Concerns(e: Event, name: string) {
    || e.fieldPath == "spec.containers{" + name + "}" || e.fieldPath == "spec.initContainers{" + name + "}"
    || (name == "" && forall n :: e.fieldPath != "spec.containers{" + n + "}" && e.fieldPath != "spec.initContainers{" + n + "}")
  }

  /** The last container of that name. */
  ghost predicate Known(snap: PodSnap, name: string, c: Option<Container>) {
    var cs := Containers(snap.pod);
    match c
    case None => forall i :: 0 <= i < |cs| ==> cs[i].name != name
    case Some(x) => exists i :: 0 <= i < |cs| && cs[i] == x && x.name == name && forall j :: i < j < |cs| ==> cs[j].name != name
  }

  ghost predicate LatestFailure(snap: PodSnap, e: Event, kind: ProbeKind, name: string) {
    && e in snap.events && ProbeFailure(e, kind) && Concerns(e, name)
    && forall f :: f in snap.events && ProbeFailure(f, kind) && Concerns(f, name) ==> f.lastSeen <= e.lastSeen
  }

  predicate FailsNow(c: Option<Container>) {
    c.Some? && !Serving(c.value)
  }

  predicate FailedRecently(snap: PodSnap, e: Event) {
    snap.now - e.lastSeen <= 600_000_000_000
  }

  /** A failure of this probe costs the container its life. */
  predicate Kills(kind: ProbeKind, c: Option<Container>) {
    kind == Startup || (kind == Liveness && c.Some? && c.value.status.Some? && c.value.status.value.restartCount > 0)
  }

  function ProbeMark(snap: PodSnap, e: Event, kind: ProbeKind, c: Option<Container>): Mark {
    var id := if kind == Readiness then PodReadinessProbeFailed else if kind == Liveness then PodLivenessProbeFailed else PodStartupProbeFailed;
    var severity :=
      if FailsNow(c) || (FailedRecently(snap, e) && Kills(kind, c)) then Critical
      else if FailedRecently(snap, e) then Warning else Info;
    Mark(id, PodRef(snap), if c.Some? then c.value.name else "", severity)
  }

  ghost predicate SaysProbe(snap: PodSnap, m: Mark) {
    !Finished(snap) && exists e, kind, name, c :: LatestFailure(snap, e, kind, name) && Known(snap, name, c) && m == ProbeMark(snap, e, kind, c)
  }

  // ---- The table: references, volumes and node ----

  ghost predicate SaysAbsent(snap: PodSnap, m: Mark) {
    || (m == Mark(PodMissingConfigMap, PodRef(snap), "", Critical) && exists n :: n in snap.configMaps && snap.configMaps[n] == Missing)
    || (m == Mark(PodMissingSecret, PodRef(snap), "", Critical) && exists n :: n in snap.secrets && snap.secrets[n] == Missing)
  }

  ghost predicate SaysUnmounted(snap: PodSnap, m: Mark) {
    && !Finished(snap) && m == Mark(PodFailedMount, PodRef(snap), "", Critical)
    && (exists i :: 0 <= i < |Containers(snap.pod)| && Containers(snap.pod)[i].status.Some? && Containers(snap.pod)[i].status.value.waiting.Some?)
    && exists e :: e in snap.events && (e.reason == "FailedMount" || e.reason == "FailedAttachVolume")
  }

  predicate WaitingClaim(c: ClaimRef) {
    c.existence == Found && c.phase != Bound && c.bindingMode == "WaitForFirstConsumer"
  }

  predicate StuckClaim(c: ClaimRef) {
    c.existence == Found && c.phase != Bound && c.bindingMode != "WaitForFirstConsumer"
  }

  predicate SaysClaim(snap: PodSnap, n: string, m: Mark) {
    && n in snap.claims
    && var c := snap.claims[n];
       || (c.existence == Missing && m == Mark(PodPVCNotFound, ResourceRef("PersistentVolumeClaim", snap.pod.ns, n), "", Critical))
       || (StuckClaim(c) && m == Mark(PodPVCNotBound, ResourceRef("PersistentVolumeClaim", snap.pod.ns, c.name), "", Critical))
       || (WaitingClaim(c) && m == Mark(PodPVCNotBound, ResourceRef("PersistentVolumeClaim", snap.pod.ns, c.name), "", Info))
  }

  predicate SaysEvicted(snap: PodSnap, m: Mark) {
    snap.pod.statusReason == "Evicted" && m == Mark(PodEvicted, PodRef(snap), "", Critical)
  }

  predicate SaysNode(snap: PodSnap, m: Mark) {
    && !Finished(snap) && snap.node.Some? && snap.node.value.ready.Some? && snap.node.value.ready.value != "True"
    && m == Mark(PodNodeNotReady, ResourceRef("Node", "", snap.node.value.name), "", Critical)
  }

  ghost predicate SomeContainerSays(snap: PodSnap, m: Mark) {
    exists i :: 0 <= i < |Containers(snap.pod)| && ContainerSays(snap, Containers(snap.pod)[i], m)
  }

  ghost predicate SomeClaimSays(snap: PodSnap, m: Mark) {
    !Finished(snap) && exists n :: SaysClaim(snap, n, m)
  }

  /** What is to be reported about a Pod. */
  ghost predicate PodSays(snap: PodSnap, m: Mark) {
    || SomeContainerSays(snap, m) || SaysEvicted(snap, m) || SaysUnplaced(snap, m) || SaysProbe(snap, m)
    || SaysAbsent(snap, m) || SaysUnmounted(snap, m) || SomeClaimSays(snap, m) || SaysNode(snap, m)
  }

  // ---- Container rules agree ----

  lemma ContainerFacts(snap: PodSnap, c: Container)
    ensures OOMTermination(c) != NotOOM <==> OutOfMemory(c)
    ensures IsFlapping(c, snap.now) <==> Flapping(snap, c)
    ensures InBackoff(c) <==> BackingOff(c)
    ensures snap.IsTerminal() <==> Finished(snap)
    ensures AwaitsRestart(snap) <==> WillRestart(snap)
  {
  }

  lemma OOMMarks(env: Env, snap: PodSnap, c: Container, m: Mark)
    ensures Marked(OOMOf(env, snap)(c), m) <==> SaysKilled(snap, c, m)
  {
    ContainerFacts(snap, c);
    MarkedOne(OOMOf(env, snap)(c), m);
  }

  lemma CrashMarks(env: Env, snap: PodSnap, c: Container, m: Mark)
    requires !Finished(snap)
    ensures Marked(CrashOf(env, snap)(c), m) <==> SaysCrashing(snap, c, m)
  {
    ContainerFacts(snap, c);
    MarkedOne(CrashOf(env, snap)(c), m);
  }

  lemma EndedMarks(env: Env, snap: PodSnap, c: Container, m: Mark)
    requires snap.pod.phase != Succeeded
    ensures Marked(EndedOf(env, snap)(c), m) <==> SaysEnded(snap, c, m)
  {
    ContainerFacts(snap, c);
    MarkedOne(EndedOf(env, snap)(c), m);
  }

  lemma ImageMarks(env: Env, snap: PodSnap, c: Container, m: Mark)
    ensures Marked(ImagePullOf(env, snap)(c), m) <==> SaysUnpulled(snap, c, m)
  {
    var out := ImagePull(env, snap, c);
    assert ImagePullOf(env, snap)(c) == out;
    MarkedOne(out, m);
  }

  lemma ConfigErrorMarks(env: Env, snap: PodSnap, c: Container, cms: seq<string>, secs: seq<string>, m: Mark)
    ensures Marked(ConfigErrorOf(env, snap, cms, secs)(c), m) <==> SaysMisconfigured(snap, c, m)
  {
    var out := ConfigError(env, snap, cms, secs, c);
    assert ConfigErrorOf(env, snap, cms, secs)(c) == out;
    MarkedOne(out, m);
  }

  lemma RestartMarks(env: Env, snap: PodSnap, c: Container, m: Mark)
    requires !Finished(snap)
    ensures Marked(RestartOf(env, snap)(c), m) <==> SaysRestarted(snap, c, m)
  {
    ContainerFacts(snap, c);
    MarkedOne(RestartOf(env, snap)(c), m);
  }

  ghost predicate ContainerMarked(env: Env, snap: PodSnap, c: Container, cms: seq<string>, secs: seq<string>, m: Mark) {
    || Marked(OOMOf(env, snap)(c), m)
    || (!Finished(snap) && (Marked(CrashOf(env, snap)(c), m) || Marked(RestartOf(env, snap)(c), m)))
    || (snap.pod.phase != Succeeded && Marked(EndedOf(env, snap)(c), m))
    || Marked(ImagePullOf(env, snap)(c), m) || Marked(ConfigErrorOf(env, snap, cms, secs)(c), m)
  }

  /** The six rules that look at containers report about one of them exactly what the table says. */
  lemma ContainerAgrees(env: Env, snap: PodSnap, c: Container, cms: seq<string>, secs: seq<string>, m: Mark)
    ensures ContainerMarked(env, snap, c, cms, secs, m) <==> ContainerSays(snap, c, m)
  {
    OOMMarks(env, snap, c, m);
    ImageMarks(env, snap, c, m);
    ConfigErrorMarks(env, snap, c, cms, secs, m);
    if !Finished(snap) {
      CrashMarks(env, snap, c, m);
      RestartMarks(env, snap, c, m);
    }
    if snap.pod.phase != Succeeded {
      EndedMarks(env, snap, c, m);
    }
  }

  ghost predicate ContainerRulesMarked(env: Env, snap: PodSnap, cms: seq<string>, secs: seq<string>, m: Mark) {
    || Marked(OOMRule(env, snap), m) || Marked(CrashRule(env, snap), m) || Marked(RestartRule(env, snap), m)
    || (snap.pod.phase != Succeeded && Marked(FlatMap(EndedOf(env, snap), Containers(snap.pod)), m))
    || Marked(ImagePullRule(env, snap), m) || Marked(ConfigErrors(env, snap, cms, secs), m)
  }

  lemma ContainerRulesAgree(env: Env, snap: PodSnap, cms: seq<string>, secs: seq<string>, m: Mark)
    ensures ContainerRulesMarked(env, snap, cms, secs, m) <==> SomeContainerSays(snap, m)
  {
    var cs := Containers(snap.pod);
    MarkedFlatMap(OOMOf(env, snap), cs, m);
    MarkedFlatMap(CrashOf(env, snap), cs, m);
    MarkedFlatMap(RestartOf(env, snap), cs, m);
    MarkedFlatMap(EndedOf(env, snap), cs, m);
    MarkedFlatMap(ImagePullOf(env, snap), cs, m);
    MarkedFlatMap(ConfigErrorOf(env, snap, cms, secs), cs, m);
    forall i | 0 <= i < |cs| ensures ContainerMarked(env, snap, cs[i], cms, secs, m) <==> ContainerSays(snap, cs[i], m) {
      ContainerAgrees(env, snap, cs[i], cms, secs, m);
    }
  }

  // ---- Placement agrees ----

  lemma LatestOfOneMore(a: seq<Event>, x: Event, reasons: seq<string>)
    ensures LatestOf(a + [x], reasons)
         == if x.reason in reasons && (LatestOf(a, reasons).None? || x.lastSeen > LatestOf(a, reasons).value.lastSeen) then Some(x)
            else LatestOf(a, reasons)
  {
    assert Front(a + [x]) == a;
    OrderIsStrictWeak(a);
    StableSort.SortSorts(MoreRecent(), a);
    FirstAfterInsert(HasReason(reasons), Ordered(a), x);
  }

  lemma {:induction false} LatestFirst(evs: seq<Event>, reasons: seq<string>)
    ensures LatestOf(evs, reasons).None? <==> forall j :: 0 <= j < |evs| ==> evs[j].reason !in reasons
    ensures LatestOf(evs, reasons).Some? ==> exists i :: MostRecent(evs, reasons, i) && evs[i] == LatestOf(evs, reasons).value
  {
    if evs != [] {
      var a, x := Front(evs), Last(evs);
      LatestFirst(a, reasons);
      LatestOfOneMore(a, x, reasons);
      assert a + [x] == evs;
      assert forall j :: 0 <= j < |a| ==> a[j] == evs[j];
      if x.reason in reasons && (LatestOf(a, reasons).None? || x.lastSeen > LatestOf(a, reasons).value.lastSeen) {
        assert MostRecent(evs, reasons, |evs| - 1);
      } else if LatestOf(a, reasons).Some? {
        var i :| MostRecent(a, reasons, i) && a[i] == LatestOf(a, reasons).value;
        assert MostRecent(evs, reasons, i);
      }
    }
  }

  lemma MostRecentUnique(evs: seq<Event>, reasons: seq<string>, i: int, j: int)
    requires MostRecent(evs, reasons, i) && MostRecent(evs, reasons, j)
    ensures i == j
  {
  }

  /** The text the scheduling rule works on is the one the table means. */
  lemma SchedulerTextIs(snap: PodSnap, text: string)
    ensures SchedulerTells(snap, text) <==> text == SchedulerMessage(snap) != ""
  {
    ConditionFound(snap.pod, "PodScheduled");
    LatestFirst(snap.events, ["FailedScheduling"]);
    if EventTells(snap, text) {
      var i :| MostRecent(snap.events, ["FailedScheduling"], i) && snap.events[i].message == text;
      var k :| MostRecent(snap.events, ["FailedScheduling"], k) && snap.events[k] == LatestOf(snap.events, ["FailedScheduling"]).value;
      MostRecentUnique(snap.events, ["FailedScheduling"], i, k);
    }
    var c := ConditionOf(snap.pod, "PodScheduled");
    if c.Some? && c.value.status == "False" && c.value.message != "" {
      assert ConditionTells(snap, c.value.message);
    }
  }

  lemma AllAreIff(rs: seq<Scheduling.Reason>, c: Scheduling.Category)
    ensures AllAre(rs, c) <==> rs != [] && rs[0].category == c && AllAre(rs, rs[0].category)
  {
  }

  lemma DominantIs(rs: seq<Scheduling.Reason>)
    ensures Scheduling.Dominant(rs)
         == if rs != [] && AllAre(rs, rs[0].category) && Scheduling.NamedID(rs[0].category) != NoID then Some(Scheduling.NamedID(rs[0].category)) else None
  {
  }

  lemma DominantNames(rs: seq<Scheduling.Reason>, id: FindingID)
    ensures NamesReasons(rs, id) <==> id == match Scheduling.Dominant(rs) case Some(x) => x case None => PodUnschedulable
  {
    DominantIs(rs);
    AllAreIff(rs, Scheduling.CPU);
    AllAreIff(rs, Scheduling.Memory);
    AllAreIff(rs, Scheduling.Taint);
    AllAreIff(rs, Scheduling.Affinity);
    AllAreIff(rs, Scheduling.VolumeCategory);
  }

  lemma UnschedulableMarks(env: Env, snap: PodSnap, ord: MapOrder, m: Mark)
    ensures Bears(Unschedulable(env, snap, ord, Scheduling.Parsed(SchedulerMessage(snap))), m)
       <==> NamesReasons(Scheduling.Parsed(SchedulerMessage(snap)).reasons, m.id) && m == Mark(m.id, PodRef(snap), "", Critical)
  {
    DominantNames(Scheduling.Parsed(SchedulerMessage(snap)).reasons, m.id);
  }

  lemma UnplacedText(snap: PodSnap, id: FindingID)
    ensures (exists text :: SchedulerTells(snap, text) && NamesReasons(Scheduling.Parsed(text).reasons, id))
       <==> SchedulerMessage(snap) != "" && NamesReasons(Scheduling.Parsed(SchedulerMessage(snap)).reasons, id)
  {
    forall text ensures SchedulerTells(snap, text) <==> text == SchedulerMessage(snap) != "" {
      SchedulerTextIs(snap, text);
    }
  }

  lemma SchedulingAgrees(env: Env, snap: PodSnap, ord: MapOrder, m: Mark)
    ensures Marked(SchedulingRule(env, snap, ord), m) <==> SaysUnplaced(snap, m)
  {
    MarkedOne(SchedulingRule(env, snap, ord), m);
    UnschedulableMarks(env, snap, ord, m);
    UnplacedText(snap, m.id);
  }

  // ---- Probes agree ----

  lemma InBraces(head: string, name: string, f: string)
    ensures f == head + name + "}" <==> head <= f && |f| > |head| && f[|f| - 1] == '}' && f[|head|..|f| - 1] == name
  {
    if f == head + name + "}" {
      assert f[|head|..|f| - 1] == name;
    }
    if head <= f && |f| > |head| && f[|f| - 1] == '}' && f[|head|..|f| - 1] == name {
      assert f == head + f[|head|..|f| - 1] + "}";
    }
  }

  /** What stands between the braces of a field path that starts with `head`. */
  lemma SomeInBraces(head: string, f: string)
    ensures (exists n: string :: f == head + n + "}") <==> head <= f && |f| > |head| && f[|f| - 1] == '}'
  {
    if head <= f && |f| > |head| && f[|f| - 1] == '}' {
      InBraces(head, f[|head|..|f| - 1], f);
    }
    forall n: string | f == head + n + "}" ensures head <= f && |f| > |head| && f[|f| - 1] == '}' {
      InBraces(head, n, f);
    }
  }

  lemma ConcernsIff(e: Event, name: string)
    ensures Concerns(e, name) <==> EventContainer(e) == name
  {
    var a, b, f := "spec.containers{", "spec.initContainers{", e.fieldPath;
    assert a <= f ==> f[6] == a[6] == 'o';
    InBraces(a, name, f);
    InBraces(b, name, f);
    SomeInBraces(a, f);
    SomeInBraces(b, f);
  }

  lemma {:induction false} NamedIs(cs: seq<Container>, name: string)
    ensures ContainerNamed(cs, name).None? <==> forall i :: 0 <= i < |cs| ==> cs[i].name != name
    ensures ContainerNamed(cs, name).Some? ==>
              exists i :: 0 <= i < |cs| && cs[i] == ContainerNamed(cs, name).value && cs[i].name == name && forall j :: i < j < |cs| ==> cs[j].name != name
  {
    if cs != [] && Last(cs).name != name {
      NamedIs(Front(cs), name);
      assert forall i :: 0 <= i < |cs| - 1 ==> Front(cs)[i] == cs[i];
      if ContainerNamed(Front(cs), name).Some? {
        var i :| 0 <= i < |Front(cs)| && Front(cs)[i] == ContainerNamed(cs, name).value && Front(cs)[i].name == name
                 && forall j :: i < j < |Front(cs)| ==> Front(cs)[j].name != name;
        assert cs[i] == ContainerNamed(cs, name).value;
      }
    } else if cs != [] {
      assert cs[|cs| - 1] == Last(cs);
    }
  }

  lemma KnownIs(snap: PodSnap, name: string, c: Option<Container>)
    ensures Known(snap, name, c) <==> c == ContainerNamed(Containers(snap.pod), name)
  {
    NamedIs(Containers(snap.pod), name);
  }

  lemma HitsAre(e: Event, kind: ProbeKind)
    requires e.reason == "Unhealthy"
    ensures ProbeHit(e, kind) in ProbeHits(e) <==> ProbeFailure(e, kind)
    ensures forall h :: h in ProbeHits(e) ==> h.event == e
  {
    assert FailureText(Readiness)[0] == 'R' && FailureText(Liveness)[0] == 'L' && FailureText(Startup)[0] == 'S';
    if FailureText(kind) <= e.message {
      assert e.message[0] == FailureText(kind)[0];
    }
  }

  function AllHits(snap: PodSnap): seq<ProbeHit> {
    FlatMap(ProbeHits, Ordered(Filter(HasReason(["Unhealthy"]), snap.events)))
  }

  function LatestProbes(snap: PodSnap): seq<ProbeHit> {
    Firsts(ProbeKeyOf, AllHits(snap))
  }

  lemma InAllHits(snap: PodSnap, e: Event, kind: ProbeKind)
    ensures ProbeHit(e, kind) in AllHits(snap) <==> e in snap.events && ProbeFailure(e, kind)
  {
    var f := Filter(HasReason(["Unhealthy"]), snap.events);
    var s := Ordered(f);
    InFlatMap(ProbeHits, s, ProbeHit(e, kind));
    StableSort.SortMembers(MoreRecent(), f, e);
    InFilter(HasReason(["Unhealthy"]), snap.events, e);
    forall x | x in s ensures x.reason == "Unhealthy" {
      StableSort.SortMembers(MoreRecent(), f, x);
      InFilter(HasReason(["Unhealthy"]), snap.events, x);
    }
    if ProbeHit(e, kind) in AllHits(snap) {
      var i :| 0 <= i < |s| && ProbeHit(e, kind) in ProbeHits(s[i]);
      assert s[i] in s;
      HitsAre(s[i], kind);
    }
    if e in s {
      HitsAre(e, kind);
      var i :| 0 <= i < |s| && s[i] == e;
    }
  }

  ghost predicate NewestFirst(hits: seq<ProbeHit>) {
    forall i, j :: 0 <= i < j < |hits| ==> hits[i].event.lastSeen >= hits[j].event.lastSeen
  }

  lemma {:induction false} HitsNewestFirst(s: seq<Event>)
    requires StableSort.Sorted(MoreRecent(), s)
    ensures NewestFirst(FlatMap(ProbeHits, s))
    ensures s != [] ==> forall h :: h in FlatMap(ProbeHits, s) ==> h.event.lastSeen >= Last(s).lastSeen
  {
    if s != [] {
      var a := Front(s);
      assert forall i :: 0 <= i < |a| ==> a[i] == s[i];
      HitsNewestFirst(a);
      assert a != [] ==> !MoreRecent()(s[|s| - 1], s[|a| - 1]);
      var hs, one := FlatMap(ProbeHits, a), ProbeHits(Last(s));
      forall h | h in hs ensures h.event.lastSeen >= Last(s).lastSeen {
        InFlatMap(ProbeHits, a, h);
      }
      assert forall i :: 0 <= i < |hs| ==> hs[i] in hs;
      assert |one| <= 1 && forall h :: h in one ==> h.event == Last(s);
    }
  }

  lemma HitOrder(snap: PodSnap)
    ensures NewestFirst(AllHits(snap))
  {
    var f := Filter(HasReason(["Unhealthy"]), snap.events);
    OrderIsStrictWeak(f);
    StableSort.SortSorts(MoreRecent(), f);
    HitsNewestFirst(Ordered(f));
  }

  lemma FirstIsNewest(hits: seq<ProbeHit>, i: nat, x: ProbeHit)
    requires NewestFirst(hits) && i < |Firsts(ProbeKeyOf, hits)|
    requires x in hits && ProbeKeyOf(x) == ProbeKeyOf(Firsts(ProbeKeyOf, hits)[i])
    ensures x.event.lastSeen <= Firsts(ProbeKeyOf, hits)[i].event.lastSeen
  {
    FirstsOrigin(ProbeKeyOf, hits, i);
    var k :| 0 <= k < |hits| && hits[k] == x;
    assert FirstIndex(ProbeKeyOf, ProbeKeyOf(x), hits) <= k;
  }

  lemma HitBeats(snap: PodSnap, i: nat, f: Event)
    requires i < |LatestProbes(snap)|
    requires f in snap.events && ProbeFailure(f, LatestProbes(snap)[i].kind)
    requires EventContainer(f) == EventContainer(LatestProbes(snap)[i].event)
    ensures f.lastSeen <= LatestProbes(snap)[i].event.lastSeen
  {
    var kind := LatestProbes(snap)[i].kind;
    HitOrder(snap);
    InAllHits(snap, f, kind);
    FirstIsNewest(AllHits(snap), i, ProbeHit(f, kind));
  }

  lemma HitIsLatest(snap: PodSnap, i: nat)
    requires i < |LatestProbes(snap)|
    ensures var h := LatestProbes(snap)[i]; LatestFailure(snap, h.event, h.kind, EventContainer(h.event))
  {
    var hits, h := AllHits(snap), LatestProbes(snap)[i];
    FirstsOrigin(ProbeKeyOf, hits, i);
    InAllHits(snap, h.event, h.kind);
    assert h == ProbeHit(h.event, h.kind);
    var name := EventContainer(h.event);
    ConcernsIff(h.event, name);
    forall f | f in snap.events && ProbeFailure(f, h.kind) && Concerns(f, name) ensures f.lastSeen <= h.event.lastSeen {
      ConcernsIff(f, name);
      HitBeats(snap, i, f);
    }
  }

  lemma LatestIsHit(snap: PodSnap, e: Event, kind: ProbeKind, name: string) returns (i: nat)
    requires LatestFailure(snap, e, kind, name)
    ensures i < |LatestProbes(snap)|
    ensures var h := LatestProbes(snap)[i]; h.kind == kind && EventContainer(h.event) == name && h.event.lastSeen == e.lastSeen
  {
    var hits, x := AllHits(snap), ProbeHit(e, kind);
    InAllHits(snap, e, kind);
    ConcernsIff(e, name);
    var k :| 0 <= k < |hits| && hits[k] == x;
    assert HasKey(ProbeKeyOf, ProbeKeyOf(x), hits) by {
      assert ProbeKeyOf(hits[k]) == ProbeKeyOf(x);
    }
    FirstsCover(ProbeKeyOf, ProbeKeyOf(x), hits);
    i :| 0 <= i < |LatestProbes(snap)| && ProbeKeyOf(LatestProbes(snap)[i]) == ProbeKeyOf(x);
    var h := LatestProbes(snap)[i];
    HitIsLatest(snap, i);
    ConcernsIff(h.event, name);
  }

  /** A probe failure is critical while it lasts or when a recent one costs the container its life, a
      warning when it is recent, and history otherwise. */
  lemma ProbeSeverity(env: Env, snap: PodSnap, h: ProbeHit, m: Mark)
    ensures Bears(ProbeDiagnosis(env, snap, h), m)
       <==> m == ProbeMark(snap, h.event, h.kind, ContainerNamed(Containers(snap.pod), EventContainer(h.event)))
  {
  }

  lemma ProbeRuleMarks(env: Env, snap: PodSnap, m: Mark)
    requires !Finished(snap)
    ensures Marked(ProbeRule(env, snap), m) <==> exists i :: 0 <= i < |LatestProbes(snap)| && Bears(ProbeDiagnosis(env, snap, LatestProbes(snap)[i]), m)
  {
    var out, hits := ProbeRule(env, snap), LatestProbes(snap);
    assert |out| == |hits| && forall i :: 0 <= i < |hits| ==> out[i] == ProbeDiagnosis(env, snap, hits[i]);
    if exists i :: 0 <= i < |hits| && Bears(ProbeDiagnosis(env, snap, hits[i]), m) {
      var i :| 0 <= i < |hits| && Bears(ProbeDiagnosis(env, snap, hits[i]), m);
      assert out[i] in out;
    }
  }

  lemma MarkedProbeSays(env: Env, snap: PodSnap, m: Mark)
    requires !Finished(snap) && Marked(ProbeRule(env, snap), m)
    ensures SaysProbe(snap, m)
  {
    ProbeRuleMarks(env, snap, m);
    var hits := LatestProbes(snap);
    var i :| 0 <= i < |hits| && Bears(ProbeDiagnosis(env, snap, hits[i]), m);
    var name := EventContainer(hits[i].event);
    HitIsLatest(snap, i);
    ProbeSeverity(env, snap, hits[i], m);
    KnownIs(snap, name, ContainerNamed(Containers(snap.pod), name));
  }

  lemma SaidProbeMarked(env: Env, snap: PodSnap, e: Event, kind: ProbeKind, name: string, c: Option<Container>)
    requires !Finished(snap) && LatestFailure(snap, e, kind, name) && Known(snap, name, c)
    ensures Marked(ProbeRule(env, snap), ProbeMark(snap, e, kind, c))
  {
    var i := LatestIsHit(snap, e, kind, name);
    KnownIs(snap, name, c);
    var m := ProbeMark(snap, e, kind, c);
    ProbeSeverity(env, snap, LatestProbes(snap)[i], m);
    ProbeRuleMarks(env, snap, m);
  }

  lemma ProbesAgree(env: Env, snap: PodSnap, m: Mark)
    ensures Marked(ProbeRule(env, snap), m) <==> SaysProbe(snap, m)
  {
    if !Finished(snap) {
      if Marked(ProbeRule(env, snap), m) {
        MarkedProbeSays(env, snap, m);
      }
      if SaysProbe(snap, m) {
        var e, kind, name, c :| LatestFailure(snap, e, kind, name) && Known(snap, name, c) && m == ProbeMark(snap, e, kind, c);
        SaidProbeMarked(env, snap, e, kind, name, c);
      }
    }
  }

  // ---- References, volumes and the node agree ----

  lemma AbsentMarks(env: Env, snap: PodSnap, id: FindingID, kind: string, names: seq<string>, m: Mark)
    ensures Marked(AbsentObjects(env, snap, id, kind, names), m) <==> names != [] && m == Mark(id, PodRef(snap), "", Critical)
  {
    var out := AbsentObjects(env, snap, id, kind, names);
    forall i | 0 <= i < |names| ensures Bears(out[i], Mark(id, PodRef(snap), "", Critical)) {
      assert out[i] == MissingObject(env, snap, id, kind, names[i]);
    }
    assert names != [] ==> out[0] in out;
  }

  lemma SomeMissing(refs: map<string, Existence>, order: seq<string>)
    requires Enumerates(order, refs.Keys)
    ensures MissingNames(refs, order) != [] <==> exists n :: n in refs && refs[n] == Missing
  {
    var names := MissingNames(refs, order);
    if names != [] {
      InMissingNames(refs, order, names[0]);
    }
    if exists n :: n in refs && refs[n] == Missing {
      var n :| n in refs && refs[n] == Missing;
      InMissingNames(refs, order, n);
    }
  }

  lemma ConfigAgrees(env: Env, snap: PodSnap, ord: MapOrder, m: Mark)
    requires OrderOf(ord, snap)
    ensures Marked(ConfigRule(env, snap, ord), m) <==>
              || SaysAbsent(snap, m)
              || Marked(ConfigErrors(env, snap, MissingNames(snap.configMaps, ord.configMaps), MissingNames(snap.secrets, ord.secrets)), m)
  {
    var cms, secs := MissingNames(snap.configMaps, ord.configMaps), MissingNames(snap.secrets, ord.secrets);
    var a := AbsentObjects(env, snap, PodMissingConfigMap, "configmap", cms);
    var b := AbsentObjects(env, snap, PodMissingSecret, "secret", secs);
    AbsentMarks(env, snap, PodMissingConfigMap, "configmap", cms, m);
    AbsentMarks(env, snap, PodMissingSecret, "secret", secs, m);
    SomeMissing(snap.configMaps, ord.configMaps);
    SomeMissing(snap.secrets, ord.secrets);
    MarkedConcat(a, b, m);
    MarkedConcat(a + b, ConfigErrors(env, snap, cms, secs), m);
  }

  lemma MountEvents(snap: PodSnap)
    ensures LatestOf(snap.events, ["FailedMount", "FailedAttachVolume"]).Some?
       <==> exists e :: e in snap.events && (e.reason == "FailedMount" || e.reason == "FailedAttachVolume")
  {
    LatestIsMostRecent(snap.events, ["FailedMount", "FailedAttachVolume"]);
  }

  lemma MountAgrees(env: Env, snap: PodSnap, ord: MapOrder, m: Mark)
    ensures Marked(MountRule(env, snap, ord), m) <==> SaysUnmounted(snap, m)
  {
    MountEvents(snap);
    MarkedOne(MountRule(env, snap, ord), m);
  }

  lemma NodeAgrees(env: Env, snap: PodSnap, m: Mark)
    ensures Marked(NodeRule(env, snap), m) <==> SaysNode(snap, m)
    ensures Marked(Evictions(env, snap), m) <==> SaysEvicted(snap, m)
  {
    MarkedOne(NodeRule(env, snap), m);
    MarkedOne(Evictions(env, snap), m);
  }

  lemma ClaimMarks(env: Env, snap: PodSnap, n: string, m: Mark)
    ensures Marked(ClaimFindings(env, snap, n), m) <==> SaysClaim(snap, n, m)
  {
    MarkedOne(ClaimFindings(env, snap, n), m);
  }

  lemma ClaimRuleSays(env: Env, snap: PodSnap, ord: MapOrder, m: Mark)
    requires OrderOf(ord, snap) && Marked(ClaimRule(env, snap, ord), m)
    ensures SomeClaimSays(snap, m)
  {
    var d :| d in ClaimRule(env, snap, ord) && Bears(d, m);
    PodCollect.InClaimRuleIff(env, snap, ord, d);
    var n :| n in snap.claims && d in ClaimFindings(env, snap, n);
    ClaimMarks(env, snap, n, m);
  }

  lemma ClaimsAgree(env: Env, snap: PodSnap, ord: MapOrder, m: Mark)
    requires OrderOf(ord, snap)
    ensures Marked(ClaimRule(env, snap, ord), m) <==> SomeClaimSays(snap, m)
  {
    if Marked(ClaimRule(env, snap, ord), m) {
      ClaimRuleSays(env, snap, ord, m);
    }
    if SomeClaimSays(snap, m) {
      var n :| SaysClaim(snap, n, m);
      ClaimMarks(env, snap, n, m);
      var d :| d in ClaimFindings(env, snap, n) && Bears(d, m);
      PodCollect.InClaimRuleIff(env, snap, ord, d);
    }
  }

  // ---- The eleven rules agree ----

  lemma EndedAgrees(env: Env, snap: PodSnap, m: Mark)
    ensures Marked(EndedRule(env, snap), m) <==>
              || SaysEvicted(snap, m)
              || (snap.pod.phase != Succeeded && Marked(FlatMap(EndedOf(env, snap), Containers(snap.pod)), m))
  {
    NodeAgrees(env, snap, m);
    MarkedConcat(Evictions(env, snap), if snap.pod.phase == Succeeded then [] else FlatMap(EndedOf(env, snap), Containers(snap.pod)), m);
  }

  ghost predicate SomeRuleMarks(env: Env, snap: PodSnap, ord: MapOrder, m: Mark) {
    || Marked(OOMRule(env, snap), m) || Marked(CrashRule(env, snap), m) || Marked(EndedRule(env, snap), m) || Marked(ImagePullRule(env, snap), m)
    || Marked(SchedulingRule(env, snap, ord), m) || Marked(ProbeRule(env, snap), m) || Marked(ConfigRule(env, snap, ord), m)
    || Marked(MountRule(env, snap, ord), m) || Marked(ClaimRule(env, snap, ord), m) || Marked(NodeRule(env, snap), m)
    || Marked(RestartRule(env, snap), m)
  }

  lemma MarkedEleven(rules: seq<Engine.Rule<PodSnap>>, snap: PodSnap, m: Mark)
    requires |rules| == 11
    ensures Marked(Engine.Evaluated(rules, snap, |rules|), m) <==>
              || Marked(rules[0](snap), m) || Marked(rules[1](snap), m) || Marked(rules[2](snap), m) || Marked(rules[3](snap), m)
              || Marked(rules[4](snap), m) || Marked(rules[5](snap), m) || Marked(rules[6](snap), m) || Marked(rules[7](snap), m)
              || Marked(rules[8](snap), m) || Marked(rules[9](snap), m) || Marked(rules[10](snap), m)
  {
    MarkedEvaluated(rules, snap, m);
  }

  lemma FindingsMarked(env: Env, snap: PodSnap, ord: MapOrder, m: Mark)
    ensures Marked(PodFindings(env, snap, ord), m) <==> SomeRuleMarks(env, snap, ord, m)
  {
    RuleOutputs0(env, snap, ord);
    RuleOutputs3(env, snap, ord);
    RuleOutputs6(env, snap, ord);
    RuleOutputs8(env, snap, ord);
    MarkedEleven(Rules(env, ord), snap, m);
  }

  lemma RulesByPart(env: Env, snap: PodSnap, ord: MapOrder, m: Mark)
    requires OrderOf(ord, snap)
    ensures SomeRuleMarks(env, snap, ord, m) <==> PodSays(snap, m)
  {
    ContainerRulesAgree(env, snap, MissingNames(snap.configMaps, ord.configMaps), MissingNames(snap.secrets, ord.secrets), m);
    EndedAgrees(env, snap, m);
    SchedulingAgrees(env, snap, ord, m);
    ProbesAgree(env, snap, m);
    ConfigAgrees(env, snap, ord, m);
    MountAgrees(env, snap, ord, m);
    ClaimsAgree(env, snap, ord, m);
    NodeAgrees(env, snap, m);
  }

  /** The eleven rules report exactly what the table says: which rules speak, about which object and
      container, how seriously; for every wording and every iteration order. */
  lemma RulesAgreeWithTable(env: Env, snap: PodSnap, ord: MapOrder, m: Mark)
    requires OrderOf(ord, snap)
    ensures Marked(PodFindings(env, snap, ord), m) <==> PodSays(snap, m)
  {
    FindingsMarked(env, snap, ord, m);
    RulesByPart(env, snap, ord, m);
  }

  // ---- The verdict ----

  ghost predicate Broken(snap: PodSnap) {
    exists m: Mark :: m.severity == Critical && PodSays(snap, m)
  }

  ghost predicate Shaky(snap: PodSnap) {
    exists m: Mark :: m.severity == Warning && PodSays(snap, m)
  }

  /** Running with a true Ready condition. */
  ghost predicate InService(snap: PodSnap) {
    snap.pod.phase == Running && exists c :: FirstCondition(snap.pod, "Ready", c) && c.status == "True"
  }

  /** The table says nothing about a Pod that is neither in service nor finished. */
  ghost predicate Unexplained(snap: PodSnap) {
    (forall m :: !PodSays(snap, m)) && !Finished(snap) && !InService(snap)
  }

  lemma HasIff(env: Env, snap: PodSnap, ord: MapOrder, v: Severity)
    requires OrderOf(ord, snap)
    ensures Has(PodFindings(env, snap, ord), v) <==> exists m: Mark :: m.severity == v && PodSays(snap, m)
  {
    HasMarked(PodFindings(env, snap, ord), v);
    forall m ensures Marked(PodFindings(env, snap, ord), m) <==> PodSays(snap, m) {
      RulesAgreeWithTable(env, snap, ord, m);
    }
  }

  lemma SilentIff(env: Env, snap: PodSnap, ord: MapOrder)
    requires OrderOf(ord, snap)
    ensures PodFindings(env, snap, ord) == [] <==> forall m :: !PodSays(snap, m)
  {
    var out := PodFindings(env, snap, ord);
    forall m ensures Marked(out, m) <==> PodSays(snap, m) {
      RulesAgreeWithTable(env, snap, ord, m);
    }
    if out != [] {
      var d := out[0];
      assert Bears(d, Mark(d.id, d.subject, d.component, d.severity));
      assert Marked(out, Mark(d.id, d.subject, d.component, d.severity));
    }
  }

  ghost function TableVerdict(snap: PodSnap, everythingRead: bool): Status {
    if Broken(snap) then Unhealthy
    else if Shaky(snap) || Unexplained(snap) then Degraded
    else if everythingRead then Healthy
    else Status.Unknown
  }

  /** For every API behaviour, wording and iteration order: the exact verdict on a Pod. */
  lemma ExactPodVerdict(env: Env, api: PodCollect.PodApi, ord: MapOrder)
    requires OrderOf(ord, PodCollect.CollectedPod(api))
    ensures Verdict(PodCollect.PodReport(env, api, ord), PodCollect.CollectedPod(api).degradations)
         == TableVerdict(PodCollect.CollectedPod(api), PodCollect.EverythingRead(api))
  {
    var snap := PodCollect.CollectedPod(api);
    PodCollect.DegradedIff(api);
    ExplainedVerdict(env, snap, ord);
  }

  lemma ExplainedVerdict(env: Env, snap: PodSnap, ord: MapOrder)
    requires OrderOf(ord, snap)
    ensures Has(Explained(env, snap, ord), Critical) <==> Broken(snap)
    ensures Has(Explained(env, snap, ord), Warning) <==> Shaky(snap) || Unexplained(snap)
  {
    SilentIff(env, snap, ord);
    if PodFindings(env, snap, ord) == [] {
      ReadyIff(snap.pod);
      PodCollect.FallbackWarns(env, snap);
      var f := Fallback(env, snap);
      assert f != [] ==> f[0] in f;
    } else {
      HasIff(env, snap, ord, Critical);
      HasIff(env, snap, ord, Warning);
    }
  }

  /** What a Pod report says: what the table says, or that nothing explains why the Pod is not in service. */
  lemma PodReportSays(env: Env, snap: PodSnap, ord: MapOrder, m: Mark)
    requires OrderOf(ord, snap)
    ensures Marked(Explained(env, snap, ord), m)
       <==> PodSays(snap, m) || (Unexplained(snap) && m == Mark(PodNotReadyUnexplained, PodRef(snap), "", Warning))
  {
    SilentIff(env, snap, ord);
    RulesAgreeWithTable(env, snap, ord, m);
    FallbackMarks(env, snap, m);
  }

  lemma FallbackMarks(env: Env, snap: PodSnap, m: Mark)
    ensures Marked(Fallback(env, snap), m)
       <==> !Finished(snap) && !InService(snap) && m == Mark(PodNotReadyUnexplained, PodRef(snap), "", Warning)
  {
    ReadyIff(snap.pod);
    MarkedOne(Fallback(env, snap), m);
  }

  /** The k-th status is the first of its name, waits in a crash loop, and no OOM kill ended its container. */
  ghost predicate CrashLoops(statuses: seq<ContainerStatus>, k: nat, name: string)
    requires k < |statuses|
  {
    var s := statuses[k];
    && s.name == name && (forall j :: 0 <= j < k ==> statuses[j].name != name)
    && s.waiting.Some? && s.waiting.value.reason == "CrashLoopBackOff"
    && (s.terminated.None? || s.terminated.value.reason != "OOMKilled")
    && (s.lastTerminated.None? || s.lastTerminated.value.reason != "OOMKilled")
  }

  lemma CrashLoopBreaks(snap: PodSnap, i: nat, k: nat)
    requires i < |snap.pod.initContainers| && k < |snap.pod.initStatuses| && !Finished(snap)
    requires CrashLoops(snap.pod.initStatuses, k, snap.pod.initContainers[i].name)
    ensures Broken(snap)
  {
    ContainersMerged(snap.pod);
    var c := Containers(snap.pod)[i];
    assert MergesInit(snap.pod, i, c);
    FirstStatusUnique(snap.pod.initStatuses, c.name, c.status, k);
    var m := Mark(if BlocksStart(c) then PodInitContainerFailed else PodCrashLoop, PodRef(snap), c.name, Critical);
    assert SaysCrashing(snap, c, m);
    assert SomeContainerSays(snap, m);
  }

  /** In the Pod's own fields: an init container in a crash loop makes an unfinished Pod unhealthy. */
  lemma CrashLoopingInitContainer(env: Env, api: PodCollect.PodApi, ord: MapOrder, i: nat, k: nat)
    requires OrderOf(ord, PodCollect.CollectedPod(api))
    requires i < |api.pod.initContainers| && k < |api.pod.initStatuses| && api.pod.phase != Succeeded && api.pod.phase != Failed
    requires CrashLoops(api.pod.initStatuses, k, api.pod.initContainers[i].name)
    ensures Verdict(PodCollect.PodReport(env, api, ord), PodCollect.CollectedPod(api).degradations) == Unhealthy
  {
    CrashLoopBreaks(PodCollect.CollectedPod(api), i, k);
    ExactPodVerdict(env, api, ord);
  }

  lemma FirstStatusUnique(statuses: seq<ContainerStatus>, name: string, found: Option<ContainerStatus>, k: nat)
    requires FirstStatus(statuses, name, found) && k < |statuses| && statuses[k].name == name
    requires forall j :: 0 <= j < k ==> statuses[j].name != name
    ensures found == Some(statuses[k])
  {
  }
}
