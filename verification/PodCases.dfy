/** Whole Pod reports in which a promise of the engine meets its exception: a cause printed after its
    consequence, and a critical finding hidden by collapsing. */
module PodCases {
  import opened Sequences
  import opened Model
  import opened Events
  import opened Collecting
  import opened Pods
  import opened PodRules
  import opened PodTheorems
  import opened Reports
  import opened Assembly
  import opened PodVerdict
  import Aggregation
  import GroupBy
  import Scheduling
  import SchedulerCases
  import Engine
  import PodCollect
  import ReportOrder

  // ---- Causes and consequences in a Pod report ----

  ghost predicate Blames(d: Diagnosis) {
    d.causedBy != NoID ==> d.severity == Critical && d.causedBy in PodCollect.REFERENCES && d.id !in PodCollect.REFERENCES
  }

  lemma ConfigErrorBlames(env: Env, snap: PodSnap, cms: seq<string>, secs: seq<string>, c: Container)
    ensures forall d :: d in ConfigError(env, snap, cms, secs, c) ==> Blames(d)
  {
    var m := if c.Waits().Some? then c.Waits().value.message else "";
    assert ConfigCause(m, cms, secs) in {PodMissingConfigMap, PodMissingSecret, NoID};
  }

  lemma ConfigErrorsBlame(env: Env, snap: PodSnap, cms: seq<string>, secs: seq<string>, d: Diagnosis)
    requires d in ConfigErrors(env, snap, cms, secs)
    ensures Blames(d)
  {
    var f, cs := ConfigErrorOf(env, snap, cms, secs), Containers(snap.pod);
    InFlatMap(f, cs, d);
    var i :| 0 <= i < |cs| && d in f(cs[i]);
    ConfigErrorBlames(env, snap, cms, secs, cs[i]);
  }

  lemma AbsentBlameNothing(env: Env, snap: PodSnap, id: FindingID, kind: string, names: seq<string>)
    ensures Uncaused(AbsentObjects(env, snap, id, kind, names))
  {
    var out := AbsentObjects(env, snap, id, kind, names);
    forall d | d in out ensures d.causedBy == NoID {
      var i :| 0 <= i < |out| && out[i] == d;
      assert d == MissingObject(env, snap, id, kind, names[i]);
    }
  }

  lemma ConfigBlames(env: Env, snap: PodSnap, ord: MapOrder, d: Diagnosis)
    requires d in ConfigRule(env, snap, ord)
    ensures Blames(d)
  {
    var cms, secs := MissingNames(snap.configMaps, ord.configMaps), MissingNames(snap.secrets, ord.secrets);
    AbsentBlameNothing(env, snap, PodMissingConfigMap, "configmap", cms);
    AbsentBlameNothing(env, snap, PodMissingSecret, "secret", secs);
    if d in ConfigErrors(env, snap, cms, secs) {
      ConfigErrorsBlame(env, snap, cms, secs, d);
    }
  }

  lemma {:induction false} ClaimCauses(claims: map<string, ClaimRef>, order: seq<string>)
    ensures MissingClaimCause(claims, order) in {NoID, PodPVCNotFound}
    ensures VolumeCause(claims, order) in {NoID, PodPVCNotFound, PodPVCNotBound}
  {
    if order != [] {
      ClaimCauses(claims, Front(order));
    }
  }

  lemma OthersBlame(env: Env, snap: PodSnap, ord: MapOrder, d: Diagnosis)
    requires d in SchedulingRule(env, snap, ord) || d in MountRule(env, snap, ord)
    ensures Blames(d)
  {
    ClaimCauses(snap.claims, ord.schedulingClaims);
    ClaimCauses(snap.claims, ord.mountClaims);
    PodCollect.SchedulingAvoids(env, snap, ord);
    PodCollect.OthersAvoid(env, snap, ord);
  }

  /** Only critical findings blame others, and what they blame is a missing or unbound object. */
  lemma PodBlames(env: Env, snap: PodSnap, ord: MapOrder, d: Diagnosis)
    requires d in PodFindings(env, snap, ord)
    ensures Blames(d)
  {
    InPodFindings(env, snap, ord, d);
    UncausedContainerRules(env, snap);
    UncausedEnded(env, snap);
    UncausedImagePull(env, snap);
    UncausedProbes(env, snap);
    UncausedClaims(env, snap, ord);
    if d in ConfigRule(env, snap, ord) {
      ConfigBlames(env, snap, ord, d);
    } else if d in SchedulingRule(env, snap, ord) || d in MountRule(env, snap, ord) {
      OthersBlame(env, snap, ord, d);
    }
  }

  ghost predicate AboutWaitingClaim(env: Env, snap: PodSnap, d: Diagnosis) {
    exists n :: n in snap.claims && WaitingClaim(snap.claims[n]) && d in ClaimFindings(env, snap, n)
  }

  function MarkOf(d: Diagnosis): Mark {
    Mark(d.id, d.subject, d.component, d.severity)
  }

  lemma BearsOwnMark(ds: seq<Diagnosis>, d: Diagnosis)
    requires d in ds
    ensures Marked(ds, MarkOf(d))
  {
    assert Bears(d, MarkOf(d));
  }

  lemma ConfigIsCritical(env: Env, snap: PodSnap, ord: MapOrder, d: Diagnosis)
    requires OrderOf(ord, snap) && d in ConfigRule(env, snap, ord)
    ensures d.severity == Critical
  {
    BearsOwnMark(ConfigRule(env, snap, ord), d);
    ConfigAgrees(env, snap, ord, MarkOf(d));
    ConfigErrorsCritical(env, snap, MissingNames(snap.configMaps, ord.configMaps), MissingNames(snap.secrets, ord.secrets), MarkOf(d));
  }

  lemma ClaimFindingSeverity(env: Env, snap: PodSnap, n: string, d: Diagnosis)
    requires n in snap.claims && d in ClaimFindings(env, snap, n)
    ensures d.severity == if WaitingClaim(snap.claims[n]) then Info else Critical
  {
    BearsOwnMark(ClaimFindings(env, snap, n), d);
    ClaimMarks(env, snap, n, MarkOf(d));
  }

  /** A finding about a referenced object is critical, unless it is about a claim that waits on purpose. */
  lemma ReferenceSeverity(env: Env, snap: PodSnap, ord: MapOrder, d: Diagnosis)
    requires OrderOf(ord, snap) && d in PodFindings(env, snap, ord) && d.id in PodCollect.REFERENCES
    ensures d.severity == if AboutWaitingClaim(env, snap, d) then Info else Critical
  {
    PodCollect.ReferencesComeFrom(env, snap, ord, d);
    assert d in Explained(env, snap, ord);
    if AboutWaitingClaim(env, snap, d) {
      var n :| n in snap.claims && WaitingClaim(snap.claims[n]) && d in ClaimFindings(env, snap, n);
      ClaimFindingSeverity(env, snap, n, d);
    } else if d in ConfigRule(env, snap, ord) {
      ConfigIsCritical(env, snap, ord, d);
    } else {
      PodCollect.InClaimRuleIff(env, snap, ord, d);
      var n :| n in snap.claims && d in ClaimFindings(env, snap, n);
      ClaimFindingSeverity(env, snap, n, d);
    }
  }

  lemma ConfigErrorsCritical(env: Env, snap: PodSnap, cms: seq<string>, secs: seq<string>, m: Mark)
    ensures Marked(ConfigErrors(env, snap, cms, secs), m) ==> m.severity == Critical
  {
    var cs := Containers(snap.pod);
    MarkedFlatMap(ConfigErrorOf(env, snap, cms, secs), cs, m);
    forall i | 0 <= i < |cs| ensures Marked(ConfigErrorOf(env, snap, cms, secs)(cs[i]), m) ==> m.severity == Critical {
      ConfigErrorMarks(env, snap, cs[i], cms, secs, m);
    }
  }

  lemma BlamersCauseNothing(env: Env, snap: PodSnap, ord: MapOrder, x: Diagnosis)
    requires x in PodFindings(env, snap, ord) && x.causedBy != NoID
    ensures forall d :: d in PodFindings(env, snap, ord) ==> d.causedBy != x.id || d.causedBy == NoID
  {
    PodBlames(env, snap, ord, x);
    forall d | d in PodFindings(env, snap, ord) ensures d.causedBy != x.id || d.causedBy == NoID {
      PodBlames(env, snap, ord, d);
    }
  }

  lemma BlameRanks(env: Env, snap: PodSnap, ord: MapOrder, cause: Diagnosis, effect: Diagnosis)
    requires OrderOf(ord, snap) && cause in PodFindings(env, snap, ord) && effect in PodFindings(env, snap, ord)
    requires effect.causedBy == cause.id != NoID
    ensures effect.severity == Critical && cause.severity == if AboutWaitingClaim(env, snap, cause) then Info else Critical
  {
    PodBlames(env, snap, ord, effect);
    ReferenceSeverity(env, snap, ord, cause);
  }

  /** In every Pod report a cause is printed before its consequence, unless the cause is a claim that
      waits for its first consumer: that one is always printed after it. */
  lemma PodCauseFirstIff(env: Env, snap: PodSnap, ord: MapOrder, i: nat, j: nat)
    requires OrderOf(ord, snap) && i < |PodFindings(env, snap, ord)| && j < |PodFindings(env, snap, ord)|
    requires PodFindings(env, snap, ord)[j].causedBy == PodFindings(env, snap, ord)[i].id != NoID
    ensures i < j <==> !AboutWaitingClaim(env, snap, PodFindings(env, snap, ord)[i])
  {
    var cause, effect := PodFindings(env, snap, ord)[i], PodFindings(env, snap, ord)[j];
    ReportOrder.ExplainedKnown(env, snap, ord);
    BlameRanks(env, snap, ord, cause, effect);
    BlamersCauseNothing(env, snap, ord, effect);
    ReportOrder.EvaluatedCauseFirst(Rules(env, ord), snap, i, j);
  }

  /** What the scheduler says about three nodes that all lack a volume, in some wording. */
  function VolumeMessage(text: string): string {
    Scheduling.Message(0, 3, [Scheduling.Tally(3, text)], None)
  }

  ghost predicate VolumeReason(text: string) {
    Scheduling.WellFormed(text) && Scheduling.Classify(text) == Scheduling.VolumeCategory
  }

  lemma VolumeMessageParsed(text: string)
    requires VolumeReason(text)
    ensures Scheduling.HasCategory(Scheduling.Parsed(VolumeMessage(text)).reasons, Scheduling.VolumeCategory)
  {
    var t := Scheduling.Tally(3, text);
    Scheduling.ParseUndoesMessage(0, 3, [t], None);
    assert Map(Scheduling.Categorized, [t])[0] == Scheduling.Categorized(t);
  }

  /** Some reasons are about volumes. */
  lemma SomeVolumeReason()
    ensures VolumeReason(SchedulerCases.UNBOUND)
  {
    SchedulerCases.SimpleText(SchedulerCases.UNBOUND);
    SchedulerCases.Unbound();
    SchedulerCases.CategoryIff(SchedulerCases.UNBOUND);
  }

  /** A Pod that no node can take yet, and whose one claim waits until a node takes it. */
  function UnplacedPod(text: string): PodSnap {
    var ref := ResourceRef("Pod", "default", "db");
    PodSnap(PodObject("db", "default", Pending, "", Always, "", [], [], [], [], [], [], [], [], [], 0, None),
            [Event("Warning", "FailedScheduling", VolumeMessage(text), 1, 0, 0, ref, "")], None, map[], map[],
            map["data" := ClaimRef("data", Found, ClaimPending, "fast", "WaitForFirstConsumer")], [], 0)
  }

  lemma UnplacedClaim(env: Env, text: string, ord: MapOrder) returns (cause: Diagnosis)
    requires OrderOf(ord, UnplacedPod(text))
    ensures cause in ClaimRule(env, UnplacedPod(text), ord) && cause.id == PodPVCNotBound && AboutWaitingClaim(env, UnplacedPod(text), cause)
  {
    var snap := UnplacedPod(text);
    cause := UnboundClaim(env, ResourceRef("PersistentVolumeClaim", "default", "data"), snap.claims["data"]);
    assert cause in ClaimFindings(env, snap, "data");
    PodCollect.InClaimRuleIff(env, snap, ord, cause);
  }

  lemma UnplacedScheduling(env: Env, text: string, ord: MapOrder) returns (effect: Diagnosis)
    requires VolumeReason(text) && OrderOf(ord, UnplacedPod(text))
    ensures effect in SchedulingRule(env, UnplacedPod(text), ord) && effect.causedBy == PodPVCNotBound
  {
    var snap := UnplacedPod(text);
    VolumeMessageParsed(text);
    SchedulerSays(text);
    LastClaim(text, ord.schedulingClaims);
    effect := Unschedulable(env, snap, ord, Scheduling.Parsed(SchedulerMessage(snap)));
  }

  lemma SchedulerSays(text: string)
    ensures SchedulerMessage(UnplacedPod(text)) == VolumeMessage(text) != ""
  {
    var snap := UnplacedPod(text);
    LatestIsMostRecent(snap.events, ["FailedScheduling"]);
    assert snap.events[0] in snap.events;
    assert "FailedScheduling" in ["FailedScheduling"];
  }

  lemma LastClaim(text: string, order: seq<string>)
    requires Enumerates(order, UnplacedPod(text).claims.Keys)
    ensures VolumeCause(UnplacedPod(text).claims, order) == PodPVCNotBound
  {
    assert "data" in UnplacedPod(text).claims.Keys;
    assert order != [];
    assert Last(order) in order;
  }

  /** Both are listed, and `a` stands before `b`. */
  ghost predicate StandsBefore(ds: seq<Diagnosis>, a: Diagnosis, b: Diagnosis) {
    && a in ds && b in ds
    && forall i, j :: 0 <= i < |ds| && 0 <= j < |ds| && ds[i] == a && ds[j] == b ==> i < j
  }

  lemma SeriousFirst<S>(rules: seq<Engine.Rule<S>>, snap: S, a: Diagnosis, b: Diagnosis)
    requires Engine.KnownSeverities(Engine.Evaluated(rules, snap, |rules|)) && SeverityRank(a.severity) < SeverityRank(b.severity)
    requires a in Engine.Evaluated(rules, snap, |rules|) && b in Engine.Evaluated(rules, snap, |rules|)
    ensures StandsBefore(Engine.Evaluated(rules, snap, |rules|), a, b)
  {
    var all := FlatMap(Engine.FindingsOf(snap), rules);
    var ds := Engine.Prioritized(all);
    Engine.PrioritizePermutes(all);
    forall i, j | 0 <= i < |ds| && 0 <= j < |ds| && ds[i] == a && ds[j] == b ensures i < j {
      if j < i {
        var _, _ := Engine.PrioritizeSorts(all, j, i);
      }
    }
  }

  /** A claim that waits for its consumer is printed after the failure it causes, wherever both occur. */
  lemma WaitingClaimIsLate(env: Env, snap: PodSnap, ord: MapOrder, cause: Diagnosis, effect: Diagnosis)
    requires OrderOf(ord, snap) && cause in PodFindings(env, snap, ord) && effect in PodFindings(env, snap, ord)
    requires effect.causedBy == cause.id != NoID && AboutWaitingClaim(env, snap, cause)
    ensures StandsBefore(PodFindings(env, snap, ord), effect, cause)
  {
    BlameRanks(env, snap, ord, cause, effect);
    ReportOrder.ExplainedKnown(env, snap, ord);
    SeriousFirst(Rules(env, ord), snap, effect, cause);
  }

  /** So it happens: the report of this Pod prints the claim after the scheduling failure it causes. */
  lemma ClaimPrintedAfterItsConsequence(env: Env, text: string, ord: MapOrder) returns (cause: Diagnosis, effect: Diagnosis)
    requires VolumeReason(text) && OrderOf(ord, UnplacedPod(text))
    ensures effect.causedBy == cause.id == PodPVCNotBound && cause.severity == Info && effect.severity == Critical
    ensures StandsBefore(PodFindings(env, UnplacedPod(text), ord), effect, cause)
  {
    cause := UnplacedClaim(env, text, ord);
    effect := UnplacedScheduling(env, text, ord);
    InPodFindings(env, UnplacedPod(text), ord, cause);
    InPodFindings(env, UnplacedPod(text), ord, effect);
    BlameRanks(env, UnplacedPod(text), ord, cause, effect);
    WaitingClaimIsLate(env, UnplacedPod(text), ord, cause, effect);
  }

  // ---- OOM kills collapsed over two Pods ----

  /** A running Pod about which only its OOM-killed containers can be reported. */
  ghost predicate OnlyKilled(snap: PodSnap) {
    && snap.events == [] && snap.node.None? && snap.configMaps == map[] && snap.secrets == map[] && snap.claims == map[]
    && snap.pod.phase == Running && snap.pod.statusReason == "" && snap.pod.nodeName != ""
    && forall i :: 0 <= i < |Containers(snap.pod)| ==> Killed(Containers(snap.pod)[i])
  }

  predicate Killed(c: Container) {
    OOMTermination(c) != NotOOM && c.Waits().None? && (c.Ended().None? || c.Ended().value.reason == OOM_REASON)
  }

  lemma ContainerRulesSilent(env: Env, snap: PodSnap)
    requires forall i :: 0 <= i < |Containers(snap.pod)| ==> Killed(Containers(snap.pod)[i])
    ensures CrashRule(env, snap) == [] && RestartRule(env, snap) == [] && FlatMap(EndedOf(env, snap), Containers(snap.pod)) == []
  {
    FlatMapEmpty(CrashOf(env, snap), Containers(snap.pod));
    FlatMapEmpty(RestartOf(env, snap), Containers(snap.pod));
    FlatMapEmpty(EndedOf(env, snap), Containers(snap.pod));
  }

  lemma WaitingRulesSilent(env: Env, snap: PodSnap, cms: seq<string>, secs: seq<string>)
    requires forall i :: 0 <= i < |Containers(snap.pod)| ==> Killed(Containers(snap.pod)[i])
    ensures ImagePullRule(env, snap) == [] && ConfigErrors(env, snap, cms, secs) == []
  {
    FlatMapEmpty(ImagePullOf(env, snap), Containers(snap.pod));
    FlatMapEmpty(ConfigErrorOf(env, snap, cms, secs), Containers(snap.pod));
  }

  lemma ReferenceRulesSilent(env: Env, snap: PodSnap, ord: MapOrder)
    requires OnlyKilled(snap) && OrderOf(ord, snap)
    ensures ConfigRule(env, snap, ord) == [] && ClaimRule(env, snap, ord) == []
  {
    SomeMissing(snap.configMaps, ord.configMaps);
    SomeMissing(snap.secrets, ord.secrets);
    WaitingRulesSilent(env, snap, [], []);
    var claims := ClaimRule(env, snap, ord);
    if claims != [] {
      PodCollect.InClaimRuleIff(env, snap, ord, claims[0]);
    }
  }

  lemma OtherRulesSilent(env: Env, snap: PodSnap, ord: MapOrder)
    requires OnlyKilled(snap)
    ensures ProbeRule(env, snap) == [] && MountRule(env, snap, ord) == [] && SchedulingRule(env, snap, ord) == [] && NodeRule(env, snap) == []
  {
    LatestIsMostRecent(snap.events, ["FailedMount", "FailedAttachVolume"]);
  }

  /** Such a Pod shows its OOM kills and nothing else. */
  lemma OnlyKills(env: Env, snap: PodSnap, ord: MapOrder, d: Diagnosis)
    requires OnlyKilled(snap) && OrderOf(ord, snap)
    ensures d in PodFindings(env, snap, ord) <==> d in OOMRule(env, snap)
  {
    InPodFindings(env, snap, ord, d);
    ContainerRulesSilent(env, snap);
    WaitingRulesSilent(env, snap, [], []);
    ReferenceRulesSilent(env, snap, ord);
    OtherRulesSilent(env, snap, ord);
  }

  /** The Pod has one container, and it has this status. */
  ghost predicate OneContainer(snap: PodSnap, c: Container) {
    OnlyKilled(snap) && Containers(snap.pod) == [c]
  }

  lemma OneContainerRule(env: Env, snap: PodSnap, c: Container)
    requires Containers(snap.pod) == [c] && OOMTermination(c) != NotOOM
    ensures OOMRule(env, snap) == [OOMDiagnosis(env, snap, c)]
  {
    var f := OOMOf(env, snap);
    assert Front([c]) == [] && FlatMap(f, []) == [];
    assert FlatMap(f, [c]) == FlatMap(f, []) + f(c);
  }

  /** The list says one thing, perhaps several times. */
  ghost predicate SaysOnly(ds: seq<Diagnosis>, x: Diagnosis) {
    ds != [] && forall i :: 0 <= i < |ds| ==> ds[i] == x
  }

  lemma SaysOnlyIff(ds: seq<Diagnosis>, x: Diagnosis)
    requires forall d :: d in ds <==> d == x
    ensures SaysOnly(ds, x)
  {
    assert x in ds;
    assert forall i :: 0 <= i < |ds| ==> ds[i] in ds;
  }

  lemma OneKill(env: Env, snap: PodSnap, ord: MapOrder, c: Container)
    requires OneContainer(snap, c) && OrderOf(ord, snap)
    ensures SaysOnly(Explained(env, snap, ord), OOMDiagnosis(env, snap, c))
  {
    assert Killed(Containers(snap.pod)[0]);
    OneContainerRule(env, snap, c);
    var r, x := PodFindings(env, snap, ord), OOMDiagnosis(env, snap, c);
    forall d ensures d in r <==> d == x {
      OnlyKills(env, snap, ord, d);
    }
    SaysOnlyIff(r, x);
  }

  /** Findings of one key collapse to the first, whatever follows it. */
  lemma OneKeyCollapses(ds: seq<Diagnosis>, total: int)
    requires ds != [] && forall d :: d in ds ==> Aggregation.KeyOf(d) == Aggregation.KeyOf(ds[0])
    ensures forall v :: Has(Aggregation.Aggregated(ds, total), v) <==> v == ds[0].severity
  {
    assert GroupBy.HasKey(Aggregation.KeyOf, Aggregation.KeyOf(ds[0]), ds);
    var r := FirstIsAggregated(ds, total, 0);
    forall e | e in Aggregation.Aggregated(ds, total) ensures e.severity == ds[0].severity {
      var i := AggregatedComesFromFirst(ds, total, e);
      assert ds[i] in ds;
    }
  }

  lemma GatheredTwo(f: (PodSnap, MapOrder) -> seq<Diagnosis>, p: PodSnap, q: PodSnap, a: MapOrder, b: MapOrder)
    ensures Gathered(f, [p, q], [a, b]) == f(p, a) + f(q, b)
  {
    assert Front([p, q]) == [p] && Front([a, b]) == [a] && Front([p]) == [] && Front([a]) == [];
    assert Gathered(f, [p], [a]) == [] + f(p, a);
  }

  /** Two findings of one key, each said at least once: the first decides what collapsing leaves. */
  lemma FirstDecides(a: seq<Diagnosis>, b: seq<Diagnosis>, x: Diagnosis, y: Diagnosis, total: int)
    requires SaysOnly(a, x) && SaysOnly(b, y) && Aggregation.KeyOf(x) == Aggregation.KeyOf(y)
    ensures forall v :: Has(a + b, v) <==> v == x.severity || v == y.severity
    ensures forall v :: Has(Aggregation.Aggregated(a + b, total), v) <==> v == x.severity
  {
    var ds := a + b;
    assert ds[0] == x && ds[|a|] == y && ds[0] in ds && ds[|a|] in ds;
    assert forall d :: d in ds ==> d == x || d == y;
    OneKeyCollapses(ds, total);
  }

  lemma KillsAlike(env: Env, p: PodSnap, q: PodSnap, c: Container, e: Container)
    requires c.name == e.name && c.init == e.init && c.sidecar == e.sidecar
    ensures Aggregation.KeyOf(OOMDiagnosis(env, p, c)) == Aggregation.KeyOf(OOMDiagnosis(env, q, e))
    ensures OutOfMemory(c) ==> OOMDiagnosis(env, p, c).severity == if Recovered(p, c) then Warning else Critical
  {
    ContainerFacts(p, c);
  }

  lemma TwoKilledPods(env: Env, p: PodSnap, q: PodSnap, a: MapOrder, b: MapOrder, c: Container, e: Container)
    requires OneContainer(p, c) && OneContainer(q, e) && OrderOf(a, p) && OrderOf(b, q)
    requires c.name == e.name && c.init == e.init && c.sidecar == e.sidecar
    ensures forall v :: Has(AllExplained(env, [p, q], [a, b]), v) <==>
              v == OOMDiagnosis(env, p, c).severity || v == OOMDiagnosis(env, q, e).severity
    ensures forall v :: Has(AggregatedPods(env, [p, q], [a, b]), v) <==> v == OOMDiagnosis(env, p, c).severity
  {
    OneKill(env, p, a, c);
    OneKill(env, q, b, e);
    KillsAlike(env, p, q, c, e);
    GatheredTwo(ExplainedBy(env), p, q, a, b);
    FirstDecides(Explained(env, p, a), Explained(env, q, b), OOMDiagnosis(env, p, c), OOMDiagnosis(env, q, e), 2);
  }

  /** Two Pods of one workload, the same container of both OOM killed, one running again: the findings
      share a key, so the Pod that comes first decides whether the workload is degraded or unhealthy. */
  lemma RecoveredOOMHidesUnrecovered(env: Env, p: PodSnap, q: PodSnap, a: MapOrder, b: MapOrder, c: Container, e: Container, degradations: seq<Degradation>)
    requires OneContainer(p, c) && OneContainer(q, e) && OrderOf(a, p) && OrderOf(b, q)
    requires c.name == e.name && c.init == e.init && c.sidecar == e.sidecar && Recovered(p, c) && !Recovered(q, e)
    ensures Verdict(AllExplained(env, [p, q], [a, b]), degradations) == Unhealthy
    ensures Verdict(AggregatedPods(env, [p, q], [a, b]), degradations) == Degraded
    ensures Verdict(AggregatedPods(env, [q, p], [b, a]), degradations) == Unhealthy
  {
    TwoKilledPods(env, p, q, a, b, c, e);
    TwoKilledPods(env, q, p, b, a, e, c);
    KillsAlike(env, p, q, c, e);
    KillsAlike(env, q, p, e, c);
  }

  /** A Pod with one container, about whose status nothing else is known. */
  function KilledPod(name: string, status: ContainerStatus): PodSnap {
    var spec := ContainerSpec("app", false, 0, 0, [], []);
    PodSnap(PodObject(name, "default", Running, "", Always, "node", [], [], [spec], [], [status], [], [], [], [], 0, None),
            [], None, map[], map[], map[], [], 0)
  }

  /** Two Pods as above exist. */
  lemma KilledPodsExist()
    ensures var kill := Some(Terminated(137, OOM_REASON, 0));
            var p, q := KilledPod("web-0", ContainerStatus("app", 1, true, None, true, None, kill)),
                        KilledPod("web-1", ContainerStatus("app", 0, false, None, false, kill, None));
            && OneContainer(p, Containers(p.pod)[0]) && OneContainer(q, Containers(q.pod)[0])
            && Recovered(p, Containers(p.pod)[0]) && !Recovered(q, Containers(q.pod)[0])
  {
  }
}
