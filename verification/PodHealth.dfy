/** What the Pods behind a workload, a Service or an Ingress say about it: collapsing their findings
    leaves nothing above info exactly when every one of them is well, because no summary of past
    trouble reads like one of present trouble. */
module PodHealth {
  import opened Sequences
  import opened GroupBy
  import opened Model
  import opened Events
  import opened Pods
  import opened PodRules
  import opened PodTheorems
  import opened Reports
  import opened Assembly
  import opened PodVerdict
  import Aggregation
  import Scheduling
  import StableSort
  import Names

  // ---- Wording ----

  predicate IsProbe(id: FindingID) {
    id.PodReadinessProbeFailed? || id.PodLivenessProbeFailed? || id.PodStartupProbeFailed?
  }

  /** The rules that report both history and trouble word them differently: a probe that failed long
      ago, and a claim that waits on purpose. */
  ghost predicate HistoryApart(say: Wording) {
    && (forall id, xs, ys :: IsProbe(id) ==> say(id, 2, xs) != say(id, 0, ys))
    && (forall id, xs, ys :: IsProbe(id) ==> say(id, 2, xs) != say(id, 1, ys))
    && (forall xs, ys :: say(PodPVCNotBound, 1, xs) != say(PodPVCNotBound, 0, ys))
  }

  predicate EndsWith(s: string, end: string) {
    |end| <= |s| && s[|s| - |end|..] == end
  }

  /** How the summaries of these rules end, whatever their arguments are. */
  ghost predicate WrittenAsInKubeWhy(say: Wording) {
    && (forall id, xs :: IsProbe(id) ==> EndsWith(say(id, 0, xs), " probe"))
    && (forall id, xs :: IsProbe(id) ==> EndsWith(say(id, 1, xs), " probe, and is passing again now"))
    && (forall id, xs :: IsProbe(id) ==> EndsWith(say(id, 2, xs), " ago, and has been passing since"))
    && (forall xs :: EndsWith(say(PodPVCNotBound, 0, xs), ", not Bound"))
    && (forall xs :: EndsWith(say(PodPVCNotBound, 1, xs), " is waiting for the Pod to be scheduled before it binds"))
  }

  lemma EndingsDiffer(s: string, t: string, a: string, b: string, k: nat)
    requires EndsWith(s, a) && EndsWith(t, b) && k < |a| && k < |b| && a[|a| - 1 - k] != b[|b| - 1 - k]
    ensures s != t
  {
    assert s[|s| - 1 - k] == a[|a| - 1 - k];
    assert t[|t| - 1 - k] == b[|b| - 1 - k];
  }

  /** KubeWhy's own summaries keep history and trouble apart. */
  lemma KubeWhyKeepsHistoryApart(say: Wording)
    requires WrittenAsInKubeWhy(say)
    ensures HistoryApart(say)
  {
    forall id, xs, ys | IsProbe(id) ensures say(id, 2, xs) != say(id, 0, ys) {
      EndingsDiffer(say(id, 2, xs), say(id, 0, ys), " ago, and has been passing since", " probe", 1);
    }
    forall id, xs, ys | IsProbe(id) ensures say(id, 2, xs) != say(id, 1, ys) {
      EndingsDiffer(say(id, 2, xs), say(id, 1, ys), " ago, and has been passing since", " probe, and is passing again now", 0);
    }
    forall xs, ys ensures say(PodPVCNotBound, 1, xs) != say(PodPVCNotBound, 0, ys) {
      EndingsDiffer(say(PodPVCNotBound, 1, xs), say(PodPVCNotBound, 0, ys),
                    " is waiting for the Pod to be scheduled before it binds", ", not Bound", 0);
    }
  }

  ghost predicate TellsHistory(say: Wording, d: Diagnosis) {
    || d.id == PodRestarted
    || (IsProbe(d.id) && exists xs :: d.summary == say(d.id, 2, xs))
    || (d.id == PodPVCNotBound && exists xs :: d.summary == say(d.id, 1, xs))
  }

  ghost predicate TellsTrouble(say: Wording, d: Diagnosis) {
    && d.id != PodRestarted
    && (IsProbe(d.id) ==> exists xs :: d.summary == say(d.id, 0, xs) || d.summary == say(d.id, 1, xs))
    && (d.id == PodPVCNotBound ==> exists xs :: d.summary == say(d.id, 0, xs))
  }

  /** Info findings are worded as history, all others as trouble. */
  ghost predicate Worded(say: Wording, d: Diagnosis) {
    match d.severity
    case Info => TellsHistory(say, d)
    case OtherSeverity(_) => false
    case _ => TellsTrouble(say, d)
  }

  ghost predicate AllWorded(say: Wording, ds: seq<Diagnosis>) {
    forall d :: d in ds ==> Worded(say, d)
  }

  /** Trouble reported by a rule that has no history to tell. */
  predicate Troubling(d: Diagnosis) {
    && (d.severity == Critical || d.severity == Warning)
    && !IsProbe(d.id) && d.id != PodPVCNotBound && d.id != PodRestarted
  }

  predicate AllTroubling(ds: seq<Diagnosis>) {
    forall i :: 0 <= i < |ds| ==> Troubling(ds[i])
  }

  lemma TroublingWorded(say: Wording, ds: seq<Diagnosis>)
    requires AllTroubling(ds)
    ensures AllWorded(say, ds)
  {
  }

  lemma TroublingFlatMap<T>(f: T -> seq<Diagnosis>, s: seq<T>)
    requires forall x :: x in s ==> AllTroubling(f(x))
    ensures AllTroubling(FlatMap(f, s))
  {
    var out := FlatMap(f, s);
    forall k | 0 <= k < |out| ensures Troubling(out[k]) {
      InFlatMap(f, s, out[k]);
      var i :| 0 <= i < |s| && out[k] in f(s[i]);
      assert s[i] in s;
    }
  }

  lemma OOMTroubling(env: Env, snap: PodSnap)
    ensures AllTroubling(OOMRule(env, snap))
  {
    forall c ensures Troubling(OOMDiagnosis(env, snap, c)) {
    }
    TroublingFlatMap(OOMOf(env, snap), Containers(snap.pod));
  }

  lemma CrashTroubling(env: Env, snap: PodSnap)
    ensures AllTroubling(CrashRule(env, snap))
  {
    forall c ensures Troubling(CrashDiagnosis(env, snap, c)) {
    }
    TroublingFlatMap(CrashOf(env, snap), Containers(snap.pod));
  }

  lemma EndedTroubling(env: Env, snap: PodSnap)
    ensures AllTroubling(EndedRule(env, snap))
  {
    TroublingFlatMap(EndedOf(env, snap), Containers(snap.pod));
  }

  lemma ImagePullTroubling(env: Env, snap: PodSnap)
    ensures AllTroubling(ImagePullRule(env, snap))
  {
    var f := ImagePullOf(env, snap);
    forall c ensures AllTroubling(f(c)) {
      assert f(c) == ImagePull(env, snap, c);
    }
    TroublingFlatMap(f, Containers(snap.pod));
  }

  lemma ConfigErrorsTroubling(env: Env, snap: PodSnap, cms: seq<string>, secs: seq<string>)
    ensures AllTroubling(ConfigErrors(env, snap, cms, secs))
  {
    var f := ConfigErrorOf(env, snap, cms, secs);
    forall c ensures AllTroubling(f(c)) {
      assert f(c) == ConfigError(env, snap, cms, secs, c);
    }
    TroublingFlatMap(f, Containers(snap.pod));
  }

  lemma AbsentTroubling(env: Env, snap: PodSnap, id: FindingID, kind: string, names: seq<string>)
    requires id == PodMissingConfigMap || id == PodMissingSecret
    ensures AllTroubling(AbsentObjects(env, snap, id, kind, names))
  {
    var out := AbsentObjects(env, snap, id, kind, names);
    forall i | 0 <= i < |out| ensures Troubling(out[i]) {
      assert out[i] == MissingObject(env, snap, id, kind, names[i]);
    }
  }

  lemma ConfigTroubling(env: Env, snap: PodSnap, ord: MapOrder)
    ensures AllTroubling(ConfigRule(env, snap, ord))
  {
    var cms, secs := MissingNames(snap.configMaps, ord.configMaps), MissingNames(snap.secrets, ord.secrets);
    AbsentTroubling(env, snap, PodMissingConfigMap, "configmap", cms);
    AbsentTroubling(env, snap, PodMissingSecret, "secret", secs);
    ConfigErrorsTroubling(env, snap, cms, secs);
    TroublingConcat(AbsentObjects(env, snap, PodMissingConfigMap, "configmap", cms), AbsentObjects(env, snap, PodMissingSecret, "secret", secs),
                    ConfigErrors(env, snap, cms, secs));
  }

  lemma TroublingConcat(a: seq<Diagnosis>, b: seq<Diagnosis>, c: seq<Diagnosis>)
    requires AllTroubling(a) && AllTroubling(b) && AllTroubling(c)
    ensures AllTroubling(a + b + c)
  {
  }

  lemma UnschedulableTroubling(env: Env, snap: PodSnap, ord: MapOrder, report: Scheduling.SchedulerReport)
    ensures Troubling(Unschedulable(env, snap, ord, report))
  {
  }

  lemma SchedulingTroubling(env: Env, snap: PodSnap, ord: MapOrder)
    ensures AllTroubling(SchedulingRule(env, snap, ord))
  {
    UnschedulableTroubling(env, snap, ord, Scheduling.Parsed(SchedulerMessage(snap)));
  }

  lemma MountTroubling(env: Env, snap: PodSnap, ord: MapOrder)
    ensures AllTroubling(MountRule(env, snap, ord))
  {
  }

  lemma NodeTroubling(env: Env, snap: PodSnap)
    ensures AllTroubling(NodeRule(env, snap)) && AllTroubling(Fallback(env, snap))
  {
  }

  lemma RestartsWorded(env: Env, snap: PodSnap, d: Diagnosis)
    requires d in RestartRule(env, snap)
    ensures Worded(env.say, d)
  {
    RuleIsItsContainers(env, snap, d);
  }

  lemma ProbeWorded(env: Env, snap: PodSnap, h: ProbeHit)
    ensures Worded(env.say, ProbeDiagnosis(env, snap, h))
  {
  }

  lemma ProbesWorded(env: Env, snap: PodSnap, d: Diagnosis)
    requires d in ProbeRule(env, snap)
    ensures Worded(env.say, d)
  {
    var out, hits := ProbeRule(env, snap), LatestProbes(snap);
    var i :| 0 <= i < |out| && out[i] == d;
    assert d == ProbeDiagnosis(env, snap, hits[i]);
    ProbeWorded(env, snap, hits[i]);
  }

  lemma ClaimWorded(env: Env, snap: PodSnap, n: string)
    ensures AllWorded(env.say, ClaimFindings(env, snap, n))
  {
  }

  lemma ClaimsWorded(env: Env, snap: PodSnap, ord: MapOrder, d: Diagnosis)
    requires d in ClaimRule(env, snap, ord)
    ensures Worded(env.say, d)
  {
    var f, names := ClaimOf(env, snap), StableSort.Sort(Names.ByName(), ord.claims);
    InFlatMap(f, names, d);
    var i :| 0 <= i < |names| && d in f(names[i]);
    ClaimWorded(env, snap, names[i]);
  }

  ghost predicate InTroubleRule(env: Env, snap: PodSnap, ord: MapOrder, d: Diagnosis) {
    || d in OOMRule(env, snap) || d in CrashRule(env, snap) || d in EndedRule(env, snap) || d in ImagePullRule(env, snap)
    || d in SchedulingRule(env, snap, ord) || d in ConfigRule(env, snap, ord) || d in MountRule(env, snap, ord) || d in NodeRule(env, snap)
  }

  lemma TroubleRulesWorded(env: Env, snap: PodSnap, ord: MapOrder, d: Diagnosis)
    requires InTroubleRule(env, snap, ord, d)
    ensures Troubling(d) && Worded(env.say, d)
  {
    OOMTroubling(env, snap);
    CrashTroubling(env, snap);
    EndedTroubling(env, snap);
    ImagePullTroubling(env, snap);
    SchedulingTroubling(env, snap, ord);
    ConfigTroubling(env, snap, ord);
    MountTroubling(env, snap, ord);
    NodeTroubling(env, snap);
    assert Troubling(d);
  }

  /** Every finding of a Pod has a known severity and is worded accordingly. */
  lemma ExplainedWorded(env: Env, snap: PodSnap, ord: MapOrder)
    ensures AllWorded(env.say, PodFindings(env, snap, ord)) && AllWorded(env.say, Explained(env, snap, ord))
  {
    forall d | d in PodFindings(env, snap, ord) ensures Worded(env.say, d) {
      InPodFindings(env, snap, ord, d);
      if d in ProbeRule(env, snap) {
        ProbesWorded(env, snap, d);
      } else if d in ClaimRule(env, snap, ord) {
        ClaimsWorded(env, snap, ord, d);
      } else if d in RestartRule(env, snap) {
        RestartsWorded(env, snap, d);
      } else {
        TroubleRulesWorded(env, snap, ord, d);
      }
    }
    NodeTroubling(env, snap);
    TroublingWorded(env.say, Fallback(env, snap));
  }

  // ---- Collapsing ----

  lemma SameKeySameTone(say: Wording, a: Diagnosis, b: Diagnosis)
    requires HistoryApart(say) && Worded(say, a) && Worded(say, b) && Aggregation.KeyOf(a) == Aggregation.KeyOf(b)
    ensures a.severity == Info <==> b.severity == Info
  {
  }

  /** Findings worded apart survive collapsing: what is left is calm exactly when they all were. */
  lemma CollapsedCalmIff(say: Wording, ds: seq<Diagnosis>, total: int)
    requires AllWorded(say, ds)
    ensures Calm(ds) ==> Calm(Aggregation.Aggregated(ds, total))
    ensures HistoryApart(say) ==> (Calm(Aggregation.Aggregated(ds, total)) <==> Calm(ds))
  {
    CalmAfterAggregationIff(ds, total);
    if HistoryApart(say) && LeadersCalm(ds) {
      forall d | d in ds ensures d.severity != Critical && d.severity != Warning {
        var n :| 0 <= n < |ds| && ds[n] == d;
        assert HasKey(Aggregation.KeyOf, Aggregation.KeyOf(ds[n]), ds);
        var i := FirstIndex(Aggregation.KeyOf, Aggregation.KeyOf(d), ds);
        assert Leads(ds, i) && ds[i] in ds;
        SameKeySameTone(say, ds[i], d);
      }
    }
  }

  /** Nothing is wrong with the Pod that its rules or the fallback would report above info. */
  ghost predicate Well(snap: PodSnap) {
    !Broken(snap) && !Shaky(snap) && !Unexplained(snap)
  }

  ghost predicate AllWell(pods: seq<PodSnap>) {
    forall s :: s in pods ==> Well(s)
  }

  lemma WellIff(env: Env, snap: PodSnap, ord: MapOrder)
    requires OrderOf(ord, snap)
    ensures Calm(Explained(env, snap, ord)) <==> Well(snap)
    ensures Calm(PodFindings(env, snap, ord)) <==> !Broken(snap) && !Shaky(snap)
  {
    ExplainedVerdict(env, snap, ord);
    CalmHas(Explained(env, snap, ord));
    HasIff(env, snap, ord, Critical);
    HasIff(env, snap, ord, Warning);
    CalmHas(PodFindings(env, snap, ord));
  }

  lemma GatheredWorded(say: Wording, f: (PodSnap, MapOrder) -> seq<Diagnosis>, pods: seq<PodSnap>, ords: seq<MapOrder>)
    requires |pods| == |ords| && forall i :: 0 <= i < |pods| ==> AllWorded(say, f(pods[i], ords[i]))
    ensures AllWorded(say, Gathered(f, pods, ords))
  {
    forall d | d in Gathered(f, pods, ords) ensures Worded(say, d) {
      InGathered(f, pods, ords, d);
    }
  }

  /** Collapsing what every Pod contributes, when the contributions are calm under a condition of each. */
  lemma CollapsedPods(env: Env, f: (PodSnap, MapOrder) -> seq<Diagnosis>, ok: PodSnap -> bool, pods: seq<PodSnap>, ords: seq<MapOrder>)
    requires |pods| == |ords|
    requires forall i :: 0 <= i < |pods| ==> AllWorded(env.say, f(pods[i], ords[i]))
    requires forall i :: 0 <= i < |pods| ==> (Calm(f(pods[i], ords[i])) <==> ok(pods[i]))
    ensures (forall s :: s in pods ==> ok(s)) ==> Calm(Aggregation.Aggregated(Gathered(f, pods, ords), |pods|))
    ensures HistoryApart(env.say) ==> (Calm(Aggregation.Aggregated(Gathered(f, pods, ords), |pods|)) <==> forall s :: s in pods ==> ok(s))
  {
    GatheredWorded(env.say, f, pods, ords);
    GatheredCalm(f, pods, ords);
    assert (forall s :: s in pods ==> ok(s)) <==> forall i :: 0 <= i < |pods| ==> ok(pods[i]);
    CollapsedCalmIff(env.say, Gathered(f, pods, ords), |pods|);
  }

  /** What the Pods contribute to a report is calm when they are all well, and only then if history
      and trouble are worded apart. */
  lemma CalmPodsIff(env: Env, pods: seq<PodSnap>, ords: seq<MapOrder>)
    requires Walked(pods, ords)
    ensures AllWell(pods) ==> Calm(AggregatedPods(env, pods, ords))
    ensures HistoryApart(env.say) ==> (Calm(AggregatedPods(env, pods, ords)) <==> AllWell(pods))
  {
    var f := ExplainedBy(env);
    var ok := (s: PodSnap) => Well(s);
    forall i | 0 <= i < |pods| ensures AllWorded(env.say, f(pods[i], ords[i])) && (Calm(f(pods[i], ords[i])) <==> ok(pods[i])) {
      ExplainedWorded(env, pods[i], ords[i]);
      WellIff(env, pods[i], ords[i]);
    }
    CollapsedPods(env, f, ok, pods, ords);
  }
}
