/** What the findings of every report blame, and how sure of them the report is, in terms of the facts. */
module Blames {
  import opened Sequences
  import opened Text
  import Names
  import StableSort
  import opened Model
  import opened Collecting
  import opened Pods
  import opened PodRules
  import opened PodTheorems
  import opened Assembly
  import opened PodVerdict
  import Scheduling
  import Services
  import Deployments
  import StatefulSets
  import Ingresses
  import IngressRules
  import Claims

  // ---- The names a message quotes ----

  datatype Quote = Quote(before: string, name: string)

  /** Some text in which names stand in double quotes. */
  function Sentence(quotes: seq<Quote>, tail: string): string {
    if quotes == [] then tail else quotes[0].before + ['"'] + quotes[0].name + ['"'] + Sentence(quotes[1..], tail)
  }

  ghost predicate Plain(quotes: seq<Quote>, tail: string) {
    '"' !in tail && forall q :: q in quotes ==> '"' !in q.before && '"' !in q.name && q.name != ""
  }

  lemma OneQuote(before: string, name: string, rest: string)
    requires '"' !in before && '"' !in name && name != ""
    ensures QuotedNames(before + ['"'] + name + ['"'] + rest) == [name] + QuotedNames(rest)
  {
    var s := before + ['"'] + name + ['"'] + rest;
    FindIs(before, '"', name + ['"'] + rest);
    assert s == before + ['"'] + (name + ['"'] + rest);
    assert s[|before| + 1..] == name + ['"'] + rest;
    FindIs(name, '"', rest);
    assert (name + ['"'] + rest)[..|name|] == name && (name + ['"'] + rest)[|name| + 1..] == rest;
  }

  /** Every quoted name is read, in order, and nothing else. */
  lemma {:induction false} QuotedNamesAre(quotes: seq<Quote>, tail: string)
    requires Plain(quotes, tail)
    ensures |QuotedNames(Sentence(quotes, tail))| == |quotes|
    ensures forall i :: 0 <= i < |quotes| ==> QuotedNames(Sentence(quotes, tail))[i] == quotes[i].name
  {
    if quotes == [] {
      FindNone(tail, '"');
    } else {
      QuotedNamesAre(quotes[1..], tail);
      OneQuote(quotes[0].before, quotes[0].name, Sentence(quotes[1..], tail));
    }
  }

  // ---- What the findings of a Pod blame ----

  ghost predicate SomeAbsent(refs: map<string, Existence>) {
    exists n :: n in refs && refs[n] == Missing
  }

  /** The message quotes the name of an object that does not exist. */
  ghost predicate QuotesAbsent(message: string, refs: map<string, Existence>) {
    exists n :: n in QuotedNames(message) && n in refs && refs[n] == Missing
  }

  /** A configuration error is blamed on what its message names, else on whatever is missing. */
  ghost function ConfigBlame(snap: PodSnap, message: string): FindingID {
    if QuotesAbsent(message, snap.configMaps) then PodMissingConfigMap
    else if QuotesAbsent(message, snap.secrets) then PodMissingSecret
    else if SomeAbsent(snap.configMaps) then PodMissingConfigMap
    else if SomeAbsent(snap.secrets) then PodMissingSecret
    else NoID
  }

  ghost predicate BlamesConfig(snap: PodSnap, component: string, cause: FindingID) {
    exists c :: c in Containers(snap.pod) && c.name == component && PodVerdict.Waiting(c, ["CreateContainerConfigError", "CreateContainerError"])
                && cause == ConfigBlame(snap, c.status.value.waiting.value.message)
  }

  ghost function MountBlame(snap: PodSnap): FindingID {
    if SomeAbsent(snap.configMaps) then PodMissingConfigMap
    else if SomeAbsent(snap.secrets) then PodMissingSecret
    else if exists n :: n in snap.claims && snap.claims[n].existence == Missing then PodPVCNotFound
    else NoID
  }

  ghost predicate Lacks(snap: PodSnap) {
    exists n :: n in snap.claims && snap.claims[n].existence == Missing
  }

  ghost predicate Pends(snap: PodSnap) {
    exists n :: n in snap.claims && snap.claims[n].existence != Missing && snap.claims[n].phase == ClaimPending
  }

  /** Only where the scheduler named a volume is a claim blamed: one that is missing or one that is pending. */
  ghost predicate BlamesClaim(snap: PodSnap, cause: FindingID) {
    exists text :: SchedulerTells(snap, text)
      && if exists r :: r in Scheduling.Parsed(text).reasons && r.category == Scheduling.VolumeCategory
         then (cause == PodPVCNotFound && Lacks(snap)) || (cause == PodPVCNotBound && Pends(snap)) || (cause == NoID && !Lacks(snap) && !Pends(snap))
         else cause == NoID
  }

  predicate Unplaced(id: FindingID) {
    || id == PodUnschedulable || id == PodUnschedulableCPU || id == PodUnschedulableMemory || id == PodUntoleratedTaint
    || id == PodUnschedulableAffinity || id == PodUnschedulableVolume
  }

  /** What a finding blames. */
  ghost predicate BlamesRightly(snap: PodSnap, d: Diagnosis) {
    if d.id == PodFailedMount then d.causedBy == MountBlame(snap)
    else if d.id == PodCreateContainerConfigErr then BlamesConfig(snap, d.component, d.causedBy)
    else if Unplaced(d.id) then BlamesClaim(snap, d.causedBy)
    else d.causedBy == NoID
  }

  /** What it blames, and how sure it is. */
  ghost predicate Fits(snap: PodSnap, d: Diagnosis) {
    BlamesRightly(snap, d) && (d.id == PodImagePullFailed || d.confidence == Certain)
  }

  ghost predicate Simple(d: Diagnosis) {
    && d.causedBy == NoID && d.confidence == Certain
    && !Unplaced(d.id) && d.id != PodFailedMount && d.id != PodCreateContainerConfigErr && d.id != PodImagePullFailed
  }

  ghost predicate AllSimple(ds: seq<Diagnosis>) {
    forall d :: d in ds ==> Simple(d)
  }

  lemma SimpleFlatMap<T>(f: T -> seq<Diagnosis>, s: seq<T>, d: Diagnosis)
    requires d in FlatMap(f, s) && forall x :: AllSimple(f(x))
    ensures Simple(d)
  {
    InFlatMap(f, s, d);
    var i :| 0 <= i < |s| && d in f(s[i]);
    assert AllSimple(f(s[i]));
  }

  lemma SimpleContainer(env: Env, snap: PodSnap, c: Container)
    ensures AllSimple(OOMOf(env, snap)(c)) && AllSimple(RestartOf(env, snap)(c))
    ensures AllSimple(CrashOf(env, snap)(c))
  {
    assert Simple(CrashDiagnosis(env, snap, c));
  }

  lemma SimpleContainers(env: Env, snap: PodSnap, d: Diagnosis)
    requires d in OOMRule(env, snap) || d in CrashRule(env, snap) || d in RestartRule(env, snap)
    ensures Simple(d)
  {
    forall c ensures AllSimple(OOMOf(env, snap)(c)) && AllSimple(CrashOf(env, snap)(c)) && AllSimple(RestartOf(env, snap)(c)) {
      SimpleContainer(env, snap, c);
    }
    var f := if d in OOMRule(env, snap) then OOMOf(env, snap) else if d in CrashRule(env, snap) then CrashOf(env, snap) else RestartOf(env, snap);
    SimpleFlatMap(f, Containers(snap.pod), d);
  }

  lemma SimpleEnd(env: Env, snap: PodSnap, c: Container, exitCode: int)
    ensures AllSimple([EndedDiagnosis(env, snap, c, exitCode)])
  {
  }

  lemma SimpleEnded(env: Env, snap: PodSnap, d: Diagnosis)
    requires d in EndedRule(env, snap)
    ensures Simple(d)
  {
    forall c: Container ensures AllSimple(EndedOf(env, snap)(c)) {
      if c.Ended().Some? {
        SimpleEnd(env, snap, c, c.Ended().value.exitCode);
      }
    }
    if d !in Evictions(env, snap) {
      SimpleFlatMap(EndedOf(env, snap), Containers(snap.pod), d);
    }
  }

  lemma SimpleProbe(env: Env, snap: PodSnap, h: ProbeHit)
    ensures Simple(ProbeDiagnosis(env, snap, h))
  {
  }

  lemma SimpleProbes(env: Env, snap: PodSnap, d: Diagnosis)
    requires d in ProbeRule(env, snap)
    ensures Simple(d)
  {
    var out, hits := ProbeRule(env, snap), LatestProbes(snap);
    var i :| 0 <= i < |out| && out[i] == d;
    assert d == ProbeDiagnosis(env, snap, hits[i]);
    SimpleProbe(env, snap, hits[i]);
  }

  lemma SimpleClaim(env: Env, snap: PodSnap, n: string)
    ensures AllSimple(ClaimFindings(env, snap, n))
  {
  }

  lemma SimpleClaims(env: Env, snap: PodSnap, ord: MapOrder, d: Diagnosis)
    requires d in ClaimRule(env, snap, ord) || d in NodeRule(env, snap)
    ensures Simple(d)
  {
    if d in ClaimRule(env, snap, ord) {
      forall n: string ensures AllSimple(ClaimOf(env, snap)(n)) {
        SimpleClaim(env, snap, n);
      }
      SimpleFlatMap(ClaimOf(env, snap), StableSort.Sort(Names.ByName(), ord.claims), d);
    }
  }

  lemma PullBlame(env: Env, snap: PodSnap, c: Container, d: Diagnosis)
    requires d in ImagePull(env, snap, c)
    ensures Fits(snap, d)
  {
  }

  lemma PullBlames(env: Env, snap: PodSnap, d: Diagnosis)
    requires d in ImagePullRule(env, snap)
    ensures Fits(snap, d)
  {
    var f, cs := ImagePullOf(env, snap), Containers(snap.pod);
    InFlatMap(f, cs, d);
    var i :| 0 <= i < |cs| && d in f(cs[i]);
    PullBlame(env, snap, cs[i], d);
  }

  // ---- Configuration errors ----

  lemma ConfigCauseIs(snap: PodSnap, ord: MapOrder, message: string)
    requires OrderOf(ord, snap)
    ensures ConfigCause(message, MissingNames(snap.configMaps, ord.configMaps), MissingNames(snap.secrets, ord.secrets)) == ConfigBlame(snap, message)
  {
    QuotesAre(snap.configMaps, ord.configMaps, message);
    QuotesAre(snap.secrets, ord.secrets, message);
    SomeMissing(snap.configMaps, ord.configMaps);
    SomeMissing(snap.secrets, ord.secrets);
  }

  lemma QuotesAre(refs: map<string, Existence>, order: seq<string>, message: string)
    requires Enumerates(order, refs.Keys)
    ensures ReferencesAny(message, MissingNames(refs, order)) <==> QuotesAbsent(message, refs)
  {
    forall n ensures n in MissingNames(refs, order) <==> n in refs && refs[n] == Missing {
      InMissingNames(refs, order, n);
    }
    if QuotesAbsent(message, refs) {
      var n :| n in QuotedNames(message) && n in refs && refs[n] == Missing;
      var i :| 0 <= i < |QuotedNames(message)| && QuotedNames(message)[i] == n;
    }
  }

  lemma ConfigErrorSays(env: Env, snap: PodSnap, ord: MapOrder, c: Container, d: Diagnosis)
    requires OrderOf(ord, snap)
    requires d in ConfigError(env, snap, MissingNames(snap.configMaps, ord.configMaps), MissingNames(snap.secrets, ord.secrets), c)
    ensures d.id == PodCreateContainerConfigErr && d.component == c.name && d.confidence == Certain
    ensures PodVerdict.Waiting(c, ["CreateContainerConfigError", "CreateContainerError"])
    ensures d.causedBy == ConfigBlame(snap, c.status.value.waiting.value.message)
  {
    ConfigCauseIs(snap, ord, c.status.value.waiting.value.message);
  }

  lemma ConfigRuleBlames(env: Env, snap: PodSnap, ord: MapOrder, d: Diagnosis)
    requires OrderOf(ord, snap) && d in ConfigRule(env, snap, ord)
    ensures Fits(snap, d)
  {
    var cms, secs := MissingNames(snap.configMaps, ord.configMaps), MissingNames(snap.secrets, ord.secrets);
    if d in ConfigErrors(env, snap, cms, secs) {
      var f, cs := ConfigErrorOf(env, snap, cms, secs), Containers(snap.pod);
      InFlatMap(f, cs, d);
      var i :| 0 <= i < |cs| && d in f(cs[i]);
      ConfigErrorSays(env, snap, ord, cs[i], d);
      assert cs[i] in cs;
    } else if d in AbsentObjects(env, snap, PodMissingConfigMap, "configmap", cms) {
      SimpleAbsent(env, snap, PodMissingConfigMap, "configmap", cms, d);
    } else {
      SimpleAbsent(env, snap, PodMissingSecret, "secret", secs, d);
    }
  }

  lemma SimpleAbsent(env: Env, snap: PodSnap, id: FindingID, kind: string, names: seq<string>, d: Diagnosis)
    requires d in AbsentObjects(env, snap, id, kind, names) && id in {PodMissingConfigMap, PodMissingSecret}
    ensures Simple(d)
  {
    var out := AbsentObjects(env, snap, id, kind, names);
    var i :| 0 <= i < |out| && out[i] == d;
    assert d == MissingObject(env, snap, id, kind, names[i]);
  }

  // ---- Mounts and scheduling ----

  lemma Walks(order: seq<string>, keys: set<string>)
    requires Enumerates(order, keys)
    ensures forall n :: n in order <==> n in keys
  {
    assert forall n :: n in order <==> n in (set x | x in order);
  }

  lemma MountCauseIs(snap: PodSnap, ord: MapOrder)
    requires OrderOf(ord, snap)
    ensures MountCause(snap, ord) == MountBlame(snap)
  {
    SomeMissing(snap.configMaps, ord.mountConfigMaps);
    SomeMissing(snap.secrets, ord.mountSecrets);
    MissingClaimCauseIff(snap.claims, ord.mountClaims);
    Walks(ord.mountClaims, snap.claims.Keys);
  }

  lemma MountBlames(env: Env, snap: PodSnap, ord: MapOrder, d: Diagnosis)
    requires OrderOf(ord, snap) && d in MountRule(env, snap, ord)
    ensures Fits(snap, d)
  {
    MountCauseIs(snap, ord);
    assert d.id == PodFailedMount && d.confidence == Certain && d.causedBy == MountCause(snap, ord);
  }

  lemma {:induction false} LastNamed(claims: map<string, ClaimRef>, order: seq<string>)
    ensures match VolumeCause(claims, order)
            case PodPVCNotFound => exists n :: n in order && n in claims && claims[n].existence == Missing
            case PodPVCNotBound => exists n :: n in order && n in claims && claims[n].existence != Missing && claims[n].phase == ClaimPending
            case NoID => forall n :: n in order && n in claims ==> claims[n].existence != Missing && claims[n].phase != ClaimPending
            case _ => false
  {
    if order != [] {
      LastNamed(claims, Front(order));
      Snoc(order);
    }
  }

  lemma VolumeBlames(snap: PodSnap, ord: MapOrder)
    requires OrderOf(ord, snap)
    ensures var cause := VolumeCause(snap.claims, ord.schedulingClaims);
            (cause == PodPVCNotFound && Lacks(snap)) || (cause == PodPVCNotBound && Pends(snap)) || (cause == NoID && !Lacks(snap) && !Pends(snap))
  {
    LastNamed(snap.claims, ord.schedulingClaims);
    Walks(ord.schedulingClaims, snap.claims.Keys);
  }

  lemma UnplacedSays(env: Env, snap: PodSnap, ord: MapOrder, report: Scheduling.SchedulerReport)
    ensures var d := Unschedulable(env, snap, ord, report);
            && Unplaced(d.id) && d.confidence == Certain
            && d.causedBy == if exists r :: r in report.reasons && r.category == Scheduling.VolumeCategory
                             then VolumeCause(snap.claims, ord.schedulingClaims) else NoID
  {
  }

  lemma SchedulingBlames(env: Env, snap: PodSnap, ord: MapOrder, d: Diagnosis)
    requires OrderOf(ord, snap) && d in SchedulingRule(env, snap, ord)
    ensures Fits(snap, d)
  {
    if snap.pod.gates == [] {
      var text := SchedulerMessage(snap);
      SchedulerTextIs(snap, text);
      UnplacedSays(env, snap, ord, Scheduling.Parsed(text));
      VolumeBlames(snap, ord);
    }
  }

  lemma SimpleOthers(env: Env, snap: PodSnap, ord: MapOrder, d: Diagnosis)
    requires || d in OOMRule(env, snap) || d in CrashRule(env, snap) || d in RestartRule(env, snap) || d in EndedRule(env, snap)
             || d in ProbeRule(env, snap) || d in ClaimRule(env, snap, ord) || d in NodeRule(env, snap)
    ensures Fits(snap, d)
  {
    if d in EndedRule(env, snap) {
      SimpleEnded(env, snap, d);
    } else if d in ProbeRule(env, snap) {
      SimpleProbes(env, snap, d);
    } else if d in ClaimRule(env, snap, ord) || d in NodeRule(env, snap) {
      SimpleClaims(env, snap, ord, d);
    } else {
      SimpleContainers(env, snap, d);
    }
  }

  lemma FindingBlames(env: Env, snap: PodSnap, ord: MapOrder, d: Diagnosis)
    requires OrderOf(ord, snap) && d in PodFindings(env, snap, ord)
    ensures Fits(snap, d)
  {
    InPodFindings(env, snap, ord, d);
    if d in ImagePullRule(env, snap) {
      PullBlames(env, snap, d);
    } else if d in SchedulingRule(env, snap, ord) {
      SchedulingBlames(env, snap, ord, d);
    } else if d in ConfigRule(env, snap, ord) {
      ConfigRuleBlames(env, snap, ord, d);
    } else if d in MountRule(env, snap, ord) {
      MountBlames(env, snap, ord, d);
    } else {
      SimpleOthers(env, snap, ord, d);
    }
  }

  lemma FallbackBlames(env: Env, snap: PodSnap, d: Diagnosis)
    requires d in Fallback(env, snap)
    ensures Fits(snap, d)
  {
    assert Simple(d);
  }

  /** In a Pod report a mount failure blames a missing object, a configuration error what its message
      quotes, a scheduling failure a claim the scheduler could mean, and nothing else blames anything; and
      everything is certain except, perhaps, why an image could not be pulled. */
  lemma PodBlame(env: Env, snap: PodSnap, ord: MapOrder, d: Diagnosis)
    requires OrderOf(ord, snap) && d in Explained(env, snap, ord)
    ensures Fits(snap, d)
  {
    if d in PodFindings(env, snap, ord) {
      FindingBlames(env, snap, ord, d);
    } else {
      FallbackBlames(env, snap, d);
    }
  }

  // ---- Workloads, Services and Ingresses ----

  /** The finding is one of the Pods', or the rules' own: certain, and blaming the first of the Pods'
      findings exactly when it is one of `symptoms`. */
  ghost predicate OwnOrPods(d: Diagnosis, pods: seq<Diagnosis>, symptoms: set<FindingID>) {
    d in pods || (d.confidence == Certain && d.causedBy == if pods != [] && d.id in symptoms then pods[0].id else NoID)
  }

  /** In an assembled report, what is not a Pod finding is one of the rules' own, linked if it is a symptom. */
  lemma OwnIn(own: seq<Diagnosis>, pods: seq<Diagnosis>, symptoms: set<FindingID>, d: Diagnosis) returns (f: Diagnosis)
    requires d in Assembled(own, pods, symptoms) && d !in pods
    ensures f in own && d.id == f.id && d.confidence == f.confidence
    ensures d.causedBy == if pods != [] && f.id in symptoms then pods[0].id else f.causedBy
  {
    InAssembled(own, pods, symptoms, d);
    f :| f in own && d == if pods != [] && f.id in symptoms then f.(causedBy := pods[0].id) else f;
  }

  lemma DeploymentOwn(say: Wording, snap: Deployments.DeploymentSnap, f: Diagnosis)
    requires f in Deployments.DeploymentFindings(say, snap)
    ensures f.confidence == Certain && f.causedBy == NoID
  {
    Deployments.InDeploymentFindings(say, snap, f);
  }

  lemma DeploymentBlame(env: Env, snap: Deployments.DeploymentSnap, ords: seq<MapOrder>, d: Diagnosis)
    requires |ords| == |snap.pods| && d in Deployments.DeploymentDiagnoses(env, snap, ords)
    ensures OwnOrPods(d, AggregatedPods(env, snap.pods, ords), {DeploymentUnavailableReplicas, DeploymentProgressDeadlineExceeded})
  {
    var own, pods := Deployments.DeploymentFindings(env.say, snap), AggregatedPods(env, snap.pods, ords);
    if d !in pods {
      var f := OwnIn(own, pods, Deployments.SYMPTOMS, d);
      DeploymentOwn(env.say, snap, f);
    }
  }

  lemma ServiceOwn(env: Env, snap: Services.ServiceSnap, f: Diagnosis)
    requires f in Services.ServiceFindings(env, snap)
    ensures f.confidence == Certain && f.causedBy == NoID
  {
    Services.InServiceFindings(env, snap, f);
    if f in Services.TargetPortRule(env.say, snap) {
      var g, ports := Services.TargetPortOf(env.say, snap, Services.DeclaredPortNames(snap.BackendPods())), snap.service.ports;
      InFlatMap(g, ports, f);
      var i :| 0 <= i < |ports| && f in g(ports[i]);
      assert f in Services.TargetPort(env.say, snap, Services.DeclaredPortNames(snap.BackendPods()), ports[i]);
    }
  }

  lemma ServiceBlame(env: Env, snap: Services.ServiceSnap, ords: seq<MapOrder>, d: Diagnosis)
    requires |ords| == |snap.BackendPods()| && d in Services.ServiceDiagnoses(env, snap, ords)
    ensures OwnOrPods(d, Services.BackendFindings(env, snap, ords), {ServiceNoReadyEndpoints})
  {
    var own, pods := Services.ServiceFindings(env, snap), Services.BackendFindings(env, snap, ords);
    if d !in pods {
      var f := OwnIn(own, pods, {ServiceNoReadyEndpoints}, d);
      ServiceOwn(env, snap, f);
    }
  }

  lemma SetClaimOwn(say: Wording, snap: StatefulSets.SetSnap, order: seq<string>, f: Diagnosis)
    requires f in StatefulSets.SetClaimRule(say, snap, order)
    ensures f.confidence == Certain && f.causedBy == NoID
  {
    var g, names := StatefulSets.SetClaimOf(say, snap), StableSort.Sort(Names.ByName(), order);
    InFlatMap(g, names, f);
    var i :| 0 <= i < |names| && f in g(names[i]);
    assert f in StatefulSets.SetClaimFindings(say, snap, names[i]);
  }

  lemma SetOthersOwn(say: Wording, snap: StatefulSets.SetSnap, f: Diagnosis)
    requires || f in StatefulSets.OrderingRule(say, snap) || f in StatefulSets.ServiceRule(say, snap)
             || f in StatefulSets.UpdateRule(say, snap) || f in StatefulSets.AvailabilityRule(say, snap)
    ensures f.confidence == Certain && f.causedBy == NoID
  {
  }

  lemma SetOwn(say: Wording, snap: StatefulSets.SetSnap, order: seq<string>, f: Diagnosis)
    requires f in StatefulSets.SetFindings(say, snap, order)
    ensures f.confidence == Certain && f.causedBy == NoID
  {
    StatefulSets.InSetFindings(say, snap, order, f);
    if f in StatefulSets.SetClaimRule(say, snap, order) {
      SetClaimOwn(say, snap, order, f);
    } else {
      SetOthersOwn(say, snap, f);
    }
  }

  lemma SetBlame(env: Env, snap: StatefulSets.SetSnap, order: seq<string>, ords: seq<MapOrder>, d: Diagnosis)
    requires |ords| == |snap.pods| && d in StatefulSets.SetDiagnoses(env, snap, order, ords)
    ensures OwnOrPods(d, StatefulSets.SetPodFindings(env, snap, ords), {StatefulSetUnavailableReplicas})
  {
    var own, pods := StatefulSets.SetFindings(env.say, snap, order), StatefulSets.SetPodFindings(env, snap, ords);
    if d !in pods {
      var f := OwnIn(own, pods, {StatefulSetUnavailableReplicas}, d);
      SetOwn(env.say, snap, order, f);
    }
  }

  /** Only what an Ingress lacks of its own is not certain. */
  ghost function IngressConfidence(id: FindingID): Confidence {
    if id == IngressNoClass then Likely else if id == IngressNoAddress then Possible else Certain
  }

  ghost predicate IngressOwnOrPods(d: Diagnosis, pods: seq<Diagnosis>) {
    || d in pods
    || (d.confidence == IngressConfidence(d.id) && d.causedBy == if pods != [] && d.id == IngressServiceNoEndpoints then pods[0].id else NoID)
  }

  lemma BrokenBackendOwn(say: Wording, snap: Ingresses.IngressSnap, n: string, f: Diagnosis)
    requires f in IngressRules.FindingsFor(say, snap)(n)
    ensures f.confidence == Certain && f.causedBy == NoID && f.id != IngressNoClass && f.id != IngressNoAddress
  {
  }

  lemma IngressOwn(say: Wording, snap: Ingresses.IngressSnap, order: seq<string>, f: Diagnosis)
    requires f in IngressRules.IngressFindings(say, snap, order)
    ensures f.confidence == IngressConfidence(f.id) && f.causedBy == NoID
  {
    IngressRules.InIngressFindings(say, snap, order, f);
    if f in IngressRules.BackendRule(say, snap, order) && snap.paths != [] {
      var g, names := IngressRules.FindingsFor(say, snap), StableSort.Sort(Names.ByName(), order);
      InFlatMap(g, names, f);
      var i :| 0 <= i < |names| && f in g(names[i]);
      BrokenBackendOwn(say, snap, names[i], f);
    }
  }

  lemma IngressOwnLinked(say: Wording, snap: Ingresses.IngressSnap, order: seq<string>, pods: seq<Diagnosis>, d: Diagnosis)
    requires d in Assembled(IngressRules.IngressFindings(say, snap, order), pods, {IngressServiceNoEndpoints})
    ensures IngressOwnOrPods(d, pods)
  {
    if d !in pods {
      var f := OwnIn(IngressRules.IngressFindings(say, snap, order), pods, {IngressServiceNoEndpoints}, d);
      IngressOwn(say, snap, order, f);
    }
  }

  lemma IngressBlame(env: Env, snap: Ingresses.IngressSnap, order: seq<string>, ords: seq<MapOrder>, d: Diagnosis)
    requires |ords| == |IngressRules.PodsBehindIngress(snap, order)| && d in IngressRules.IngressDiagnoses(env, snap, order, ords)
    ensures IngressOwnOrPods(d, AggregatedPods(env, IngressRules.PodsBehindIngress(snap, order), ords))
  {
    IngressOwnLinked(env.say, snap, order, AggregatedPods(env, IngressRules.PodsBehindIngress(snap, order), ords), d);
  }

  /** Everything a claim report says is certain. */
  lemma ClaimConfidence(say: Wording, snap: Claims.ClaimSnap, d: Diagnosis)
    requires d in Claims.ClaimDiagnoses(say, snap)
    ensures d.confidence == Certain
  {
    Claims.InClaimFindings(say, snap, d);
    assert d in Claims.ProvisioningRule(say, snap) || d in Claims.ConsumerRule(say, snap) ==> d.confidence == Certain;
  }
}
