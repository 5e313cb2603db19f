/** What the collector of a Pod looks up, and what it keeps of the answers, in the API's own words. */
module PodReads {
  import opened Sequences
  import opened GroupBy
  import opened Text
  import opened Model
  import opened Events
  import opened Collecting
  import opened Pods
  import opened Storage
  import opened PodCollect
  import Backends

  // ---- When anything is looked up ----

  ghost predicate Warned(evs: seq<Event>, reasons: seq<string>) {
    exists e :: e in evs && e.typ == "Warning" && e.reason in reasons
  }

  /** A container waits, or an event warns, as it happens when configuration is absent. */
  ghost predicate ConfigSuspect(api: PodApi) {
    || (exists c :: c in Containers(api.pod) && c.status.Some? && c.status.value.waiting.Some?
                    && c.status.value.waiting.value.reason in ["InvalidImageName", "CreateContainerError", "CreateContainerConfigError"])
    || Warned(Backends.EventsFrom(api.events), ["FailedCreatePodContainer", "Failed", "FailedMount"])
  }

  ghost predicate ClaimsSuspect(api: PodApi) {
    api.pod.phase == Pending || Warned(Backends.EventsFrom(api.events), ["FailedScheduling", "FailedAttachVolume", "FailedMount"])
  }

  lemma WarnedIff(evs: seq<Event>, listed: seq<string>, reasons: seq<string>)
    requires forall r :: r in listed <==> r in reasons
    ensures SomeWarning(evs, listed) <==> Warned(evs, reasons)
  {
    if Warned(evs, reasons) {
      var e :| e in evs && e.typ == "Warning" && e.reason in reasons;
      var i :| 0 <= i < |evs| && evs[i] == e;
      assert IsWarning(evs[i]);
    }
  }

  lemma ConfigSuspectIff(api: PodApi)
    ensures NeedsConfigRefs(api.pod, EventsIn(api)) <==> ConfigSuspect(api)
  {
    WarnedIff(EventsIn(api), CONFIG_EVENTS, ["FailedCreatePodContainer", "Failed", "FailedMount"]);
    var cs := Containers(api.pod);
    if exists c :: c in cs && c.status.Some? && c.status.value.waiting.Some?
                   && c.status.value.waiting.value.reason in ["InvalidImageName", "CreateContainerError", "CreateContainerConfigError"]
    {
      var c :| c in cs && c.status.Some? && c.status.value.waiting.Some?
               && c.status.value.waiting.value.reason in ["InvalidImageName", "CreateContainerError", "CreateContainerConfigError"];
      var i :| 0 <= i < |cs| && cs[i] == c;
      assert cs[i].Waits().Some? && cs[i].Waits().value.reason in CONFIG_WAITS;
    }
  }

  lemma ClaimsSuspectIff(api: PodApi)
    ensures NeedsClaims(api.pod, EventsIn(api)) <==> ClaimsSuspect(api)
  {
    WarnedIff(EventsIn(api), CLAIM_EVENTS, ["FailedScheduling", "FailedAttachVolume", "FailedMount"]);
  }

  // ---- What is looked up ----

  ghost predicate RefersTo(pod: PodObject, r: ConfigRef) {
    || (exists c :: (c in pod.initContainers || c in pod.containers) && r in c.refs)
    || (exists v :: v in pod.volumes && r in v.refs)
  }

  /** A name without the white space around it, unless nothing is left. */
  ghost predicate Means(written: string, name: string) {
    name != "" && Trim(IsSpace, written) == name
  }

  ghost predicate NeedsConfigMap(pod: PodObject, name: string) {
    exists r :: RefersTo(pod, r) && r.ConfigMapRef? && !r.optional && Means(r.name, name)
  }

  ghost predicate NeedsSecret(pod: PodObject, name: string) {
    || (exists r :: RefersTo(pod, r) && r.SecretRef? && !r.optional && Means(r.name, name))
    || (exists s :: s in pod.pullSecrets && Means(s, name))
  }

  ghost predicate Mounts(pod: PodObject, claim: string) {
    exists v :: v in pod.volumes && v.claim == Some(claim)
  }

  lemma InLists<T>(f: T -> seq<ConfigRef>, s: seq<T>, r: ConfigRef)
    ensures r in FlatMap(Same, Map(f, s)) <==> exists x :: x in s && r in f(x)
  {
    var lists := Map(f, s);
    InFlatMap(Same, lists, r);
    if r in FlatMap(Same, lists) {
      var i :| 0 <= i < |lists| && r in Same(lists[i]);
      assert s[i] in s && lists[i] == f(s[i]);
    }
    forall x | x in s && r in f(x) ensures r in FlatMap(Same, lists) {
      var i :| 0 <= i < |s| && s[i] == x;
      assert lists[i] == f(x) && r in Same(lists[i]);
    }
  }

  lemma InRefs(pod: PodObject, r: ConfigRef)
    ensures r in Refs(pod) <==> RefersTo(pod, r)
  {
    var cs := pod.initContainers + pod.containers;
    FlatMapConcat(Same, Map(ContainerRefs, cs), Map(VolumeRefs, pod.volumes));
    InLists(ContainerRefs, cs, r);
    InLists(VolumeRefs, pod.volumes, r);
    assert forall c :: c in cs <==> c in pod.initContainers || c in pod.containers;
  }

  lemma InUniqueNames(names: seq<string>, name: string)
    ensures name in Uniques(names) <==> exists w :: w in names && Means(w, name)
  {
    var trimmed := Map(Trimmed, names);
    var kept := Filter(NotBlank, trimmed);
    InUniques(names, name);
    FirstsCover(Self, name, kept);
    assert HasKey(Self, name, kept) <==> name in kept;
    InFilter(NotBlank, trimmed, name);
    InMap(Trimmed, names, name);
    if name in trimmed {
      var i :| 0 <= i < |names| && name == Trimmed(names[i]);
      assert names[i] in names;
    }
    forall w | w in names && Means(w, name) ensures name in trimmed {
      var i :| 0 <= i < |names| && names[i] == w;
      assert name == Trimmed(names[i]);
    }
  }

  lemma RequiredOf(pod: PodObject, f: ConfigRef -> seq<string>, w: string)
    ensures w in FlatMap(f, Refs(pod)) <==> exists r :: RefersTo(pod, r) && w in f(r)
  {
    var refs := Refs(pod);
    InFlatMap(f, refs, w);
    if w in FlatMap(f, refs) {
      var i :| 0 <= i < |refs| && w in f(refs[i]);
      InRefs(pod, refs[i]);
    }
    forall r | RefersTo(pod, r) && w in f(r) ensures w in FlatMap(f, refs) {
      InRefs(pod, r);
      var i :| 0 <= i < |refs| && refs[i] == r;
    }
  }

  lemma ConfigMapsRequired(pod: PodObject, name: string)
    ensures name in RequiredConfigMaps(pod) <==> NeedsConfigMap(pod, name)
  {
    var names := FlatMap(RequiredConfigMap, Refs(pod));
    InUniqueNames(names, name);
    forall w ensures w in names <==> exists r :: RefersTo(pod, r) && w in RequiredConfigMap(r) {
      RequiredOf(pod, RequiredConfigMap, w);
    }
    if NeedsConfigMap(pod, name) {
      var r :| RefersTo(pod, r) && r.ConfigMapRef? && !r.optional && Means(r.name, name);
      assert r.name in RequiredConfigMap(r);
    }
  }

  lemma SecretsRequired(pod: PodObject, name: string)
    ensures name in RequiredSecrets(pod) <==> NeedsSecret(pod, name)
  {
    var named := FlatMap(RequiredSecret, Refs(pod));
    InUniqueNames(named + pod.pullSecrets, name);
    forall w ensures w in named <==> exists r :: RefersTo(pod, r) && w in RequiredSecret(r) {
      RequiredOf(pod, RequiredSecret, w);
    }
    if exists r :: RefersTo(pod, r) && r.SecretRef? && !r.optional && Means(r.name, name) {
      var r :| RefersTo(pod, r) && r.SecretRef? && !r.optional && Means(r.name, name);
      assert r.name in RequiredSecret(r);
    }
  }

  lemma ClaimsMounted(pod: PodObject, name: string)
    ensures name in MountedClaims(pod.volumes) <==> Mounts(pod, name)
  {
    var vs := pod.volumes;
    var names := FlatMap(ClaimOfVolume, vs);
    FirstsCover(Self, name, names);
    var u := MountedClaims(vs);
    assert forall i :: 0 <= i < |u| ==> Self(u[i]) == u[i];
    assert HasKey(Self, name, names) <==> name in names;
    InFlatMap(ClaimOfVolume, vs, name);
    if name in names {
      var i :| 0 <= i < |vs| && name in ClaimOfVolume(vs[i]);
      assert vs[i] in vs;
    }
    if Mounts(pod, name) {
      var v :| v in vs && v.claim == Some(name);
      var i :| 0 <= i < |vs| && vs[i] == v;
      assert name in ClaimOfVolume(vs[i]);
    }
  }

  // ---- What is kept ----

  /** What the API's answers about a claim and its class come to. */
  ghost predicate Records(entry: ClaimRef, name: string, answer: Read<ClaimObject>, classes: StorageApi) {
    && entry.name == name
    && (entry.existence == Found <==> answer.Got?) && (entry.existence == Missing <==> answer.NotFound?)
    && entry.phase == (if answer.Got? then answer.value.phase else NoPhase)
    && (answer.Got? && answer.value.phase != Bound ==> (entry.bindingMode == "WaitForFirstConsumer" <==> WaitsOnPurpose(answer.value, classes)))
  }

  lemma EntryRecords(name: string, answer: Read<ClaimObject>, classes: StorageApi)
    ensures Records(ClaimEntry(name, answer, classes), name, answer, classes)
  {
    if answer.Got? {
      ClassIs(answer.value, classes);
    }
  }

  /** The snapshot of a Pod: the configuration a suspect Pod requires, the claims it mounts, the node of
      one that is not in service, each as the API answered. */
  lemma SnapshotIs(api: PodApi)
    ensures var s := CollectedPod(api);
            && s.pod == api.pod && s.now == api.now && s.events == Backends.EventsFrom(api.events)
            && (forall n :: n in s.configMaps <==> ConfigSuspect(api) && NeedsConfigMap(api.pod, n))
            && (forall n :: n in s.configMaps ==> (s.configMaps[n] == Missing <==> api.configMap(n).NotFound?))
            && (forall n :: n in s.secrets <==> ConfigSuspect(api) && NeedsSecret(api.pod, n))
            && (forall n :: n in s.secrets ==> (s.secrets[n] == Missing <==> api.secret(n).NotFound?))
  {
    ConfigSuspectIff(api);
    forall n ensures n in RequiredConfigMaps(api.pod) <==> NeedsConfigMap(api.pod, n) {
      ConfigMapsRequired(api.pod, n);
    }
    forall n ensures n in RequiredSecrets(api.pod) <==> NeedsSecret(api.pod, n) {
      SecretsRequired(api.pod, n);
    }
  }

  lemma SnapshotClaims(api: PodApi)
    ensures var s := CollectedPod(api);
            && (forall n :: n in s.claims <==> ClaimsSuspect(api) && Mounts(api.pod, n))
            && (forall n :: n in s.claims ==> Records(s.claims[n], n, api.claim(n), api.classes(n)))
  {
    ClaimsSuspectIff(api);
    forall n ensures n in MountedClaims(api.pod.volumes) <==> Mounts(api.pod, n) {
      ClaimsMounted(api.pod, n);
    }
    var claims := ClaimMap(api, ClaimNames(api));
    forall n | n in claims ensures Records(claims[n], n, api.claim(n), api.classes(n)) {
      EntryRecords(n, api.claim(n), api.classes(n));
    }
  }

  lemma SnapshotNode(api: PodApi)
    ensures CollectedPod(api).node
         == if api.pod.nodeName != "" && api.node.Got?
               && !(api.pod.phase == Running && exists c :: FirstCondition(api.pod, "Ready", c) && c.status == "True")
            then Some(api.node.value) else None
  {
    ReadyIff(api.pod);
  }
}
