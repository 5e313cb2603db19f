/** Collecting one Pod for every API behaviour (internal/collect/pod.go), and what a report built
    from it may claim about absent objects. */
module PodCollect {
  import opened Sequences
  import opened GroupBy
  import opened StableSort
  import opened Text
  import opened Names
  import opened Model
  import opened Events
  import opened Collecting
  import opened Pods
  import opened PodRules
  import opened PodTheorems
  import opened Storage
  import opened Assembly
  import Backends
  import Reports
  import Scheduling

  // ---- Names a Pod depends on ----

  function Trimmed(name: string): string {
    Trim(IsSpace, name)
  }

  function NotBlank(name: string): bool {
    name != ""
  }

  /** The distinct trimmed names, in insertion order. */
  function Uniques(names: seq<string>): seq<string> {
    Firsts(Self, Filter(NotBlank, Map(Trimmed, names)))
  }

  lemma UniquesStep(names: seq<string>, name: string)
    ensures Uniques(names + [name])
         == if Trimmed(name) == "" || Trimmed(name) in Uniques(names) then Uniques(names) else Uniques(names) + [Trimmed(name)]
  {
    MapSnoc(Trimmed, names, name);
    var kept := Filter(NotBlank, Map(Trimmed, names));
    var t := Trimmed(name);
    assert Front(Map(Trimmed, names + [name])) == Map(Trimmed, names);
    assert Front(kept + [t]) == kept;
    FirstsCover(Self, t, kept);
    InUniques(names, t);
  }

  lemma InUniques(names: seq<string>, t: string)
    ensures t in Uniques(names) <==> HasKey(Self, t, Uniques(names))
  {
    var u := Uniques(names);
    assert forall i :: 0 <= i < |u| ==> Self(u[i]) == u[i];
  }

  class NameSet {
    var seen: set<string>
    var order: seq<string>
    ghost var added: seq<string>

    ghost predicate Valid()
      reads this
    {
      order == Uniques(added) && forall n :: n in seen <==> n in order
    }

    constructor ()
      ensures Valid() && added == []
    {
      seen, order, added := {}, [], [];
      new;
      assert Map(Trimmed, added) == [];
    }

    method Add(name: string)
      requires Valid()
      modifies this
      ensures Valid() && added == old(added) + [name]
    {
      UniquesStep(added, name);
      added := added + [name];
      var t := Trimmed(name);
      if t == "" || t in seen {
        return;
      }
      seen := seen + {t};
      order := order + [t];
    }
  }

  function ContainerRefs(c: ContainerSpec): seq<ConfigRef> {
    c.refs
  }

  function VolumeRefs(v: Volume): seq<ConfigRef> {
    v.refs
  }

  function Same(refs: seq<ConfigRef>): seq<ConfigRef> {
    refs
  }

  /** The references of every init container, container and volume, in that order. */
  function RefLists(pod: PodObject): seq<seq<ConfigRef>> {
    Map(ContainerRefs, pod.initContainers + pod.containers) + Map(VolumeRefs, pod.volumes)
  }

  function Refs(pod: PodObject): seq<ConfigRef> {
    FlatMap(Same, RefLists(pod))
  }

  function RequiredConfigMap(r: ConfigRef): seq<string> {
    if r.ConfigMapRef? && !r.optional then [r.name] else []
  }

  function RequiredSecret(r: ConfigRef): seq<string> {
    if r.SecretRef? && !r.optional then [r.name] else []
  }

  function RequiredConfigMaps(pod: PodObject): seq<string> {
    Uniques(FlatMap(RequiredConfigMap, Refs(pod)))
  }

  function RequiredSecrets(pod: PodObject): seq<string> {
    Uniques(FlatMap(RequiredSecret, Refs(pod)) + pod.pullSecrets)
  }

  method AddRef(cms: NameSet, secs: NameSet, r: ConfigRef)
    requires cms != secs && cms.Valid() && secs.Valid()
    modifies cms, secs
    ensures cms.Valid() && secs.Valid()
    ensures cms.added == old(cms.added) + RequiredConfigMap(r) && secs.added == old(secs.added) + RequiredSecret(r)
  {
    if !r.optional {
      match r {
        case ConfigMapRef(name, _) => cms.Add(name);
        case SecretRef(name, _) => secs.Add(name);
      }
    }
  }

  lemma RefStep(f: ConfigRef -> seq<string>, base: seq<string>, refs: seq<ConfigRef>, i: nat)
    requires i < |refs|
    ensures base + FlatMap(f, refs[..i + 1]) == base + FlatMap(f, refs[..i]) + f(refs[i])
  {
    PrefixStep(refs, i);
  }

  method AddRefs(cms: NameSet, secs: NameSet, refs: seq<ConfigRef>)
    requires cms != secs && cms.Valid() && secs.Valid()
    modifies cms, secs
    ensures cms.Valid() && secs.Valid()
    ensures cms.added == old(cms.added) + FlatMap(RequiredConfigMap, refs)
    ensures secs.added == old(secs.added) + FlatMap(RequiredSecret, refs)
  {
    for i := 0 to |refs|
      invariant cms.Valid() && secs.Valid()
      invariant cms.added == old(cms.added) + FlatMap(RequiredConfigMap, refs[..i])
      invariant secs.added == old(secs.added) + FlatMap(RequiredSecret, refs[..i])
    {
      RefStep(RequiredConfigMap, old(cms.added), refs, i);
      RefStep(RequiredSecret, old(secs.added), refs, i);
      AddRef(cms, secs, refs[i]);
    }
    assert refs[..|refs|] == refs;
  }

  /** Collects from one list of references after another: the containers, then the volumes. */
  method AddAll(cms: NameSet, secs: NameSet, lists: seq<seq<ConfigRef>>)
    requires cms != secs && cms.Valid() && secs.Valid() && cms.added == [] == secs.added
    modifies cms, secs
    ensures cms.Valid() && secs.Valid()
    ensures cms.added == FlatMap(RequiredConfigMap, FlatMap(Same, lists))
    ensures secs.added == FlatMap(RequiredSecret, FlatMap(Same, lists))
  {
    for i := 0 to |lists|
      invariant cms.Valid() && secs.Valid()
      invariant cms.added == FlatMap(RequiredConfigMap, FlatMap(Same, lists[..i]))
      invariant secs.added == FlatMap(RequiredSecret, FlatMap(Same, lists[..i]))
    {
      PrefixStep(lists, i);
      FlatMapConcat(RequiredConfigMap, FlatMap(Same, lists[..i]), lists[i]);
      FlatMapConcat(RequiredSecret, FlatMap(Same, lists[..i]), lists[i]);
      AddRefs(cms, secs, lists[i]);
    }
    assert lists[..|lists|] == lists;
  }

  method AddPullSecrets(secs: NameSet, names: seq<string>)
    requires secs.Valid()
    modifies secs
    ensures secs.Valid() && secs.added == old(secs.added) + names
  {
    for i := 0 to |names|
      invariant secs.Valid() && secs.added == old(secs.added) + names[..i]
    {
      PrefixStep(names, i);
      assert old(secs.added) + names[..i] + [names[i]] == old(secs.added) + names[..i + 1];
      secs.Add(names[i]);
    }
    assert names[..|names|] == names;
  }

  method ReferencedConfig(pod: PodObject) returns (configMaps: seq<string>, secrets: seq<string>)
    ensures configMaps == RequiredConfigMaps(pod) && secrets == RequiredSecrets(pod)
  {
    var cms := new NameSet();
    var secs := new NameSet();
    AddAll(cms, secs, RefLists(pod));
    AddPullSecrets(secs, pod.pullSecrets);
    return cms.order, secs.order;
  }

  // ---- When related objects are read ----

  const CONFIG_WAITS := ["CreateContainerConfigError", "CreateContainerError", "InvalidImageName"]
  const CONFIG_EVENTS := ["FailedMount", "Failed", "FailedCreatePodContainer"]
  const CLAIM_EVENTS := ["FailedMount", "FailedAttachVolume", "FailedScheduling"]

  predicate SomeWarning(events: seq<Event>, reasons: seq<string>) {
    exists i :: 0 <= i < |events| && IsWarning(events[i]) && events[i].reason in reasons
  }

  predicate NeedsConfigRefs(pod: PodObject, events: seq<Event>) {
    || (exists i :: 0 <= i < |Containers(pod)| && Containers(pod)[i].Waits().Some? && Containers(pod)[i].Waits().value.reason in CONFIG_WAITS)
    || SomeWarning(events, CONFIG_EVENTS)
  }

  predicate NeedsClaims(pod: PodObject, events: seq<Event>) {
    pod.phase == Pending || SomeWarning(events, CLAIM_EVENTS)
  }

  // ---- The API ----

  /** Everything the API can answer while one Pod is analysed; `ownerDoubts` are the failures met
      while walking up its owners. */
  datatype PodApi = PodApi(
    pod: PodObject, events: Read<seq<Event>>, ownerDoubts: seq<Degradation>, node: Read<Node>,
    configMap: string -> Read<()>, secret: string -> Read<()>,
    claim: string -> Read<ClaimObject>, classes: string -> StorageApi, now: int)

  const EVENT_PURPOSE := "explaining scheduling, image pull and probe failures"
  const NODE_PURPOSE := "evaluating node conditions"
  const CONFIGMAP_PURPOSE := "checking referenced configuration"
  const SECRET_PURPOSE := "checking referenced secrets exist"
  const CLAIM_PURPOSE := "checking mounted volumes are bound"

  function EventsIn(api: PodApi): seq<Event> {
    Backends.EventsFrom(api.events)
  }

  predicate NeedsNode(pod: PodObject) {
    pod.nodeName != "" && !PodReady(pod)
  }

  function ConfigMapNames(api: PodApi): seq<string> {
    if NeedsConfigRefs(api.pod, EventsIn(api)) then RequiredConfigMaps(api.pod) else []
  }

  function SecretNames(api: PodApi): seq<string> {
    if NeedsConfigRefs(api.pod, EventsIn(api)) then RequiredSecrets(api.pod) else []
  }

  function ClaimOfVolume(v: Volume): seq<string> {
    if v.claim.Some? then [v.claim.value] else []
  }

  function MountedClaims(volumes: seq<Volume>): seq<string> {
    Firsts(Self, FlatMap(ClaimOfVolume, volumes))
  }

  function ClaimNames(api: PodApi): seq<string> {
    if NeedsClaims(api.pod, EventsIn(api)) then MountedClaims(api.pod.volumes) else []
  }

  function Existences(read: string -> Read<()>, names: seq<string>): map<string, Existence> {
    map n | n in names :: ExistenceIn(read(n))
  }

  function DoubtsAbout(resource: string, purpose: string, read: string -> Read<()>): string -> seq<Degradation> {
    (n: string) => Doubt(resource, purpose, read(n))
  }

  /** What is known about one claim, given what the API says of it and of its class. */
  function ClaimEntry(name: string, answer: Read<ClaimObject>, classes: StorageApi): ClaimRef {
    if !answer.Got? then ClaimRef(name, ExistenceIn(answer), NoPhase, "", "")
    else if answer.value.phase == Bound then ClaimRef(name, Found, Bound, "", "")
    else
      var info := ClassOf(answer.value, classes);
      ClaimRef(name, Found, answer.value.phase, info.name, info.bindingMode)
  }

  function ClaimDoubts(purpose: string, answer: Read<ClaimObject>, classes: StorageApi): seq<Degradation> {
    if answer.Got? && answer.value.phase != Bound then ClassDoubts(answer.value, classes)
    else Doubt("persistentvolumeclaims", purpose, answer)
  }

  method ReadClaim(coll: Collection, name: string, purpose: string, answer: Read<ClaimObject>, classes: StorageApi) returns (entry: ClaimRef)
    requires coll.Valid()
    modifies coll`degradations
    ensures coll.Valid() && coll.degradations == Recorded(old(coll.degradations), ClaimDoubts(purpose, answer, classes))
    ensures entry == ClaimEntry(name, answer, classes)
  {
    ghost var log := coll.degradations;
    RecordedNothing(log);
    var e := CheckExistence(coll, "persistentvolumeclaims", purpose, answer);
    entry := ClaimRef(name, e, NoPhase, "", "");
    if answer.Got? {
      entry := entry.(phase := answer.value.phase);
      if answer.value.phase != Bound {
        var info := StorageClassInfo(coll, answer.value, classes);
        entry := entry.(storageClass := info.name, bindingMode := info.bindingMode);
      }
    }
  }

  function ClaimMap(api: PodApi, names: seq<string>): map<string, ClaimRef> {
    map n | n in names :: ClaimEntry(n, api.claim(n), api.classes(n))
  }

  function ClaimDoubtsAbout(api: PodApi): string -> seq<Degradation> {
    (n: string) => ClaimDoubts(CLAIM_PURPOSE, api.claim(n), api.classes(n))
  }

  function NodeDoubts(api: PodApi): seq<Degradation> {
    if NeedsNode(api.pod) then Complaint("nodes", NODE_PURPOSE, api.node) else []
  }

  function ConfigDoubts(api: PodApi): seq<Degradation> {
    FlatMap(DoubtsAbout("configmaps", CONFIGMAP_PURPOSE, api.configMap), ConfigMapNames(api))
    + FlatMap(DoubtsAbout("secrets", SECRET_PURPOSE, api.secret), SecretNames(api))
  }

  function PodDoubts(api: PodApi): seq<Degradation> {
    Complaint("events", EVENT_PURPOSE, api.events) + api.ownerDoubts + NodeDoubts(api) + ConfigDoubts(api)
    + FlatMap(ClaimDoubtsAbout(api), ClaimNames(api))
  }

  function CollectedPod(api: PodApi): PodSnap {
    PodSnap(api.pod, EventsIn(api), if NeedsNode(api.pod) && api.node.Got? then Some(api.node.value) else None,
            Existences(api.configMap, ConfigMapNames(api)), Existences(api.secret, SecretNames(api)),
            ClaimMap(api, ClaimNames(api)), Recorded([], PodDoubts(api)), api.now)
  }

  // ---- The collector ----

  method CheckNames(coll: Collection, resource: string, purpose: string, read: string -> Read<()>, names: seq<string>)
    returns (found: map<string, Existence>)
    requires coll.Valid()
    modifies coll`degradations
    ensures coll.Valid() && coll.degradations == Recorded(old(coll.degradations), FlatMap(DoubtsAbout(resource, purpose, read), names))
    ensures found == Existences(read, names)
  {
    ghost var log, f := coll.degradations, DoubtsAbout(resource, purpose, read);
    RecordedNothing(log);
    found := map[];
    for i := 0 to |names|
      invariant coll.Valid() && coll.degradations == Recorded(log, FlatMap(f, names[..i]))
      invariant found == Existences(read, names[..i])
    {
      PrefixStep(names, i);
      RecordedTwice(log, FlatMap(f, names[..i]), f(names[i]));
      var e := CheckExistence(coll, resource, purpose, read(names[i]));
      found := found[names[i] := e];
    }
    assert names[..|names|] == names;
  }

  lemma MountedStep(volumes: seq<Volume>, i: nat)
    requires i < |volumes|
    ensures MountedClaims(volumes[..i + 1])
         == if volumes[i].claim.None? || volumes[i].claim.value in MountedClaims(volumes[..i]) then MountedClaims(volumes[..i])
            else MountedClaims(volumes[..i]) + [volumes[i].claim.value]
  {
    PrefixStep(volumes, i);
    var before := FlatMap(ClaimOfVolume, volumes[..i]);
    if volumes[i].claim.None? {
      assert before + [] == before;
    } else {
      var n := volumes[i].claim.value;
      assert Front(before + [n]) == before;
      FirstsCover(Self, n, before);
      var u := Firsts(Self, before);
      assert forall j :: 0 <= j < |u| ==> Self(u[j]) == u[j];
    }
  }

  lemma ClaimStep(api: PodApi, names: seq<string>, name: string)
    ensures FlatMap(ClaimDoubtsAbout(api), names + [name])
         == FlatMap(ClaimDoubtsAbout(api), names) + ClaimDoubts(CLAIM_PURPOSE, api.claim(name), api.classes(name))
    ensures ClaimMap(api, names + [name]) == ClaimMap(api, names)[name := ClaimEntry(name, api.claim(name), api.classes(name))]
  {
    assert Front(names + [name]) == names;
  }

  method CollectPodClaims(coll: Collection, api: PodApi) returns (claims: map<string, ClaimRef>)
    requires coll.Valid()
    modifies coll`degradations
    ensures coll.Valid() && coll.degradations == Recorded(old(coll.degradations), FlatMap(ClaimDoubtsAbout(api), MountedClaims(api.pod.volumes)))
    ensures claims == ClaimMap(api, MountedClaims(api.pod.volumes))
  {
    ghost var log, names, f := coll.degradations, [], ClaimDoubtsAbout(api);
    RecordedNothing(log);
    var volumes := api.pod.volumes;
    claims := map[];
    for i := 0 to |volumes|
      invariant names == MountedClaims(volumes[..i])
      invariant coll.Valid() && coll.degradations == Recorded(log, FlatMap(f, names))
      invariant claims == ClaimMap(api, names)
    {
      MountedStep(volumes, i);
      if volumes[i].claim.None? || volumes[i].claim.value in claims {
        continue;
      }
      var name := volumes[i].claim.value;
      ClaimStep(api, names, name);
      RecordedTwice(log, FlatMap(f, names), ClaimDoubts(CLAIM_PURPOSE, api.claim(name), api.classes(name)));
      var entry := ReadClaim(coll, name, CLAIM_PURPOSE, api.claim(name), api.classes(name));
      claims := claims[name := entry];
      names := names + [name];
    }
    assert volumes[..|volumes|] == volumes;
  }

  method CollectConfigRefs(coll: Collection, api: PodApi) returns (configMaps: map<string, Existence>, secrets: map<string, Existence>)
    requires coll.Valid()
    modifies coll`degradations
    ensures coll.Valid() && coll.degradations == Recorded(old(coll.degradations), ConfigDoubts(api))
    ensures configMaps == Existences(api.configMap, ConfigMapNames(api)) && secrets == Existences(api.secret, SecretNames(api))
  {
    ghost var log := coll.degradations;
    RecordedNothing(log);
    configMaps, secrets := map[], map[];
    if !NeedsConfigRefs(api.pod, EventsIn(api)) {
      return;
    }
    var cms, secs := ReferencedConfig(api.pod);
    configMaps := CheckNames(coll, "configmaps", CONFIGMAP_PURPOSE, api.configMap, cms);
    secrets := CheckNames(coll, "secrets", SECRET_PURPOSE, api.secret, secs);
    RecordedTwice(log, FlatMap(DoubtsAbout("configmaps", CONFIGMAP_PURPOSE, api.configMap), cms),
                  FlatMap(DoubtsAbout("secrets", SECRET_PURPOSE, api.secret), secs));
  }

  method RecordAll(coll: Collection, ds: seq<Degradation>)
    requires coll.Valid()
    modifies coll`degradations
    ensures coll.Valid() && coll.degradations == Recorded(old(coll.degradations), ds)
  {
    ghost var log := coll.degradations;
    RecordedNothing(log);
    for i := 0 to |ds|
      invariant coll.Valid() && coll.degradations == Recorded(log, ds[..i])
    {
      PrefixStep(ds, i);
      RecordedTwice(log, ds[..i], [ds[i]]);
      coll.Degrade(ds[i]);
    }
    assert ds[..|ds|] == ds;
  }

  /** The reads that always happen, and the node when it can matter. */
  method CollectBasics(coll: Collection, api: PodApi) returns (events: seq<Event>, node: Option<Node>)
    requires coll.Valid() && coll.degradations == []
    modifies coll`degradations
    ensures coll.Valid()
    ensures coll.degradations == Recorded([], Complaint("events", EVENT_PURPOSE, api.events) + api.ownerDoubts + NodeDoubts(api))
    ensures events == EventsIn(api) && node == CollectedPod(api).node
  {
    events, node := [], None;
    var c1 := Complaint("events", EVENT_PURPOSE, api.events);
    DegradeRead(coll, "events", EVENT_PURPOSE, api.events);
    if api.events.Got? {
      events := Dedup(api.events.value);
    }
    RecordAll(coll, api.ownerDoubts);
    RecordedTwice([], c1, api.ownerDoubts);
    RecordedNothing(coll.degradations);
    if NeedsNode(api.pod) {
      DegradeRead(coll, "nodes", NODE_PURPOSE, api.node);
      if api.node.Got? {
        node := Some(api.node.value);
      }
    }
    RecordedTwice([], c1 + api.ownerDoubts, NodeDoubts(api));
  }

  method CollectPod(api: PodApi) returns (snap: PodSnap)
    ensures snap == CollectedPod(api)
  {
    var coll := new Collection();
    var events, node := CollectBasics(coll, api);
    ghost var sofar := Complaint("events", EVENT_PURPOSE, api.events) + api.ownerDoubts + NodeDoubts(api);
    var configMaps, secrets := CollectConfigRefs(coll, api);
    RecordedTwice([], sofar, ConfigDoubts(api));
    var claims := map[];
    RecordedNothing(coll.degradations);
    if NeedsClaims(api.pod, events) {
      claims := CollectPodClaims(coll, api);
    }
    RecordedTwice([], sofar + ConfigDoubts(api), FlatMap(ClaimDoubtsAbout(api), ClaimNames(api)));
    snap := PodSnap(api.pod, events, node, configMaps, secrets, claims, coll.degradations, api.now);
  }

  // ---- Unknown is never Missing ----

  lemma PendingClaimIsFound(name: string, answer: Read<ClaimObject>, classes: StorageApi)
    ensures ClaimEntry(name, answer, classes).phase == ClaimPending ==> ClaimEntry(name, answer, classes).existence == Found
  {
  }

  lemma CollectedIsShaped(api: PodApi)
    ensures CollectorShaped(CollectedPod(api))
  {
    var claims := ClaimMap(api, ClaimNames(api));
    forall n | n in claims ensures claims[n].phase == ClaimPending ==> claims[n].existence == Found {
      PendingClaimIsFound(n, api.claim(n), api.classes(n));
    }
  }

  /** What a Pod report says. */
  function PodReport(env: Env, api: PodApi, ord: MapOrder): seq<Diagnosis> {
    Explained(env, CollectedPod(api), ord)
  }

  /** Some finding of the report says that the API confirmed this object absent. */
  ghost predicate NamesAbsent(ds: seq<Diagnosis>, id: FindingID, kind: string, name: string) {
    exists d :: d in ds && d.id == id && d.evidence == [Evidence("api", kind + "/" + name, "NotFound", "")]
  }

  ghost predicate Avoids(ds: seq<Diagnosis>, ids: set<FindingID>) {
    forall d :: d in ds ==> d.id !in ids
  }

  lemma AvoidsFlatMap<T>(f: T -> seq<Diagnosis>, s: seq<T>, ids: set<FindingID>)
    requires forall x :: x in s ==> Avoids(f(x), ids)
    ensures Avoids(FlatMap(f, s), ids)
  {
    forall d | d in FlatMap(f, s) ensures d.id !in ids {
      InFlatMap(f, s, d);
      var i :| 0 <= i < |s| && d in f(s[i]);
      assert s[i] in s;
    }
  }

  /** The findings about objects a Pod refers to. */
  const REFERENCES: set<FindingID> := {PodMissingConfigMap, PodMissingSecret, PodPVCNotFound, PodPVCNotBound}

  lemma ContainerAvoids(env: Env, snap: PodSnap, c: Container)
    ensures Avoids(OOMOf(env, snap)(c), REFERENCES) && Avoids(CrashOf(env, snap)(c), REFERENCES) && Avoids(RestartOf(env, snap)(c), REFERENCES)
  {
    assert OOMDiagnosis(env, snap, c).id == PodOOMKilled && RestartDiagnosis(env, snap, c).id == PodRestarted;
    assert CrashDiagnosis(env, snap, c).id in {PodCrashLoop, PodInitContainerFailed};
  }

  lemma ContainerRulesAvoid(env: Env, snap: PodSnap)
    ensures Avoids(OOMRule(env, snap), REFERENCES) && Avoids(CrashRule(env, snap), REFERENCES) && Avoids(RestartRule(env, snap), REFERENCES)
  {
    forall c ensures Avoids(OOMOf(env, snap)(c), REFERENCES) && Avoids(CrashOf(env, snap)(c), REFERENCES) && Avoids(RestartOf(env, snap)(c), REFERENCES) {
      ContainerAvoids(env, snap, c);
    }
    AvoidsFlatMap(OOMOf(env, snap), Containers(snap.pod), REFERENCES);
    AvoidsFlatMap(CrashOf(env, snap), Containers(snap.pod), REFERENCES);
    AvoidsFlatMap(RestartOf(env, snap), Containers(snap.pod), REFERENCES);
  }

  lemma EndedRulesAvoid(env: Env, snap: PodSnap)
    ensures Avoids(EndedRule(env, snap), REFERENCES) && Avoids(ImagePullRule(env, snap), REFERENCES)
  {
    AvoidsFlatMap(EndedOf(env, snap), Containers(snap.pod), REFERENCES);
    AvoidsFlatMap(ImagePullOf(env, snap), Containers(snap.pod), REFERENCES);
  }

  lemma ProbeAvoids(env: Env, snap: PodSnap, h: ProbeHit)
    ensures ProbeDiagnosis(env, snap, h).id !in REFERENCES
  {
  }

  lemma ProbeRuleAvoids(env: Env, snap: PodSnap)
    ensures Avoids(ProbeRule(env, snap), REFERENCES)
  {
    forall h ensures ProbeDiagnosis(env, snap, h).id !in REFERENCES {
      ProbeAvoids(env, snap, h);
    }
    forall d | d in ProbeRule(env, snap) ensures d.id !in REFERENCES {
      var hits := Firsts(ProbeKeyOf, FlatMap(ProbeHits, Ordered(Filter(HasReason(["Unhealthy"]), snap.events))));
      var i :| 0 <= i < |ProbeRule(env, snap)| && ProbeRule(env, snap)[i] == d;
      assert d == ProbeDiagnosis(env, snap, hits[i]);
    }
  }

  lemma UnschedulableAvoids(env: Env, snap: PodSnap, ord: MapOrder, report: Scheduling.SchedulerReport)
    ensures Unschedulable(env, snap, ord, report).id !in REFERENCES
  {
  }

  lemma SchedulingAvoids(env: Env, snap: PodSnap, ord: MapOrder)
    ensures Avoids(SchedulingRule(env, snap, ord), REFERENCES)
  {
    UnschedulableAvoids(env, snap, ord, Scheduling.Parsed(SchedulerMessage(snap)));
  }

  lemma OthersAvoid(env: Env, snap: PodSnap, ord: MapOrder)
    ensures Avoids(MountRule(env, snap, ord), REFERENCES)
    ensures Avoids(NodeRule(env, snap), REFERENCES) && Avoids(Fallback(env, snap), REFERENCES)
  {
  }

  lemma ConfigErrorsAvoid(env: Env, snap: PodSnap, cms: seq<string>, secs: seq<string>)
    ensures Avoids(ConfigErrors(env, snap, cms, secs), REFERENCES)
  {
    var f := ConfigErrorOf(env, snap, cms, secs);
    forall c | c in Containers(snap.pod) ensures Avoids(f(c), REFERENCES) {
      assert f(c) == ConfigError(env, snap, cms, secs, c);
    }
    AvoidsFlatMap(f, Containers(snap.pod), REFERENCES);
  }

  /** Findings about referenced objects come only from the configuration and claim rules. */
  lemma ReferencesComeFrom(env: Env, snap: PodSnap, ord: MapOrder, d: Diagnosis)
    requires d.id in REFERENCES
    ensures d in Explained(env, snap, ord) <==> d in ConfigRule(env, snap, ord) || d in ClaimRule(env, snap, ord)
  {
    InPodFindings(env, snap, ord, d);
    ContainerRulesAvoid(env, snap);
    EndedRulesAvoid(env, snap);
    ProbeRuleAvoids(env, snap);
    SchedulingAvoids(env, snap, ord);
    OthersAvoid(env, snap, ord);
  }

  lemma AbsenceEvidenceNames(kind: string, a: string, b: string)
    requires AbsenceEvidence(kind, a) == AbsenceEvidence(kind, b)
    ensures a == b
  {
    assert (kind + "/" + a)[|kind| + 1..] == a;
    assert (kind + "/" + b)[|kind| + 1..] == b;
  }

  lemma InAbsentObjects(env: Env, snap: PodSnap, id: FindingID, kind: string, names: seq<string>, d: Diagnosis)
    ensures d in AbsentObjects(env, snap, id, kind, names) <==> exists n :: n in names && d == MissingObject(env, snap, id, kind, n)
  {
    var out := AbsentObjects(env, snap, id, kind, names);
    assert forall i :: 0 <= i < |names| ==> out[i] == MissingObject(env, snap, id, kind, names[i]);
    if exists n :: n in names && d == MissingObject(env, snap, id, kind, n) {
      var n :| n in names && d == MissingObject(env, snap, id, kind, n);
      var i :| 0 <= i < |names| && names[i] == n;
      assert out[i] == d;
    }
  }

  lemma InConfigRule(env: Env, snap: PodSnap, ord: MapOrder, d: Diagnosis)
    requires OrderOf(ord, snap)
    ensures d.id == PodMissingConfigMap ==>
              (d in ConfigRule(env, snap, ord)
               <==> exists n :: n in snap.configMaps && snap.configMaps[n] == Missing && d == MissingObject(env, snap, PodMissingConfigMap, "configmap", n))
    ensures d.id == PodMissingSecret ==>
              (d in ConfigRule(env, snap, ord)
               <==> exists n :: n in snap.secrets && snap.secrets[n] == Missing && d == MissingObject(env, snap, PodMissingSecret, "secret", n))
    ensures d.id == PodPVCNotFound ==> d !in ConfigRule(env, snap, ord)
  {
    var cms, secs := MissingNames(snap.configMaps, ord.configMaps), MissingNames(snap.secrets, ord.secrets);
    InAbsentObjects(env, snap, PodMissingConfigMap, "configmap", cms, d);
    InAbsentObjects(env, snap, PodMissingSecret, "secret", secs, d);
    ConfigErrorsAvoid(env, snap, cms, secs);
    forall n ensures n in cms <==> n in snap.configMaps && snap.configMaps[n] == Missing {
      InMissingNames(snap.configMaps, ord.configMaps, n);
    }
    forall n ensures n in secs <==> n in snap.secrets && snap.secrets[n] == Missing {
      InMissingNames(snap.secrets, ord.secrets, n);
    }
  }

  function AbsentClaim(env: Env, snap: PodSnap, name: string): Diagnosis {
    Finding(PodPVCNotFound, ResourceRef("PersistentVolumeClaim", snap.pod.ns, name), "", Critical, Certain, env.say(PodPVCNotFound, 0, [Text(name)]))
    .(evidence := [AbsenceEvidence("persistentvolumeclaim", name)])
  }

  lemma ClaimFindingsAre(env: Env, snap: PodSnap, name: string, d: Diagnosis)
    ensures d in ClaimFindings(env, snap, name) ==> d.id == PodPVCNotFound || d.id == PodPVCNotBound
    ensures d.id == PodPVCNotFound ==>
              (d in ClaimFindings(env, snap, name) <==> name in snap.claims && snap.claims[name].existence == Missing && d == AbsentClaim(env, snap, name))
  {
  }

  lemma InClaimRuleIff(env: Env, snap: PodSnap, ord: MapOrder, d: Diagnosis)
    requires OrderOf(ord, snap)
    ensures d in ClaimRule(env, snap, ord) <==> !snap.IsTerminal() && exists n :: n in snap.claims && d in ClaimFindings(env, snap, n)
  {
    var names := Sort(ByName(), ord.claims);
    var f := ClaimOf(env, snap);
    InFlatMap(f, names, d);
    forall n ensures n in names <==> n in snap.claims {
      SortMembers(ByName(), ord.claims, n);
      assert n in ord.claims <==> n in snap.claims.Keys;
    }
    assert forall i :: 0 <= i < |names| ==> f(names[i]) == ClaimFindings(env, snap, names[i]) && names[i] in names;
    if exists n :: n in snap.claims && d in ClaimFindings(env, snap, n) {
      var n :| n in snap.claims && d in ClaimFindings(env, snap, n);
      var i :| 0 <= i < |names| && names[i] == n;
      assert d in f(names[i]);
    }
  }

  lemma InClaimRule(env: Env, snap: PodSnap, ord: MapOrder, d: Diagnosis)
    requires OrderOf(ord, snap)
    ensures d.id in {PodMissingConfigMap, PodMissingSecret} ==> d !in ClaimRule(env, snap, ord)
    ensures d.id == PodPVCNotFound ==>
              (d in ClaimRule(env, snap, ord)
               <==> !snap.IsTerminal() && exists n :: n in snap.claims && snap.claims[n].existence == Missing && d == AbsentClaim(env, snap, n))
  {
    InClaimRuleIff(env, snap, ord, d);
    forall n ensures d in ClaimFindings(env, snap, n) ==> d.id == PodPVCNotFound || d.id == PodPVCNotBound {
      ClaimFindingsAre(env, snap, n, d);
    }
    if d.id == PodPVCNotFound {
      forall n ensures d in ClaimFindings(env, snap, n) <==> n in snap.claims && snap.claims[n].existence == Missing && d == AbsentClaim(env, snap, n) {
        ClaimFindingsAre(env, snap, n, d);
      }
    }
  }

  lemma SnapNamesConfigMap(env: Env, snap: PodSnap, ord: MapOrder, name: string)
    requires OrderOf(ord, snap)
    ensures NamesAbsent(Explained(env, snap, ord), PodMissingConfigMap, "configmap", name)
       <==> name in snap.configMaps && snap.configMaps[name] == Missing
  {
    var out, kind := Explained(env, snap, ord), "configmap";
    forall d: Diagnosis | d.id == PodMissingConfigMap
      ensures d in out <==> exists n :: n in snap.configMaps && snap.configMaps[n] == Missing && d == MissingObject(env, snap, PodMissingConfigMap, "configmap", n)
    {
      ReferencesComeFrom(env, snap, ord, d);
      InConfigRule(env, snap, ord, d);
      InClaimRule(env, snap, ord, d);
    }
    if NamesAbsent(out, PodMissingConfigMap, kind, name) {
      var d :| d in out && d.id == PodMissingConfigMap && d.evidence == [AbsenceEvidence(kind, name)];
      var n :| n in snap.configMaps && snap.configMaps[n] == Missing && d == MissingObject(env, snap, PodMissingConfigMap, "configmap", n);
      AbsenceEvidenceNames(kind, n, name);
    }
    if name in snap.configMaps && snap.configMaps[name] == Missing {
      assert MissingObject(env, snap, PodMissingConfigMap, "configmap", name) in out;
    }
  }

  lemma SnapNamesSecret(env: Env, snap: PodSnap, ord: MapOrder, name: string)
    requires OrderOf(ord, snap)
    ensures NamesAbsent(Explained(env, snap, ord), PodMissingSecret, "secret", name)
       <==> name in snap.secrets && snap.secrets[name] == Missing
  {
    var out, kind := Explained(env, snap, ord), "secret";
    forall d: Diagnosis | d.id == PodMissingSecret
      ensures d in out <==> exists n :: n in snap.secrets && snap.secrets[n] == Missing && d == MissingObject(env, snap, PodMissingSecret, "secret", n)
    {
      ReferencesComeFrom(env, snap, ord, d);
      InConfigRule(env, snap, ord, d);
      InClaimRule(env, snap, ord, d);
    }
    if NamesAbsent(out, PodMissingSecret, kind, name) {
      var d :| d in out && d.id == PodMissingSecret && d.evidence == [AbsenceEvidence(kind, name)];
      var n :| n in snap.secrets && snap.secrets[n] == Missing && d == MissingObject(env, snap, PodMissingSecret, "secret", n);
      AbsenceEvidenceNames(kind, n, name);
    }
    if name in snap.secrets && snap.secrets[name] == Missing {
      assert MissingObject(env, snap, PodMissingSecret, "secret", name) in out;
    }
  }

  lemma SnapNamesClaim(env: Env, snap: PodSnap, ord: MapOrder, name: string)
    requires OrderOf(ord, snap)
    ensures NamesAbsent(Explained(env, snap, ord), PodPVCNotFound, "persistentvolumeclaim", name)
       <==> !snap.IsTerminal() && name in snap.claims && snap.claims[name].existence == Missing
  {
    var out, kind := Explained(env, snap, ord), "persistentvolumeclaim";
    forall d: Diagnosis | d.id == PodPVCNotFound
      ensures d in out <==> !snap.IsTerminal() && exists n :: n in snap.claims && snap.claims[n].existence == Missing && d == AbsentClaim(env, snap, n)
    {
      ReferencesComeFrom(env, snap, ord, d);
      InConfigRule(env, snap, ord, d);
      InClaimRule(env, snap, ord, d);
    }
    if NamesAbsent(out, PodPVCNotFound, kind, name) {
      var d :| d in out && d.id == PodPVCNotFound && d.evidence == [AbsenceEvidence(kind, name)];
      var n :| n in snap.claims && snap.claims[n].existence == Missing && d == AbsentClaim(env, snap, n);
      AbsenceEvidenceNames(kind, n, name);
    }
    if !snap.IsTerminal() && name in snap.claims && snap.claims[name].existence == Missing {
      assert AbsentClaim(env, snap, name) in out;
    }
  }

  /** Unknown is never Missing. For every API behaviour and every map order, a ConfigMap is named
      absent exactly when it was worth looking up and the API answered NotFound for it. */
  lemma ConfigMapNamedAbsentIff(env: Env, api: PodApi, ord: MapOrder, name: string)
    requires OrderOf(ord, CollectedPod(api))
    ensures NamesAbsent(PodReport(env, api, ord), PodMissingConfigMap, "configmap", name)
       <==> name in ConfigMapNames(api) && api.configMap(name).NotFound?
  {
    SnapNamesConfigMap(env, CollectedPod(api), ord, name);
  }

  lemma SecretNamedAbsentIff(env: Env, api: PodApi, ord: MapOrder, name: string)
    requires OrderOf(ord, CollectedPod(api))
    ensures NamesAbsent(PodReport(env, api, ord), PodMissingSecret, "secret", name)
       <==> name in SecretNames(api) && api.secret(name).NotFound?
  {
    SnapNamesSecret(env, CollectedPod(api), ord, name);
  }

  lemma CollectedClaimMissing(api: PodApi, name: string)
    ensures name in CollectedPod(api).claims && CollectedPod(api).claims[name].existence == Missing
       <==> name in ClaimNames(api) && api.claim(name).NotFound?
  {
    assert CollectedPod(api).claims == ClaimMap(api, ClaimNames(api));
  }

  lemma ClaimNamedAbsentIff(env: Env, api: PodApi, ord: MapOrder, name: string)
    requires OrderOf(ord, CollectedPod(api))
    ensures NamesAbsent(PodReport(env, api, ord), PodPVCNotFound, "persistentvolumeclaim", name)
       <==> name in ClaimNames(api) && api.claim(name).NotFound? && !CollectedPod(api).IsTerminal()
  {
    var snap := CollectedPod(api);
    SnapNamesClaim(env, snap, ord, name);
    CollectedClaimMissing(api, name);
  }

  /** No related read failed, apart from the NotFound answers that are facts in themselves. */
  ghost predicate EverythingRead(api: PodApi) {
    && api.events.Got? && api.ownerDoubts == [] && (NeedsNode(api.pod) ==> api.node.Got?)
    && (forall n :: n in ConfigMapNames(api) ==> ExistenceIn(api.configMap(n)) != Existence.Unknown)
    && (forall n :: n in SecretNames(api) ==> ExistenceIn(api.secret(n)) != Existence.Unknown)
    && (forall n :: n in ClaimNames(api) ==> ExistenceIn(api.claim(n)) != Existence.Unknown)
    && (forall n :: n in ClaimNames(api) && api.claim(n).Got? && api.claim(n).value.phase != Bound ==>
          ClassDoubts(api.claim(n).value, api.classes(n)) == [])
  }

  /** A degradation is recorded exactly when some related read failed. */
  lemma DegradedIff(api: PodApi)
    ensures CollectedPod(api).degradations == [] <==> EverythingRead(api)
  {
    RecordedFacts([], PodDoubts(api));
    SilentChecks("configmaps", CONFIGMAP_PURPOSE, api.configMap, ConfigMapNames(api));
    SilentChecks("secrets", SECRET_PURPOSE, api.secret, SecretNames(api));
    SilentClaims(api, ClaimNames(api));
  }

  lemma SilentChecks(resource: string, purpose: string, read: string -> Read<()>, names: seq<string>)
    ensures FlatMap(DoubtsAbout(resource, purpose, read), names) == [] <==> forall n :: n in names ==> ExistenceIn(read(n)) != Existence.Unknown
  {
    var f := DoubtsAbout(resource, purpose, read);
    FlatMapEmpty(f, names);
    assert forall n :: f(n) == Doubt(resource, purpose, read(n));
  }

  lemma SilentClaims(api: PodApi, names: seq<string>)
    ensures FlatMap(ClaimDoubtsAbout(api), names) == [] <==>
              && (forall n :: n in names ==> ExistenceIn(api.claim(n)) != Existence.Unknown)
              && (forall n :: n in names && api.claim(n).Got? && api.claim(n).value.phase != Bound ==> ClassDoubts(api.claim(n).value, api.classes(n)) == [])
  {
    var f := ClaimDoubtsAbout(api);
    FlatMapEmpty(f, names);
    forall n ensures f(n) == [] <==>
                && ExistenceIn(api.claim(n)) != Existence.Unknown
                && (api.claim(n).Got? && api.claim(n).value.phase != Bound ==> ClassDoubts(api.claim(n).value, api.classes(n)) == [])
    {
      assert f(n) == ClaimDoubts(CLAIM_PURPOSE, api.claim(n), api.classes(n));
    }
  }

  /** So a report on a Pod with any failed read is never healthy. */
  lemma HealthyPodWasFullyRead(env: Env, api: PodApi, ord: MapOrder)
    ensures Reports.Verdict(PodReport(env, api, ord), CollectedPod(api).degradations) == Reports.Healthy ==> EverythingRead(api)
  {
    DegradedIff(api);
  }

  lemma HealthySnapIff(env: Env, snap: PodSnap, ord: MapOrder)
    ensures Reports.Verdict(Explained(env, snap, ord), snap.degradations) == Reports.Healthy
       <==> && snap.degradations == []
            && (forall d :: d in PodFindings(env, snap, ord) ==> d.severity != Critical && d.severity != Warning)
            && (PodFindings(env, snap, ord) != [] || snap.IsTerminal() || PodReady(snap.pod))
  {
    var out := Explained(env, snap, ord);
    if PodFindings(env, snap, ord) == [] {
      FallbackWarns(env, snap);
      if !snap.IsTerminal() && !PodReady(snap.pod) {
        assert out[0] in out;
      }
    }
  }

  lemma FallbackWarns(env: Env, snap: PodSnap)
    ensures Fallback(env, snap) == [] <==> snap.IsTerminal() || PodReady(snap.pod)
    ensures forall d :: d in Fallback(env, snap) ==> d.severity == Warning
  {
  }

  /** The Pod behind a healthy report is finished, ready, or explained by info-level findings only:
      the fallback is suppressed by any finding at all. */
  lemma HealthyPodIff(env: Env, api: PodApi, ord: MapOrder)
    ensures Reports.Verdict(PodReport(env, api, ord), CollectedPod(api).degradations) == Reports.Healthy
       <==> && EverythingRead(api)
            && (forall d :: d in PodFindings(env, CollectedPod(api), ord) ==> d.severity != Critical && d.severity != Warning)
            && (PodFindings(env, CollectedPod(api), ord) != [] || CollectedPod(api).IsTerminal() || PodReady(api.pod))
  {
    DegradedIff(api);
    HealthySnapIff(env, CollectedPod(api), ord);
  }

  lemma PodReportNoDanglingCause(env: Env, api: PodApi, ord: MapOrder)
    requires OrderOf(ord, CollectedPod(api))
    ensures NoDanglingCause(PodReport(env, api, ord))
  {
    CollectedIsShaped(api);
    ExplainedClosed(env, CollectedPod(api), ord);
  }
}
