/** StatefulSets: collection, rules and report (internal/collect/statefulset.go,
    internal/diagnosis/rules/statefulset, internal/analyze/statefulset.go). */
module StatefulSets {
  import opened Sequences
  import opened StableSort
  import opened Text
  import opened Names
  import opened Model
  import opened Events
  import opened Collecting
  import opened Pods
  import opened PodRules
  import opened PodTheorems
  import opened Storage
  import opened Ordinals
  import opened Assembly
  import opened PodVerdict
  import PodHealth
  import PodCollect
  import Backends
  import Reports
  import Engine
  import Aggregation

  datatype SetObject = SetObject(
    name: string, ns: string, uid: string, replicas: Option<int32>, parallel: bool, onDelete: bool, partition: Option<int32>,
    currentRevision: string, updateRevision: string, readyReplicas: int, serviceName: string, templates: seq<string>)
  {
    function Desired(): int {
      if replicas.Some? then replicas.value else 1
    }

    function Partition(): int {
      if partition.Some? then partition.value else 0
    }

    predicate RolloutPending() {
      updateRevision != "" && currentRevision != updateRevision
    }
  }

  datatype Governing = Governing(name: string, existence: Existence, headless: bool)

  datatype SetSnap = SetSnap(
    sts: SetObject, pods: seq<PodSnap>, service: Governing, claims: map<string, ClaimRef>, degradations: seq<Degradation>)
  {
    function Ref(): ResourceRef {
      ResourceRef("StatefulSet", sts.ns, sts.name)
    }
  }

  function PodOf(p: PodSnap): PodObject {
    p.pod
  }

  function PodsIn(snap: SetSnap): seq<PodObject> {
    Map(PodOf, snap.pods)
  }

  // ---- Claims of the replicas ----

  function ReplicaClaim(sts: SetObject, ordinal: nat): string -> string {
    (template: string) => ClaimName(template, sts.name, ordinal)
  }

  /** The claims the first `n` replicas need, replica by replica. */
  function ClaimsNeeded(sts: SetObject, n: nat): seq<string> {
    if n == 0 then [] else ClaimsNeeded(sts, n - 1) + Map(ReplicaClaim(sts, n - 1), sts.templates)
  }

  function Replicas(sts: SetObject): nat {
    if sts.Desired() < 0 then 0 else sts.Desired()
  }

  lemma {:induction false} InClaimsNeeded(sts: SetObject, n: nat, name: string)
    ensures name in ClaimsNeeded(sts, n) <==> exists k: nat, t :: k < n && t in sts.templates && name == ClaimName(t, sts.name, k)
  {
    if n > 0 {
      InClaimsNeeded(sts, n - 1, name);
      var f := ReplicaClaim(sts, n - 1);
      InMap(f, sts.templates, name);
      if name in Map(f, sts.templates) {
        var i :| 0 <= i < |sts.templates| && name == f(sts.templates[i]);
        assert sts.templates[i] in sts.templates;
      }
      if exists k: nat, t :: k < n && t in sts.templates && name == ClaimName(t, sts.name, k) {
        var k: nat, t :| k < n && t in sts.templates && name == ClaimName(t, sts.name, k);
        if k == n - 1 {
          var i :| 0 <= i < |sts.templates| && sts.templates[i] == t;
          assert name == f(sts.templates[i]);
        }
      }
    }
  }

  ghost function ClaimImage(templates: set<string>, sts: string, n: nat): set<string> {
    set t | t in templates :: ClaimName(t, sts, n)
  }

  lemma {:induction false} ClaimImageSize(templates: set<string>, sts: string, n: nat)
    ensures |ClaimImage(templates, sts, n)| == |templates|
  {
    if templates != {} {
      var t :| t in templates;
      var rest := templates - {t};
      ClaimImageSize(rest, sts, n);
      assert ClaimImage(templates, sts, n) == ClaimImage(rest, sts, n) + {ClaimName(t, sts, n)};
      if ClaimName(t, sts, n) in ClaimImage(rest, sts, n) {
        var u :| u in rest && ClaimName(u, sts, n) == ClaimName(t, sts, n);
        ClaimNameInjective(u, t, sts, n, n);
      }
    }
  }

  ghost function Elements(s: seq<string>): set<string> {
    set x | x in s
  }

  lemma NewClaims(sts: SetObject, n: nat)
    ensures Elements(ClaimsNeeded(sts, n)) !! ClaimImage(Elements(sts.templates), sts.name, n)
    ensures Elements(ClaimsNeeded(sts, n + 1)) == Elements(ClaimsNeeded(sts, n)) + ClaimImage(Elements(sts.templates), sts.name, n)
  {
    forall name ensures !(name in ClaimsNeeded(sts, n) && name in ClaimImage(Elements(sts.templates), sts.name, n)) {
      if name in ClaimsNeeded(sts, n) && name in ClaimImage(Elements(sts.templates), sts.name, n) {
        InClaimsNeeded(sts, n, name);
        var k: nat, t :| k < n && t in sts.templates && name == ClaimName(t, sts.name, k);
        var u :| u in sts.templates && name == ClaimName(u, sts.name, n);
        ClaimNameInjective(t, u, sts.name, k, n);
      }
    }
    var f := ReplicaClaim(sts, n);
    forall name ensures name in Map(f, sts.templates) <==> name in ClaimImage(Elements(sts.templates), sts.name, n) {
      InMap(f, sts.templates, name);
      if name in ClaimImage(Elements(sts.templates), sts.name, n) {
        var u :| u in sts.templates && name == ClaimName(u, sts.name, n);
        var i :| 0 <= i < |sts.templates| && sts.templates[i] == u;
        assert name == f(sts.templates[i]);
      }
    }
  }

  lemma OneMore(n: nat, k: nat)
    ensures (n + 1) * k == n * k + k
  {
  }

  /** One claim per replica and template: no two of them share a name. */
  lemma {:induction false} ClaimCount(sts: SetObject, n: nat)
    ensures |Elements(ClaimsNeeded(sts, n))| == n * |Elements(sts.templates)|
  {
    if n == 0 {
      assert Elements(ClaimsNeeded(sts, n)) == {};
    } else {
      ClaimCount(sts, n - 1);
      NewClaims(sts, n - 1);
      var before, added := Elements(ClaimsNeeded(sts, n - 1)), ClaimImage(Elements(sts.templates), sts.name, n - 1);
      ClaimImageSize(Elements(sts.templates), sts.name, n - 1);
      assert |before + added| == |before| + |added|;
      OneMore(n - 1, |added|);
    }
  }

  // ---- Collection ----

  /** Everything the API can answer while one StatefulSet is analysed. A selector that does not parse
      is an error found before any request. */
  datatype SetApi = SetApi(
    sts: SetObject, events: Read<seq<Event>>, selectorError: Option<string>, pods: Read<seq<PodObject>>, podEvents: Backends.Fetch,
    service: Read<bool>, claim: string -> Read<ClaimObject>, classes: string -> StorageApi, now: int)

  const EVENT_PURPOSE := "explaining failed Pod and volume creation"
  const SELECTOR_PURPOSE := "finding the Pods this StatefulSet owns"
  const POD_PURPOSE := "diagnosing the Pods this StatefulSet owns"
  const SERVICE_PURPOSE := "checking the governing Service exists"
  const CLAIM_PURPOSE := "checking the volumes each replica needs are bound"

  /** The Pods of the set, in ordinal order, when they could be listed. */
  function OwnedPods(api: SetApi): seq<PodObject> {
    if api.selectorError.None? && api.pods.Got? then OwnedInOrder(api.pods.value, api.sts.uid) else []
  }

  function PodDoubts(api: SetApi, order: seq<int>): seq<Degradation> {
    if api.selectorError.Some? then [Degradation("pods", "Error", SELECTOR_PURPOSE, api.selectorError.value)]
    else Complaint("pods", POD_PURPOSE, api.pods) + Backends.BackendComplaints(OwnedPods(api), api.podEvents, order)
  }

  function ServiceDoubts(api: SetApi): seq<Degradation> {
    if api.sts.serviceName == "" then [] else Doubt("services", SERVICE_PURPOSE, api.service)
  }

  function GoverningService(api: SetApi): Governing {
    if api.sts.serviceName == "" then Governing("", Existence.Unknown, false)
    else Governing(api.sts.serviceName, ExistenceIn(api.service), api.service.Got? && api.service.value)
  }

  predicate AllPodsReady(pods: seq<PodObject>, desired: int) {
    |pods| >= desired && forall i :: 0 <= i < |pods| ==> PodReady(pods[i])
  }

  /** The claims that are read: none while every replica is ready. */
  function ClaimsRead(api: SetApi): seq<string> {
    if api.sts.templates == [] || AllPodsReady(OwnedPods(api), api.sts.Desired()) then []
    else ClaimsNeeded(api.sts, Replicas(api.sts))
  }

  function ClaimMap(api: SetApi, names: seq<string>): map<string, ClaimRef> {
    map n | n in names :: PodCollect.ClaimEntry(n, api.claim(n), api.classes(n))
  }

  function ClaimDoubtsAbout(api: SetApi): string -> seq<Degradation> {
    (n: string) => PodCollect.ClaimDoubts(CLAIM_PURPOSE, api.claim(n), api.classes(n))
  }

  function SetDoubts(api: SetApi, order: seq<int>): seq<Degradation> {
    Complaint("events", EVENT_PURPOSE, api.events) + PodDoubts(api, order) + ServiceDoubts(api)
    + FlatMap(ClaimDoubtsAbout(api), ClaimsRead(api))
  }

  function CollectedSet(api: SetApi, order: seq<int>): SetSnap {
    SetSnap(api.sts, Backends.BackendSnaps(OwnedPods(api), api.now, api.podEvents), GoverningService(api),
            ClaimMap(api, ClaimsRead(api)), Recorded([], SetDoubts(api, order)))
  }

  method CollectPods(coll: Collection, api: SetApi) returns (pods: seq<PodSnap>, ghost order: seq<int>)
    requires coll.Valid()
    modifies coll`degradations
    ensures coll.Valid() && Backends.Covers(order, |Backends.NeedEvents(OwnedPods(api))|)
    ensures coll.degradations == Recorded(old(coll.degradations), PodDoubts(api, order))
    ensures pods == Backends.BackendSnaps(OwnedPods(api), api.now, api.podEvents)
  {
    order, pods := [], [];
    assert Backends.NeedEvents([]) == [] by {
      Backends.NeedEventsAreFirstUnready([]);
    }
    if api.selectorError.Some? {
      coll.Degrade(Degradation("pods", "Error", SELECTOR_PURPOSE, api.selectorError.value));
      return;
    }
    ghost var log := coll.degradations;
    DegradeRead(coll, "pods", POD_PURPOSE, api.pods);
    RecordedNothing(coll.degradations);
    if api.pods.Got? {
      var owned := SelectOwned(api.pods.value, api.sts.uid);
      pods, order := Backends.BackendSnapshots(coll, owned, api.now, api.podEvents);
    }
    RecordedTwice(log, Complaint("pods", POD_PURPOSE, api.pods), Backends.BackendComplaints(OwnedPods(api), api.podEvents, order));
  }

  method CollectService(coll: Collection, api: SetApi) returns (entry: Governing)
    requires coll.Valid()
    modifies coll`degradations
    ensures coll.Valid() && coll.degradations == Recorded(old(coll.degradations), ServiceDoubts(api))
    ensures entry == GoverningService(api)
  {
    RecordedNothing(coll.degradations);
    if api.sts.serviceName == "" {
      return Governing("", Existence.Unknown, false);
    }
    var e := CheckExistence(coll, "services", SERVICE_PURPOSE, api.service);
    entry := Governing(api.sts.serviceName, e, false);
    if api.service.Got? {
      entry := entry.(headless := api.service.value);
    }
  }

  lemma ClaimStep(api: SetApi, done: seq<string>, name: string)
    ensures FlatMap(ClaimDoubtsAbout(api), done + [name])
         == FlatMap(ClaimDoubtsAbout(api), done) + PodCollect.ClaimDoubts(CLAIM_PURPOSE, api.claim(name), api.classes(name))
    ensures ClaimMap(api, done + [name]) == ClaimMap(api, done)[name := PodCollect.ClaimEntry(name, api.claim(name), api.classes(name))]
  {
    assert Front(done + [name]) == done;
  }

  /** Reads the claims of one replica; `done` are the names read before. */
  method ReadReplicaClaims(coll: Collection, api: SetApi, ordinal: nat, claims: map<string, ClaimRef>, ghost log: seq<Degradation>, ghost done: seq<string>)
    returns (out: map<string, ClaimRef>)
    requires coll.Valid() && coll.degradations == Recorded(log, FlatMap(ClaimDoubtsAbout(api), done))
    requires claims == ClaimMap(api, done)
    modifies coll`degradations
    ensures coll.Valid()
    ensures coll.degradations == Recorded(log, FlatMap(ClaimDoubtsAbout(api), done + Map(ReplicaClaim(api.sts, ordinal), api.sts.templates)))
    ensures out == ClaimMap(api, done + Map(ReplicaClaim(api.sts, ordinal), api.sts.templates))
  {
    out := claims;
    var ts := api.sts.templates;
    ghost var f, names := ReplicaClaim(api.sts, ordinal), done;
    assert done + Map(f, ts[..0]) == done;
    for i := 0 to |ts|
      invariant names == done + Map(f, ts[..i])
      invariant coll.Valid() && coll.degradations == Recorded(log, FlatMap(ClaimDoubtsAbout(api), names))
      invariant out == ClaimMap(api, names)
    {
      var name := ClaimName(ts[i], api.sts.name, ordinal);
      PrefixStep(ts, i);
      MapSnoc(f, ts[..i], ts[i]);
      ClaimStep(api, names, name);
      RecordedTwice(log, FlatMap(ClaimDoubtsAbout(api), names), PodCollect.ClaimDoubts(CLAIM_PURPOSE, api.claim(name), api.classes(name)));
      var entry := PodCollect.ReadClaim(coll, name, CLAIM_PURPOSE, api.claim(name), api.classes(name));
      out := out[name := entry];
      names := names + [name];
    }
    assert ts[..|ts|] == ts;
  }

  method CollectClaimTemplates(coll: Collection, api: SetApi) returns (claims: map<string, ClaimRef>)
    requires coll.Valid()
    modifies coll`degradations
    ensures coll.Valid() && coll.degradations == Recorded(old(coll.degradations), FlatMap(ClaimDoubtsAbout(api), ClaimsRead(api)))
    ensures claims == ClaimMap(api, ClaimsRead(api))
  {
    ghost var log := coll.degradations;
    RecordedNothing(log);
    claims := map[];
    if api.sts.templates == [] || AllPodsReady(OwnedPods(api), api.sts.Desired()) {
      return;
    }
    for ordinal := 0 to Replicas(api.sts)
      invariant coll.Valid() && coll.degradations == Recorded(log, FlatMap(ClaimDoubtsAbout(api), ClaimsNeeded(api.sts, ordinal)))
      invariant claims == ClaimMap(api, ClaimsNeeded(api.sts, ordinal))
    {
      claims := ReadReplicaClaims(coll, api, ordinal, claims, log, ClaimsNeeded(api.sts, ordinal));
    }
  }

  method CollectSet(api: SetApi) returns (snap: SetSnap, ghost order: seq<int>)
    ensures Backends.Covers(order, |Backends.NeedEvents(OwnedPods(api))|)
    ensures snap == CollectedSet(api, order)
  {
    var coll := new Collection();
    DegradeRead(coll, "events", EVENT_PURPOSE, api.events);
    ghost var doubts := Complaint("events", EVENT_PURPOSE, api.events);
    var pods;
    pods, order := CollectPods(coll, api);
    RecordedTwice([], doubts, PodDoubts(api, order));
    doubts := doubts + PodDoubts(api, order);
    var service := CollectService(coll, api);
    RecordedTwice([], doubts, ServiceDoubts(api));
    doubts := doubts + ServiceDoubts(api);
    var claims := CollectClaimTemplates(coll, api);
    RecordedTwice([], doubts, FlatMap(ClaimDoubtsAbout(api), ClaimsRead(api)));
    snap := SetSnap(api.sts, pods, service, claims, coll.degradations);
  }

  /** The collected claims: exactly one entry per replica and template, unless nothing had to be read. */
  lemma ClaimsAreReplicasTimesTemplates(api: SetApi, order: seq<int>)
    ensures |CollectedSet(api, order).claims|
         == if AllPodsReady(OwnedPods(api), api.sts.Desired()) then 0 else Replicas(api.sts) * |Elements(api.sts.templates)|
  {
    var claims := ClaimMap(api, ClaimsRead(api));
    assert claims.Keys == Elements(ClaimsRead(api));
    ClaimCount(api.sts, Replicas(api.sts));
    if api.sts.templates == [] {
      assert Elements(api.sts.templates) == {} == Elements(ClaimsRead(api));
    }
  }

  // ---- Replicas blocked by their own claim ----

  /** Missing, or there but not bound; a claim nobody could read blocks nothing. */
  predicate Unusable(c: ClaimRef) {
    c.existence == Missing || (c.existence == Found && c.phase != Bound)
  }

  ghost predicate Blocked(sts: string, claims: map<string, ClaimRef>, pod: string) {
    exists name :: name in claims && Unusable(claims[name]) && Ordinal(name).Some? && pod == PodName(sts, Ordinal(name).value)
  }

  method PodsBlockedByTheirClaim(snap: SetSnap) returns (out: set<string>)
    ensures forall pod :: pod in out <==> Blocked(snap.sts.name, snap.claims, pod)
  {
    out := {};
    var left := snap.claims.Keys;
    ghost var done: map<string, ClaimRef> := map[];
    while left != {}
      invariant left <= snap.claims.Keys && done == snap.claims - left
      invariant forall pod :: pod in out <==> Blocked(snap.sts.name, done, pod)
      decreases left
    {
      var name :| name in left;
      var claim := snap.claims[name];
      left := left - {name};
      ghost var before := done;
      done := snap.claims - left;
      assert done == before[name := claim] && name !in before;
      forall pod ensures Blocked(snap.sts.name, done, pod)
                    <==> Blocked(snap.sts.name, before, pod) || (Unusable(claim) && Ordinal(name).Some? && pod == PodName(snap.sts.name, Ordinal(name).value))
      {
        BlockedStep(snap.sts.name, before, name, claim, pod);
      }
      if (claim.existence == Found && claim.phase == Bound) || claim.existence == Existence.Unknown {
        continue;
      }
      match Ordinal(name) {
        case Some(n) => out := out + {PodName(snap.sts.name, n)};
        case None =>
      }
    }
    assert done == snap.claims;
  }

  lemma BlockedStep(sts: string, before: map<string, ClaimRef>, name: string, claim: ClaimRef, pod: string)
    requires name !in before
    ensures Blocked(sts, before[name := claim], pod)
       <==> Blocked(sts, before, pod) || (Unusable(claim) && Ordinal(name).Some? && pod == PodName(sts, Ordinal(name).value))
  {
    var after := before[name := claim];
    assert forall n :: n in before ==> n in after && after[n] == before[n];
    if Unusable(claim) && Ordinal(name).Some? && pod == PodName(sts, Ordinal(name).value) {
      assert name in after && Unusable(after[name]);
    }
  }

  /** The API says that this claim of a replica is absent, or there but not bound. */
  ghost predicate ClaimBlocks(api: SetApi, template: string, n: nat) {
    var answer := api.claim(ClaimName(template, api.sts.name, n));
    answer.NotFound? || (answer.Got? && answer.value.phase != Bound)
  }

  lemma UnusableIff(api: SetApi, name: string)
    requires name in ClaimsRead(api)
    ensures Unusable(ClaimMap(api, ClaimsRead(api))[name]) <==> api.claim(name).NotFound? || (api.claim(name).Got? && api.claim(name).value.phase != Bound)
  {
  }

  /** Replica `n` is marked blocked exactly when claims were read and one of its own is unusable. */
  lemma BlockedIff(api: SetApi, order: seq<int>, n: nat)
    ensures Blocked(api.sts.name, CollectedSet(api, order).claims, PodName(api.sts.name, n))
       <==> && n < Replicas(api.sts) && !AllPodsReady(OwnedPods(api), api.sts.Desired())
            && exists t :: t in api.sts.templates && ClaimBlocks(api, t, n)
  {
    var sts, claims := api.sts, ClaimMap(api, ClaimsRead(api));
    assert CollectedSet(api, order).claims == claims;
    if Blocked(sts.name, claims, PodName(sts.name, n)) {
      var name :| name in claims && Unusable(claims[name]) && Ordinal(name).Some? && PodName(sts.name, n) == PodName(sts.name, Ordinal(name).value);
      PodNameInjective(sts.name, n, Ordinal(name).value);
      InClaimsNeeded(sts, Replicas(sts), name);
      var k: nat, t :| k < Replicas(sts) && t in sts.templates && name == ClaimName(t, sts.name, k);
      OrdinalUndoesName(t, sts.name, k);
      UnusableIff(api, name);
      assert ClaimBlocks(api, t, n);
    }
    if n < Replicas(sts) && !AllPodsReady(OwnedPods(api), sts.Desired()) && exists t :: t in sts.templates && ClaimBlocks(api, t, n) {
      var t :| t in sts.templates && ClaimBlocks(api, t, n);
      var name := ClaimName(t, sts.name, n);
      InClaimsNeeded(sts, Replicas(sts), name);
      OrdinalUndoesName(t, sts.name, n);
      UnusableIff(api, name);
      assert name in claims && Unusable(claims[name]);
    }
  }

  /** Claims were read, and the Pod of this name is a replica one of whose own claims is unusable. */
  ghost predicate HeldByClaim(api: SetApi, name: string) {
    && !AllPodsReady(OwnedPods(api), api.sts.Desired())
    && exists n: nat, t :: n < Replicas(api.sts) && name == PodName(api.sts.name, n) && t in api.sts.templates && ClaimBlocks(api, t, n)
  }

  /** A name is marked blocked exactly when it is that of a replica held by its claim. */
  lemma BlockedNameIff(api: SetApi, order: seq<int>, name: string)
    ensures Blocked(api.sts.name, CollectedSet(api, order).claims, name) <==> HeldByClaim(api, name)
  {
    var sts, claims := api.sts, CollectedSet(api, order).claims;
    if Blocked(sts.name, claims, name) {
      var c :| c in claims && Unusable(claims[c]) && Ordinal(c).Some? && name == PodName(sts.name, Ordinal(c).value);
      BlockedIff(api, order, Ordinal(c).value);
      var t :| t in sts.templates && ClaimBlocks(api, t, Ordinal(c).value);
    }
    if HeldByClaim(api, name) {
      var n: nat, t :| n < Replicas(sts) && name == PodName(sts.name, n) && t in sts.templates && ClaimBlocks(api, t, n);
      BlockedIff(api, order, n);
    }
  }

  // ---- What the Pods show ----

  /** A Pod whose own claim explains it gets no fallback finding. */
  ghost function Shown(env: Env, snap: SetSnap, pod: PodSnap, ord: MapOrder): seq<Diagnosis> {
    if PodTheorems.PodFindings(env, pod, ord) == [] && Blocked(snap.sts.name, snap.claims, pod.pod.name) then []
    else Explained(env, pod, ord)
  }

  ghost function ShownBy(env: Env, snap: SetSnap): (PodSnap, MapOrder) -> seq<Diagnosis> {
    (pod: PodSnap, ord: MapOrder) => Shown(env, snap, pod, ord)
  }

  ghost function AllShown(env: Env, snap: SetSnap, pods: seq<PodSnap>, ords: seq<MapOrder>): seq<Diagnosis>
    requires |pods| == |ords|
  {
    Gathered(ShownBy(env, snap), pods, ords)
  }

  ghost function SetPodFindings(env: Env, snap: SetSnap, ords: seq<MapOrder>): seq<Diagnosis>
    requires |ords| == |snap.pods|
  {
    Aggregation.Aggregated(AllShown(env, snap, snap.pods, ords), |snap.pods|)
  }

  method EvaluatePod(env: Env, snap: SetSnap, pod: PodSnap, ord: MapOrder, explained: set<string>) returns (found: seq<Diagnosis>)
    requires pod.pod.name in explained <==> Blocked(snap.sts.name, snap.claims, pod.pod.name)
    ensures found == Shown(env, snap, pod, ord)
  {
    found := Engine.Evaluate(Rules(env, ord), pod, |Rules(env, ord)|);
    if found == [] && pod.pod.name !in explained {
      found := Fallback(env, pod);
    }
  }

  method EvaluatePods(env: Env, snap: SetSnap, ords: seq<MapOrder>) returns (out: seq<Diagnosis>)
    requires |ords| == |snap.pods|
    ensures out == SetPodFindings(env, snap, ords)
  {
    var explained := PodsBlockedByTheirClaim(snap);
    var all := [];
    for i := 0 to |snap.pods|
      invariant all == AllShown(env, snap, snap.pods[..i], ords[..i])
    {
      PrefixStep(snap.pods, i);
      PrefixStep(ords, i);
      var found := EvaluatePod(env, snap, snap.pods[i], ords[i], explained);
      all := all + found;
    }
    assert snap.pods[..|snap.pods|] == snap.pods && ords[..|ords|] == ords;
    out := Aggregation.AggregateByRule(all, |snap.pods|);
  }

  /** Exactly the blocked replicas that no Pod rule explains, and that are not ready, lose the fallback:
      a Pod with any other name keeps it. */
  lemma FallbackLostIff(env: Env, api: SetApi, order: seq<int>, pod: PodSnap, ord: MapOrder)
    ensures Shown(env, CollectedSet(api, order), pod, ord) != Explained(env, pod, ord)
       <==> && PodTheorems.PodFindings(env, pod, ord) == [] && !pod.IsTerminal() && !PodReady(pod.pod)
            && HeldByClaim(api, pod.pod.name)
  {
    BlockedNameIff(api, order, pod.pod.name);
    PodCollect.FallbackWarns(env, pod);
  }

  // ---- Rules ----

  function WaitingName(sts: SetObject): int -> string {
    (m: int) => if m >= 0 then PodName(sts.name, m) else ""
  }

  function OrderingFinding(say: Wording, snap: SetSnap, blocker: PodObject, missing: seq<int>): Diagnosis {
    Finding(StatefulSetOrderedRolloutBlocked, snap.Ref(), blocker.name, Critical, Certain,
            say(StatefulSetOrderedRolloutBlocked, 0, [Text(blocker.name), Number(|missing|)]))
    .(evidence := [Evidence("api", "blockedBy", blocker.name, ""),
                   Evidence("api", "neverCreated", Join(Map(WaitingName(snap.sts), missing), ", "), "")])
  }

  function OrderingRule(say: Wording, snap: SetSnap): seq<Diagnosis> {
    if snap.sts.parallel || snap.sts.Desired() == 0 then []
    else
      var blocker, missing := FirstUnready(PodsIn(snap)), MissingOrdinals(PodsIn(snap), snap.sts.Desired());
      if blocker.None? || missing == [] then [] else [OrderingFinding(say, snap, blocker.value, missing)]
  }

  method EvaluateOrdering(say: Wording, snap: SetSnap) returns (out: seq<Diagnosis>)
    ensures out == OrderingRule(say, snap)
  {
    if snap.sts.parallel || snap.sts.Desired() == 0 {
      return [];
    }
    var blocker := FindFirstUnready(PodsIn(snap));
    var missing := FindMissingOrdinals(PodsIn(snap), snap.sts.Desired());
    if blocker.None? || missing == [] {
      return [];
    }
    out := [OrderingFinding(say, snap, blocker.value, missing)];
  }

  function OwnerPod(sts: SetObject, claim: string): string {
    if Ordinal(claim).Some? then PodName(sts.name, Ordinal(claim).value) else claim
  }

  function SetClaimFindings(say: Wording, snap: SetSnap, name: string): seq<Diagnosis> {
    if name !in snap.claims then []
    else
      var claim, ref, owner := snap.claims[name], ResourceRef("PersistentVolumeClaim", snap.sts.ns, name), OwnerPod(snap.sts, name);
      if claim.existence == Missing then
        [Finding(StatefulSetClaimNotFound, ref, "", Critical, Certain, say(StatefulSetClaimNotFound, 0, [Text(owner)]))
         .(evidence := [AbsenceEvidence("persistentvolumeclaim", name)])]
      else if claim.existence == Found && claim.phase != Bound then
        if claim.WaitsForConsumer() then [Finding(StatefulSetClaimNotBound, ref, "", Info, Certain, say(StatefulSetClaimNotBound, 1, [Text(owner)]))]
        else [Finding(StatefulSetClaimNotBound, ref, "", Critical, Certain, say(StatefulSetClaimNotBound, 0, [Text(owner), Text(PhaseText(claim.phase))]))]
      else []
  }

  function SetClaimOf(say: Wording, snap: SetSnap): string -> seq<Diagnosis> {
    (name: string) => SetClaimFindings(say, snap, name)
  }

  /** `order` is how the map of claims was walked. */
  function SetClaimRule(say: Wording, snap: SetSnap, order: seq<string>): seq<Diagnosis> {
    FlatMap(SetClaimOf(say, snap), Sort(ByName(), order))
  }

  method EvaluateClaims(say: Wording, snap: SetSnap) returns (out: seq<Diagnosis>)
    ensures forall order :: Enumerates(order, snap.claims.Keys) ==> out == SetClaimRule(say, snap, order)
  {
    var walked := AnyKeys(snap.claims.Keys);
    var names := Sort(ByName(), walked);
    out := [];
    for i := 0 to |names|
      invariant out == FlatMap(SetClaimOf(say, snap), names[..i])
    {
      PrefixStep(names, i);
      out := out + SetClaimFindings(say, snap, names[i]);
    }
    assert names[..|names|] == names;
    forall order | Enumerates(order, snap.claims.Keys) ensures out == SetClaimRule(say, snap, order) {
      SetClaimRuleAgrees(say, snap, walked, order);
    }
  }

  lemma SetClaimRuleAgrees(say: Wording, snap: SetSnap, a: seq<string>, b: seq<string>)
    requires Enumerates(a, snap.claims.Keys) && Enumerates(b, snap.claims.Keys)
    ensures SetClaimRule(say, snap, a) == SetClaimRule(say, snap, b)
  {
    EnumerationsPermute(a, b, snap.claims.Keys);
    SortedNamesAgree(a, b);
  }

  function ServiceRule(say: Wording, snap: SetSnap): seq<Diagnosis> {
    var service := snap.service;
    if service.name == "" || service.existence == Existence.Unknown then []
    else if service.existence == Missing then
      [Finding(StatefulSetServiceNotFound, snap.Ref(), "", Warning, Certain, say(StatefulSetServiceNotFound, 0, [Text(service.name)]))]
    else if !service.headless then
      [Finding(StatefulSetServiceNotHeadless, ResourceRef("Service", snap.sts.ns, service.name), "", Warning, Certain,
               say(StatefulSetServiceNotHeadless, 0, [Text(service.name)]))]
    else []
  }

  function UpdateRule(say: Wording, snap: SetSnap): seq<Diagnosis> {
    if snap.sts.Desired() == 0 then
      [Finding(StatefulSetScaledToZero, snap.Ref(), "", Info, Certain, say(StatefulSetScaledToZero, 0, []))]
    else
      (if snap.sts.onDelete && snap.sts.RolloutPending() then
         [Finding(StatefulSetUpdateOnDelete, snap.Ref(), "", Info, Certain, say(StatefulSetUpdateOnDelete, 0, []))]
       else [])
      + if snap.sts.Partition() > 0 && snap.sts.RolloutPending() then
          [Finding(StatefulSetUpdatePartitioned, snap.Ref(), "", Info, Certain, say(StatefulSetUpdatePartitioned, 0, [Number(snap.sts.Partition())]))]
        else []
  }

  function AvailabilityRule(say: Wording, snap: SetSnap): seq<Diagnosis> {
    var desired, ready := snap.sts.Desired(), snap.sts.readyReplicas;
    if desired == 0 || ready >= desired then []
    else [Finding(StatefulSetUnavailableReplicas, snap.Ref(), "", if ready > 0 then Warning else Critical, Certain,
                  say(StatefulSetUnavailableReplicas, 0, [Number(ready), Number(desired)]))]
  }

  function SetRules(say: Wording, order: seq<string>): seq<Engine.Rule<SetSnap>> {
    [(s: SetSnap) => OrderingRule(say, s), (s: SetSnap) => SetClaimRule(say, s, order), (s: SetSnap) => ServiceRule(say, s),
     (s: SetSnap) => UpdateRule(say, s), (s: SetSnap) => AvailabilityRule(say, s)]
  }

  function SetFindings(say: Wording, snap: SetSnap, order: seq<string>): seq<Diagnosis> {
    Engine.Evaluated(SetRules(say, order), snap, |SetRules(say, order)|)
  }

  ghost function SetDiagnoses(env: Env, snap: SetSnap, order: seq<string>, ords: seq<MapOrder>): seq<Diagnosis>
    requires |ords| == |snap.pods|
  {
    Assembled(SetFindings(env.say, snap, order), SetPodFindings(env, snap, ords), {StatefulSetUnavailableReplicas})
  }

  // ---- Results ----

  lemma InFive<S>(rules: seq<Engine.Rule<S>>, snap: S, d: Diagnosis)
    requires |rules| == 5
    ensures d in Engine.Evaluated(rules, snap, |rules|) <==>
              d in rules[0](snap) || d in rules[1](snap) || d in rules[2](snap) || d in rules[3](snap) || d in rules[4](snap)
  {
    Engine.InEvaluated(rules, snap, d);
  }

  lemma SetRuleOutputs(say: Wording, snap: SetSnap, order: seq<string>)
    ensures |SetRules(say, order)| == 5
    ensures SetRules(say, order)[0](snap) == OrderingRule(say, snap) && SetRules(say, order)[1](snap) == SetClaimRule(say, snap, order)
    ensures SetRules(say, order)[2](snap) == ServiceRule(say, snap) && SetRules(say, order)[3](snap) == UpdateRule(say, snap)
    ensures SetRules(say, order)[4](snap) == AvailabilityRule(say, snap)
  {
  }

  lemma InSetFindings(say: Wording, snap: SetSnap, order: seq<string>, d: Diagnosis)
    ensures d in SetFindings(say, snap, order) <==>
              || d in OrderingRule(say, snap) || d in SetClaimRule(say, snap, order) || d in ServiceRule(say, snap)
              || d in UpdateRule(say, snap) || d in AvailabilityRule(say, snap)
  {
    SetRuleOutputs(say, snap, order);
    InFive(SetRules(say, order), snap, d);
  }

  lemma SetClaimRuleUncaused(say: Wording, snap: SetSnap, order: seq<string>)
    ensures Uncaused(SetClaimRule(say, snap, order))
  {
    var f := SetClaimOf(say, snap);
    forall name ensures Uncaused(f(name)) {
      assert f(name) == SetClaimFindings(say, snap, name);
    }
    UncausedFlatMap(f, Sort(ByName(), order));
  }

  lemma OtherRulesUncaused(say: Wording, snap: SetSnap)
    ensures Uncaused(OrderingRule(say, snap)) && Uncaused(ServiceRule(say, snap))
    ensures Uncaused(UpdateRule(say, snap)) && Uncaused(AvailabilityRule(say, snap))
  {
  }

  lemma SetRulesUncaused(say: Wording, snap: SetSnap, order: seq<string>)
    ensures NoDanglingCause(SetFindings(say, snap, order))
  {
    SetClaimRuleUncaused(say, snap, order);
    OtherRulesUncaused(say, snap);
    forall d | d in SetFindings(say, snap, order) ensures d.causedBy == NoID {
      InSetFindings(say, snap, order, d);
    }
  }

  lemma AllShownClosed(env: Env, snap: SetSnap, pods: seq<PodSnap>, ords: seq<MapOrder>)
    requires Collected(pods, ords)
    ensures NoDanglingCause(AllShown(env, snap, pods, ords))
  {
    var f := ShownBy(env, snap);
    forall i | 0 <= i < |pods| ensures NoDanglingCause(f(pods[i], ords[i])) {
      ExplainedClosed(env, pods[i], ords[i]);
    }
    GatheredClosed(f, pods, ords);
  }

  lemma SetNoDanglingCause(env: Env, snap: SetSnap, order: seq<string>, ords: seq<MapOrder>)
    requires Collected(snap.pods, ords)
    ensures NoDanglingCause(SetDiagnoses(env, snap, order, ords))
  {
    SetRulesUncaused(env.say, snap, order);
    AllShownClosed(env, snap, snap.pods, ords);
    Aggregation.AggregateKeepsCauses(AllShown(env, snap, snap.pods, ords), |snap.pods|);
    AssembledClosed(SetFindings(env.say, snap, order), SetPodFindings(env, snap, ords), {StatefulSetUnavailableReplicas});
  }

  lemma SetReportNoDanglingCause(env: Env, api: SetApi, goroutines: seq<int>, order: seq<string>, ords: seq<MapOrder>)
    requires Walked(CollectedSet(api, goroutines).pods, ords)
    ensures NoDanglingCause(SetDiagnoses(env, CollectedSet(api, goroutines), order, ords))
  {
    BackendsAreCollected(OwnedPods(api), api.now, api.podEvents, ords);
    SetNoDanglingCause(env, CollectedSet(api, goroutines), order, ords);
  }

  // ---- Exactly when a StatefulSet is healthy ----

  lemma AvailabilityCalm(say: Wording, snap: SetSnap)
    ensures Reports.Calm(AvailabilityRule(say, snap)) <==> snap.sts.Desired() == 0 || snap.sts.readyReplicas >= snap.sts.Desired()
  {
    var out := AvailabilityRule(say, snap);
    assert out != [] ==> out[0] in out && (out[0].severity == Critical || out[0].severity == Warning);
  }

  lemma OrderingCalm(say: Wording, snap: SetSnap)
    ensures Reports.Calm(OrderingRule(say, snap))
       <==> || snap.sts.parallel || snap.sts.Desired() == 0
            || FirstUnready(PodsIn(snap)).None? || MissingOrdinals(PodsIn(snap), snap.sts.Desired()) == []
  {
    var out := OrderingRule(say, snap);
    assert out != [] ==> out[0] in out && out[0].severity == Critical;
  }

  lemma ServiceCalm(say: Wording, snap: SetSnap)
    ensures Reports.Calm(ServiceRule(say, snap))
       <==> || snap.service.name == "" || snap.service.existence == Existence.Unknown
            || (snap.service.existence == Found && snap.service.headless)
  {
    var out := ServiceRule(say, snap);
    assert out != [] ==> out[0] in out && out[0].severity == Warning;
  }

  lemma UpdateCalm(say: Wording, snap: SetSnap)
    ensures Reports.Calm(UpdateRule(say, snap))
  {
  }

  /** A claim about which nothing above info is said. */
  predicate Bearable(c: ClaimRef) {
    match c.existence
    case Unknown => true
    case Missing => false
    case Found => c.phase == Bound || c.WaitsForConsumer()
  }

  lemma ClaimCalm(say: Wording, snap: SetSnap, name: string)
    requires name in snap.claims
    ensures Reports.Calm(SetClaimFindings(say, snap, name)) <==> Bearable(snap.claims[name])
  {
    var out := SetClaimFindings(say, snap, name);
    assert out != [] ==> out[0] in out && out == [out[0]];
  }

  lemma SetClaimsCalm(say: Wording, snap: SetSnap, order: seq<string>)
    requires Enumerates(order, snap.claims.Keys)
    ensures Reports.Calm(SetClaimRule(say, snap, order)) <==> forall n :: n in snap.claims ==> Bearable(snap.claims[n])
  {
    var f, names := SetClaimOf(say, snap), Sort(ByName(), order);
    forall n ensures n in names <==> n in snap.claims {
      SortMembers(ByName(), order, n);
      assert n in order <==> n in (set x | x in order);
    }
    Reports.CalmFlatMap(f, names);
    forall n | n in snap.claims ensures Reports.Calm(f(n)) <==> Bearable(snap.claims[n]) {
      ClaimCalm(say, snap, n);
    }
  }

  lemma SetRulesCalm(say: Wording, snap: SetSnap, order: seq<string>)
    ensures Reports.Calm(SetFindings(say, snap, order))
       <==> && Reports.Calm(OrderingRule(say, snap)) && Reports.Calm(SetClaimRule(say, snap, order))
            && Reports.Calm(ServiceRule(say, snap)) && Reports.Calm(AvailabilityRule(say, snap))
  {
    UpdateCalm(say, snap);
    forall d ensures d in SetFindings(say, snap, order) <==>
              || d in OrderingRule(say, snap) || d in SetClaimRule(say, snap, order) || d in ServiceRule(say, snap)
              || d in UpdateRule(say, snap) || d in AvailabilityRule(say, snap)
    {
      InSetFindings(say, snap, order, d);
    }
  }

  /** Every read the analysis of this StatefulSet depends on succeeded, or its NotFound is a fact. */
  ghost predicate EverythingRead(api: SetApi) {
    && api.events.Got? && api.selectorError.None? && api.pods.Got?
    && (forall j :: j in Backends.NeedEvents(OwnedPods(api)) ==> api.podEvents(j).Got?)
    && (api.sts.serviceName != "" ==> ExistenceIn(api.service) != Existence.Unknown)
    && forall n :: n in ClaimsRead(api) ==> PodCollect.ClaimDoubts(CLAIM_PURPOSE, api.claim(n), api.classes(n)) == []
  }

  lemma SetReadIff(api: SetApi, order: seq<int>)
    requires Backends.Covers(order, |Backends.NeedEvents(OwnedPods(api))|)
    ensures CollectedSet(api, order).degradations == [] <==> EverythingRead(api)
  {
    RecordedFacts([], SetDoubts(api, order));
    Backends.SilentBackends(OwnedPods(api), api.podEvents, order);
    var f := ClaimDoubtsAbout(api);
    FlatMapEmpty(f, ClaimsRead(api));
    assert forall n :: f(n) == PodCollect.ClaimDoubts(CLAIM_PURPOSE, api.claim(n), api.classes(n));
    assert CollectedSet(api, order).degradations == [] <==>
             && Complaint("events", EVENT_PURPOSE, api.events) == [] && PodDoubts(api, order) == []
             && ServiceDoubts(api) == [] && FlatMap(f, ClaimsRead(api)) == [];
  }

  /** The claim is there, and bound or waiting on purpose. */
  ghost predicate ClaimServes(api: SetApi, name: string) {
    && api.claim(name).Got?
    && (api.claim(name).value.phase == Bound || ClassOf(api.claim(name).value, api.classes(name)).WaitsForConsumer())
  }

  lemma BearableIff(api: SetApi, name: string)
    requires name in ClaimsRead(api) && PodCollect.ClaimDoubts(CLAIM_PURPOSE, api.claim(name), api.classes(name)) == []
    ensures Bearable(ClaimMap(api, ClaimsRead(api))[name]) <==> ClaimServes(api, name)
  {
  }

  /** The controller has what it asks for: enough ready replicas, nothing waiting behind an unready
      Pod, a headless governing Service if it names one, and usable claims. */
  ghost predicate Provided(api: SetApi) {
    && (api.sts.Desired() == 0 || api.sts.readyReplicas >= api.sts.Desired())
    && (|| api.sts.parallel || api.sts.Desired() == 0
        || (forall p :: p in OwnedPods(api) ==> PodReady(p))
        || (forall n :: 0 <= n < api.sts.Desired() ==> Present(OwnedPods(api), n)))
    && (api.sts.serviceName != "" ==> api.service.Got? && api.service.value)
    && forall n :: n in ClaimsRead(api) ==> ClaimServes(api, n)
  }

  lemma RolloutFree(pods: seq<PodObject>, desired: int)
    ensures FirstUnready(pods).None? <==> forall p :: p in pods ==> PodReady(p)
    ensures MissingOrdinals(pods, desired) == [] <==> forall n :: 0 <= n < desired ==> Present(pods, n)
  {
    FirstWhereFound(LacksReadiness, pods);
    assert forall p :: LacksReadiness(p) <==> !PodReady(p);
    MissingIsComplement(pods, desired);
    var missing := MissingOrdinals(pods, desired);
    assert missing != [] ==> missing[0] in missing;
  }

  /** What the rules of a StatefulSet need to see to stay calm. */
  ghost predicate Settled(snap: SetSnap, pods: seq<PodObject>) {
    && (snap.sts.Desired() == 0 || snap.sts.readyReplicas >= snap.sts.Desired())
    && (|| snap.sts.parallel || snap.sts.Desired() == 0
        || FirstUnready(pods).None? || MissingOrdinals(pods, snap.sts.Desired()) == [])
    && (|| snap.service.name == "" || snap.service.existence == Existence.Unknown
        || (snap.service.existence == Found && snap.service.headless))
    && forall n :: n in snap.claims ==> Bearable(snap.claims[n])
  }

  lemma SettledIsCalm(say: Wording, snap: SetSnap, order: seq<string>)
    requires Enumerates(order, snap.claims.Keys)
    ensures Reports.Calm(SetFindings(say, snap, order)) <==> Settled(snap, PodsIn(snap))
  {
    SetRulesCalm(say, snap, order);
    AvailabilityCalm(say, snap);
    OrderingCalm(say, snap);
    ServiceCalm(say, snap);
    SetClaimsCalm(say, snap, order);
  }

  lemma ClaimsServe(api: SetApi)
    requires forall n :: n in ClaimsRead(api) ==> PodCollect.ClaimDoubts(CLAIM_PURPOSE, api.claim(n), api.classes(n)) == []
    ensures var claims := ClaimMap(api, ClaimsRead(api));
            (forall n :: n in claims ==> Bearable(claims[n])) <==> (forall n :: n in ClaimsRead(api) ==> ClaimServes(api, n))
  {
    var claims := ClaimMap(api, ClaimsRead(api));
    forall n | n in ClaimsRead(api) ensures n in claims && (Bearable(claims[n]) <==> ClaimServes(api, n)) {
      BearableIff(api, n);
    }
  }

  lemma SettledIff(api: SetApi, goroutines: seq<int>)
    requires EverythingRead(api)
    ensures Settled(CollectedSet(api, goroutines), OwnedPods(api)) <==> Provided(api)
  {
    RolloutFree(OwnedPods(api), api.sts.Desired());
    ClaimsServe(api);
  }

  /** The Pod is well, or one of its own claims explains why it is not ready. */
  ghost predicate WellOrHeld(api: SetApi, pod: PodSnap) {
    !Broken(pod) && !Shaky(pod) && (Unexplained(pod) ==> HeldByClaim(api, pod.pod.name))
  }

  ghost predicate PodsWellOrHeld(api: SetApi, pods: seq<PodSnap>) {
    forall s :: s in pods ==> WellOrHeld(api, s)
  }

  lemma ShownCalm(env: Env, api: SetApi, goroutines: seq<int>, pod: PodSnap, ord: MapOrder)
    requires OrderOf(ord, pod)
    ensures Reports.Calm(Shown(env, CollectedSet(api, goroutines), pod, ord)) <==> WellOrHeld(api, pod)
    ensures PodHealth.AllWorded(env.say, Shown(env, CollectedSet(api, goroutines), pod, ord))
  {
    BlockedNameIff(api, goroutines, pod.pod.name);
    PodHealth.WellIff(env, pod, ord);
    PodHealth.ExplainedWorded(env, pod, ord);
    SilentIff(env, pod, ord);
  }

  lemma SetPodsCalm(env: Env, api: SetApi, goroutines: seq<int>, ords: seq<MapOrder>)
    requires Walked(SnapsOf(api), ords)
    ensures var calm := Reports.Calm(SetPodFindings(env, CollectedSet(api, goroutines), ords));
            && (PodsWellOrHeld(api, SnapsOf(api)) ==> calm)
            && (PodHealth.HistoryApart(env.say) ==> (calm <==> PodsWellOrHeld(api, SnapsOf(api))))
  {
    var snap := CollectedSet(api, goroutines);
    var f := ShownBy(env, snap);
    var ok := (s: PodSnap) => WellOrHeld(api, s);
    forall i | 0 <= i < |snap.pods|
      ensures PodHealth.AllWorded(env.say, f(snap.pods[i], ords[i])) && (Reports.Calm(f(snap.pods[i], ords[i])) <==> ok(snap.pods[i]))
    {
      ShownCalm(env, api, goroutines, snap.pods[i], ords[i]);
    }
    PodHealth.CollapsedPods(env, f, ok, snap.pods, ords);
  }

  /** The snapshots of the set's Pods, whatever the schedule was. */
  function SnapsOf(api: SetApi): seq<PodSnap> {
    Backends.BackendSnaps(OwnedPods(api), api.now, api.podEvents)
  }

  /** For every API behaviour and every schedule, a StatefulSet is reported healthy when every read
      succeeded, the controller has what it asks for, and each of its Pods is well or waits for its own
      claim; and only then, if history and trouble are worded apart. */
  lemma HealthySetIff(env: Env, api: SetApi, goroutines: seq<int>, order: seq<string>, ords: seq<MapOrder>)
    requires Backends.Covers(goroutines, |Backends.NeedEvents(OwnedPods(api))|)
    requires Enumerates(order, CollectedSet(api, goroutines).claims.Keys) && Walked(SnapsOf(api), ords)
    ensures var healthy := Reports.Verdict(SetDiagnoses(env, CollectedSet(api, goroutines), order, ords), CollectedSet(api, goroutines).degradations) == Reports.Healthy;
            && (EverythingRead(api) && Provided(api) && PodsWellOrHeld(api, SnapsOf(api)) ==> healthy)
            && (healthy ==> EverythingRead(api) && Provided(api))
            && (PodHealth.HistoryApart(env.say) ==>
                  (healthy <==> EverythingRead(api) && Provided(api) && PodsWellOrHeld(api, SnapsOf(api))))
  {
    var snap := CollectedSet(api, goroutines);
    SetReadIff(api, goroutines);
    Reports.HealthyIff(SetDiagnoses(env, snap, order, ords), snap.degradations);
    AssembledCalm(SetFindings(env.say, snap, order), SetPodFindings(env, snap, ords), {StatefulSetUnavailableReplicas});
    SetPodsCalm(env, api, goroutines, ords);
    if EverythingRead(api) {
      CollectedPods(api, goroutines);
      SettledIsCalm(env.say, snap, order);
      SettledIff(api, goroutines);
    }
  }

  lemma BackendPods(pods: seq<PodObject>, now: int, fetch: Backends.Fetch)
    ensures Map(PodOf, Backends.BackendSnaps(pods, now, fetch)) == pods
  {
    var snaps := Backends.BackendSnaps(pods, now, fetch);
    forall i | 0 <= i < |pods| ensures Map(PodOf, snaps)[i] == pods[i] {
      assert snaps[i] == Backends.BackendSnapAt(pods, now, fetch, i);
      assert Map(PodOf, snaps)[i] == PodOf(snaps[i]) == snaps[i].pod;
    }
  }

  lemma OrderingRuleIs(say: Wording, snap: SetSnap, pods: seq<PodObject>)
    requires PodsIn(snap) == pods
    ensures OrderingRule(say, snap) != [] <==>
              && !snap.sts.parallel && snap.sts.Desired() != 0
              && FirstUnready(pods).Some? && MissingOrdinals(pods, snap.sts.Desired()) != []
    ensures OrderingRule(say, snap) != [] ==>
              OrderingRule(say, snap) == [OrderingFinding(say, snap, FirstUnready(pods).value, MissingOrdinals(pods, snap.sts.Desired()))]
  {
  }

  lemma InOwned(pods: seq<PodObject>, uid: string, p: PodObject)
    ensures p in OwnedInOrder(pods, uid) <==> p in pods && uid in p.owners
  {
    SortMembers(ByOrdinal(), Filter(OwnedBy(uid), pods), p);
    InFilter(OwnedBy(uid), pods, p);
  }

  lemma RolloutFacts(listed: seq<PodObject>, uid: string, desired: int, k: nat)
    requires InitialRun(Filter(OwnedBy(uid), listed), k) && FirstUnready(OwnedInOrder(listed, uid)).Some?
    ensures var blocker := FirstUnready(OwnedInOrder(listed, uid)).value;
            && blocker in listed && !PodReady(blocker) && Ordinal(blocker.name).Some?
            && (forall p :: p in listed && uid in p.owners && !PodReady(p) ==> Ordinal(p.name).Some? && Ordinal(blocker.name).value <= Ordinal(p.name).value)
            && (forall m :: m in MissingOrdinals(OwnedInOrder(listed, uid), desired) <==> k <= m < desired)
            && (forall m :: m in MissingOrdinals(OwnedInOrder(listed, uid), desired) ==> m > Ordinal(blocker.name).value)
  {
    var pods := OwnedInOrder(listed, uid);
    CollectedAscends(listed, uid);
    forall p ensures p in pods <==> p in listed && uid in p.owners {
      InOwned(listed, uid, p);
    }
    RunPermutes(Filter(OwnedBy(uid), listed), pods, k);
    FirstUnreadyIsLowest(pods);
    MissingIsComplement(pods, desired);
    NeverCreatedFollowBlocker(pods, desired, k);
  }

  lemma CollectedPods(api: SetApi, order: seq<int>)
    ensures CollectedSet(api, order).sts == api.sts && PodsIn(CollectedSet(api, order)) == OwnedPods(api)
  {
    BackendPods(OwnedPods(api), api.now, api.podEvents);
  }

  lemma RolloutFinding(env: Env, api: SetApi, snap: SetSnap, k: nat) returns (blocker: PodObject, missing: seq<int>)
    requires api.selectorError.None? && api.pods.Got?
    requires snap.sts == api.sts && PodsIn(snap) == OwnedPods(api)
    requires InitialRun(Filter(OwnedBy(api.sts.uid), api.pods.value), k)
    requires OrderingRule(env.say, snap) != []
    ensures OrderingRule(env.say, snap) == [OrderingFinding(env.say, snap, blocker, missing)]
    ensures blocker in api.pods.value && !PodReady(blocker) && Ordinal(blocker.name).Some?
    ensures forall p :: p in api.pods.value && api.sts.uid in p.owners && !PodReady(p) ==>
              Ordinal(p.name).Some? && Ordinal(blocker.name).value <= Ordinal(p.name).value
    ensures forall m :: m in missing <==> k <= m < api.sts.Desired()
    ensures forall m :: m in missing ==> m > Ordinal(blocker.name).value
  {
    var pods, desired := OwnedPods(api), api.sts.Desired();
    OrderingRuleIs(env.say, snap, pods);
    RolloutFacts(api.pods.value, api.sts.uid, desired, k);
    blocker, missing := FirstUnready(pods).value, MissingOrdinals(pods, desired);
  }

  /** Ordered rollout, from the API to the finding: whatever order the API lists the Pods in, the
      blocker named is the lowest unready replica, and the replicas listed as never created are
      exactly the absent ones, all of them after it when the Pods present form an initial run. */
  lemma OrderedRollout(env: Env, api: SetApi, order: seq<int>, k: nat) returns (blocker: PodObject, missing: seq<int>)
    requires api.selectorError.None? && api.pods.Got?
    requires InitialRun(Filter(OwnedBy(api.sts.uid), api.pods.value), k)
    requires OrderingRule(env.say, CollectedSet(api, order)) != []
    ensures OrderingRule(env.say, CollectedSet(api, order)) == [OrderingFinding(env.say, CollectedSet(api, order), blocker, missing)]
    ensures blocker in api.pods.value && !PodReady(blocker) && Ordinal(blocker.name).Some?
    ensures forall p :: p in api.pods.value && api.sts.uid in p.owners && !PodReady(p) ==>
              Ordinal(p.name).Some? && Ordinal(blocker.name).value <= Ordinal(p.name).value
    ensures forall m :: m in missing <==> k <= m < api.sts.Desired()
    ensures forall m :: m in missing ==> m > Ordinal(blocker.name).value
  {
    CollectedPods(api, order);
    blocker, missing := RolloutFinding(env, api, CollectedSet(api, order), k);
  }

  lemma RunPermutes(a: seq<PodObject>, b: seq<PodObject>, k: nat)
    requires InitialRun(a, k) && multiset(a) == multiset(b)
    ensures InitialRun(b, k)
  {
    forall p | p in b ensures p in a {
      assert p in multiset(a);
    }
    forall p | p in a ensures p in b {
      assert p in multiset(b);
    }
    forall n ensures Present(b, n) <==> Present(a, n) {
      if Present(a, n) {
        var i :| 0 <= i < |a| && Ordinal(a[i].name).Some? && Ordinal(a[i].name).value == n;
        assert a[i] in b;
      }
      if Present(b, n) {
        var i :| 0 <= i < |b| && Ordinal(b[i].name).Some? && Ordinal(b[i].name).value == n;
        assert b[i] in a;
      }
    }
  }
}
