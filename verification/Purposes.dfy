/** What every entry on record says its read was for. */
module Purposes {
  import opened Sequences
  import opened GroupBy
  import opened Model
  import opened Collecting
  import Pods
  import Storage
  import Backends
  import PodCollect
  import Services
  import Claims
  import Deployments
  import StatefulSets
  import Ingresses

  type Purpose = (string, string) -> bool

  ghost predicate AllServe(ds: seq<Degradation>, p: Purpose) {
    forall d :: d in ds ==> p(d.resource, d.requiredFor)
  }

  lemma ServesFlatMap<T>(f: T -> seq<Degradation>, s: seq<T>, p: Purpose)
    requires forall x :: x in s ==> AllServe(f(x), p)
    ensures AllServe(FlatMap(f, s), p)
  {
    forall d | d in FlatMap(f, s) ensures p(d.resource, d.requiredFor) {
      InFlatMap(f, s, d);
      var i :| 0 <= i < |s| && d in f(s[i]);
      assert s[i] in s;
    }
  }

  lemma ServesConcat(a: seq<Degradation>, b: seq<Degradation>, p: Purpose)
    requires AllServe(a, p) && AllServe(b, p)
    ensures AllServe(a + b, p)
  {
  }

  lemma ServesRecorded(attempts: seq<Degradation>, p: Purpose)
    requires AllServe(attempts, p)
    ensures AllServe(Recorded([], attempts), p)
  {
    assert [] + attempts == attempts;
    forall d | d in Recorded([], attempts) ensures p(d.resource, d.requiredFor) {
      FirstsSubset(DegKey, attempts, d);
    }
  }

  // ---- Shared reads ----

  lemma BackendsServe(pods: seq<Pods.PodObject>, fetch: Backends.Fetch, order: seq<int>, p: Purpose)
    requires Backends.Covers(order, |Backends.NeedEvents(pods)|) && p("events", "explaining why backend Pods are not ready")
    ensures AllServe(Backends.BackendComplaints(pods, fetch, order), p)
  {
    var answers := Backends.AnswersTo(pods, fetch);
    forall a | a in order ensures AllServe(Backends.ComplaintOf(answers)(a), p) {
    }
    ServesFlatMap(Backends.ComplaintOf(answers), order, p);
  }

  lemma ClassServes(c: Storage.ClaimObject, api: Storage.StorageApi, p: Purpose)
    requires p("storageclasses", "checking the requested storage class exists") && p("storageclasses", "identifying the default storage class")
    ensures AllServe(Storage.ClassDoubts(c, api), p)
  {
  }

  lemma ClaimServes(purpose: string, answer: Read<Storage.ClaimObject>, classes: Storage.StorageApi, p: Purpose)
    requires p("storageclasses", "checking the requested storage class exists") && p("storageclasses", "identifying the default storage class")
    requires p("persistentvolumeclaims", purpose)
    ensures AllServe(PodCollect.ClaimDoubts(purpose, answer, classes), p)
  {
    if answer.Got? {
      ClassServes(answer.value, classes, p);
    }
  }

  lemma EndpointsServe(slices: Read<seq<Services.Slice>>, legacy: Read<seq<Services.Subset>>, p: Purpose)
    requires p("endpointslices", "seeing which Pods actually receive traffic") && p("endpoints", "seeing which Pods actually receive traffic")
    ensures AllServe(Services.EndpointDoubts(slices, legacy), p)
  {
  }

  // ---- Pods ----

  function PodPurpose(owners: seq<Degradation>): Purpose {
    (resource, purpose) =>
      || (resource == "events" && purpose == "explaining scheduling, image pull and probe failures")
      || (resource == "nodes" && purpose == "evaluating node conditions")
      || (resource == "configmaps" && purpose == "checking referenced configuration")
      || (resource == "secrets" && purpose == "checking referenced secrets exist")
      || (resource == "persistentvolumeclaims" && purpose == "checking mounted volumes are bound")
      || (resource == "storageclasses" && purpose == "checking the requested storage class exists")
      || (resource == "storageclasses" && purpose == "identifying the default storage class")
      || exists d :: d in owners && d.resource == resource && d.requiredFor == purpose
  }

  lemma ChecksServe(resource: string, purpose: string, read: string -> Read<()>, names: seq<string>, p: Purpose)
    requires p(resource, purpose)
    ensures AllServe(FlatMap(PodCollect.DoubtsAbout(resource, purpose, read), names), p)
  {
    ServesFlatMap(PodCollect.DoubtsAbout(resource, purpose, read), names, p);
  }

  lemma MountedServe(api: PodCollect.PodApi, p: Purpose)
    requires p("storageclasses", "checking the requested storage class exists") && p("storageclasses", "identifying the default storage class")
    requires p("persistentvolumeclaims", "checking mounted volumes are bound")
    ensures AllServe(FlatMap(PodCollect.ClaimDoubtsAbout(api), PodCollect.ClaimNames(api)), p)
  {
    var f := PodCollect.ClaimDoubtsAbout(api);
    forall n ensures AllServe(f(n), p) {
      ClaimServes(PodCollect.CLAIM_PURPOSE, api.claim(n), api.classes(n), p);
    }
    ServesFlatMap(f, PodCollect.ClaimNames(api), p);
  }

  lemma OwnersServe(owners: seq<Degradation>)
    ensures AllServe(owners, PodPurpose(owners))
  {
  }

  lemma ConfigServes(api: PodCollect.PodApi, p: Purpose)
    requires p("configmaps", "checking referenced configuration") && p("secrets", "checking referenced secrets exist")
    ensures AllServe(PodCollect.ConfigDoubts(api), p)
  {
    ChecksServe("configmaps", PodCollect.CONFIGMAP_PURPOSE, api.configMap, PodCollect.ConfigMapNames(api), p);
    ChecksServe("secrets", PodCollect.SECRET_PURPOSE, api.secret, PodCollect.SecretNames(api), p);
  }

  lemma ReadsServe(api: PodCollect.PodApi, p: Purpose)
    requires p("events", "explaining scheduling, image pull and probe failures") && p("nodes", "evaluating node conditions")
    ensures AllServe(Complaint("events", PodCollect.EVENT_PURPOSE, api.events), p) && AllServe(PodCollect.NodeDoubts(api), p)
  {
  }

  lemma FiveServe(a: seq<Degradation>, b: seq<Degradation>, c: seq<Degradation>, d: seq<Degradation>, e: seq<Degradation>, p: Purpose)
    requires AllServe(a, p) && AllServe(b, p) && AllServe(c, p) && AllServe(d, p) && AllServe(e, p)
    ensures AllServe(a + b + c + d + e, p)
  {
    ServesConcat(a, b, p);
    ServesConcat(a + b, c, p);
    ServesConcat(a + b + c, d, p);
    ServesConcat(a + b + c + d, e, p);
  }

  /** What every failed read of a Pod's collector was for. */
  lemma PodPurposes(api: PodCollect.PodApi)
    ensures AllServe(PodCollect.CollectedPod(api).degradations, PodPurpose(api.ownerDoubts))
  {
    var p := PodPurpose(api.ownerDoubts);
    var events := Complaint("events", PodCollect.EVENT_PURPOSE, api.events);
    var claims := FlatMap(PodCollect.ClaimDoubtsAbout(api), PodCollect.ClaimNames(api));
    ReadsServe(api, p);
    ConfigServes(api, p);
    MountedServe(api, p);
    OwnersServe(api.ownerDoubts);
    FiveServe(events, api.ownerDoubts, PodCollect.NodeDoubts(api), PodCollect.ConfigDoubts(api), claims, p);
    ServesRecorded(PodCollect.PodDoubts(api), p);
  }

  // ---- Services ----

  function ServicePurpose(resource: string, purpose: string): bool {
    || (resource == "events" && purpose == "explaining endpoint and configuration problems")
    || (resource == "events" && purpose == "explaining why backend Pods are not ready")
    || (resource == "endpointslices" && purpose == "seeing which Pods actually receive traffic")
    || (resource == "endpoints" && purpose == "seeing which Pods actually receive traffic")
    || (resource == "pods" && purpose == "finding the Pods the selector matches")
  }

  lemma ServicePurposes(api: Services.ServiceApi, order: seq<int>)
    requires Backends.Covers(order, |Backends.NeedEvents(Services.PodsOf(api))|)
    ensures AllServe(Services.CollectedService(api, order).degradations, ServicePurpose)
  {
    BackendsServe(Services.PodsOf(api), api.podEvents, order, ServicePurpose);
    EndpointsServe(api.slices, api.legacy, ServicePurpose);
    ServesRecorded(Services.ServiceDoubts(api, order), ServicePurpose);
  }

  // ---- Claims ----

  function ClaimPurpose(resource: string, purpose: string): bool {
    || (resource == "events" && purpose == "explaining why provisioning or binding has not completed")
    || (resource == "events" && purpose == "explaining why backend Pods are not ready")
    || (resource == "pods" && purpose == "finding which Pods use this claim")
    || (resource == "storageclasses" && purpose == "checking the requested storage class exists")
    || (resource == "storageclasses" && purpose == "identifying the default storage class")
  }

  lemma ClaimPurposes(api: Claims.ClaimApi, order: seq<int>)
    requires Backends.Covers(order, |Backends.NeedEvents(Claims.Consumers(api))|)
    ensures AllServe(Claims.CollectedClaim(api, order).degradations, ClaimPurpose)
  {
    BackendsServe(Claims.Consumers(api), api.podEvents, order, ClaimPurpose);
    ClassServes(api.claim, api.classes, ClaimPurpose);
    ServesRecorded(Claims.ClaimDoubts(api, order), ClaimPurpose);
  }

  // ---- Deployments ----

  function DeploymentPurpose(resource: string, purpose: string): bool {
    || (resource == "events" && purpose == "explaining failed rollouts and rejected Pods")
    || (resource == "events" && purpose == "explaining why backend Pods are not ready")
    || (resource == "replicasets" && purpose == "identifying the current revision")
    || (resource == "pods" && purpose == "finding the Pods this Deployment owns")
    || (resource == "pods" && purpose == "diagnosing the Pods this Deployment owns")
  }

  lemma DeploymentPurposes(api: Deployments.DeploymentApi, order: seq<int>)
    requires Backends.Covers(order, |Backends.NeedEvents(Deployments.PodsOf(api))|)
    ensures AllServe(Deployments.CollectedDeployment(api, order).degradations, DeploymentPurpose)
  {
    BackendsServe(Deployments.PodsOf(api), api.podEvents, order, DeploymentPurpose);
    ServesRecorded(Deployments.DeploymentDoubts(api, order), DeploymentPurpose);
  }

  // ---- StatefulSets ----

  function SetPurpose(resource: string, purpose: string): bool {
    || (resource == "events" && purpose == "explaining failed Pod and volume creation")
    || (resource == "events" && purpose == "explaining why backend Pods are not ready")
    || (resource == "pods" && purpose == "finding the Pods this StatefulSet owns")
    || (resource == "pods" && purpose == "diagnosing the Pods this StatefulSet owns")
    || (resource == "services" && purpose == "checking the governing Service exists")
    || (resource == "persistentvolumeclaims" && purpose == "checking the volumes each replica needs are bound")
    || (resource == "storageclasses" && purpose == "checking the requested storage class exists")
    || (resource == "storageclasses" && purpose == "identifying the default storage class")
  }

  lemma SetPurposes(api: StatefulSets.SetApi, order: seq<int>)
    requires Backends.Covers(order, |Backends.NeedEvents(StatefulSets.OwnedPods(api))|)
    ensures AllServe(StatefulSets.CollectedSet(api, order).degradations, SetPurpose)
  {
    var f := StatefulSets.ClaimDoubtsAbout(api);
    BackendsServe(StatefulSets.OwnedPods(api), api.podEvents, order, SetPurpose);
    forall n ensures AllServe(f(n), SetPurpose) {
      ClaimServes(StatefulSets.CLAIM_PURPOSE, api.claim(n), api.classes(n), SetPurpose);
    }
    ServesFlatMap(f, StatefulSets.ClaimsRead(api), SetPurpose);
    ServesRecorded(StatefulSets.SetDoubts(api, order), SetPurpose);
  }

  // ---- Ingresses ----

  function IngressPurpose(resource: string, purpose: string): bool {
    || (resource == "events" && purpose == "explaining what the ingress controller reported")
    || (resource == "events" && purpose == "explaining why backend Pods are not ready")
    || (resource == "services" && purpose == "following the Ingress to its backend")
    || (resource == "pods" && purpose == "explaining why a backend Service has no endpoints")
    || (resource == "ingressclasses" && purpose == "checking the ingress class exists")
    || (resource == "ingressclasses" && purpose == "checking whether a default ingress class exists")
    || (resource == "endpointslices" && purpose == "seeing which Pods actually receive traffic")
    || (resource == "endpoints" && purpose == "seeing which Pods actually receive traffic")
  }

  lemma EntryServes(b: Ingresses.BackendApi, order: seq<int>)
    requires Ingresses.LockOrder(b, order)
    ensures AllServe(Ingresses.EntryDoubts(b, order), IngressPurpose)
  {
    BackendsServe(Ingresses.PodsBehind(b), b.podEvents, order, IngressPurpose);
    EndpointsServe(b.slices, b.legacy, IngressPurpose);
  }

  lemma {:induction false} ResolvedServe(api: Ingresses.IngressApi, resolved: Ingresses.Log)
    requires Ingresses.LockOrders(api, resolved)
    ensures AllServe(Ingresses.DoubtsIn(api, resolved), IngressPurpose)
  {
    if resolved != [] {
      assert forall i :: 0 <= i < |resolved| - 1 ==> Front(resolved)[i] == resolved[i];
      assert Ingresses.LockOrder(api.backend(Last(resolved).0), Last(resolved).1);
      ResolvedServe(api, Front(resolved));
      EntryServes(api.backend(Last(resolved).0), Last(resolved).1);
    }
  }

  lemma EarlyServe(api: Ingresses.IngressApi)
    ensures AllServe(Ingresses.EarlyDoubts(api), IngressPurpose)
  {
  }

  lemma IngressPurposes(api: Ingresses.IngressApi, resolved: Ingresses.Log)
    requires Ingresses.Reads(api, resolved)
    ensures AllServe(Ingresses.CollectedIngress(api, resolved).degradations, IngressPurpose)
  {
    ResolvedServe(api, resolved);
    EarlyServe(api);
    ServesConcat(Ingresses.EarlyDoubts(api), Ingresses.DoubtsIn(api, resolved), IngressPurpose);
    ServesRecorded(Ingresses.EarlyDoubts(api) + Ingresses.DoubtsIn(api, resolved), IngressPurpose);
  }
}
