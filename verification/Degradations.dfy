/** Which (resource, reason) pairs each collector leaves on record, in the words of the API: exactly
    those of the reads it depends on that failed. */
module Degradations {
  import opened Sequences
  import opened Model
  import opened Collecting
  import opened Pods
  import Storage
  import Backends
  import PodCollect
  import PodReads
  import Services
  import Claims
  import Deployments
  import StatefulSets
  import Ingresses
  import ServiceVerdict
  import SetVerdict
  import IngressVerdict

  // ---- Shared reads ----

  /** The events of some Pod among the first eight that are not ready could not be read. */
  ghost predicate PodEventsFail(pods: seq<PodObject>, fetch: Backends.Fetch, reason: string) {
    exists j :: j in Backends.NeedEvents(pods) && Fails(fetch(j), reason)
  }

  lemma AnswerNotes(answers: Backends.Answers, a: int, resource: string, reason: string)
    requires 0 <= a < |answers|
    ensures Notes(Backends.ComplaintOf(answers)(a), resource, reason) <==> resource == "events" && Fails(answers[a], reason)
  {
    ComplaintNotes("events", Backends.EVENT_PURPOSE, answers[a], resource, reason);
  }

  lemma AnswersNote(answers: Backends.Answers, order: seq<int>, resource: string, reason: string)
    requires Backends.Covers(order, |answers|)
    ensures Notes(FlatMap(Backends.ComplaintOf(answers), order), resource, reason)
       <==> resource == "events" && exists a :: 0 <= a < |answers| && Fails(answers[a], reason)
  {
    var f := Backends.ComplaintOf(answers);
    NotesFlatMap(f, order, resource, reason);
    forall a | 0 <= a < |answers| ensures Notes(f(a), resource, reason) <==> resource == "events" && Fails(answers[a], reason) {
      AnswerNotes(answers, a, resource, reason);
    }
    assert forall a :: a in order <==> 0 <= a < |answers|;
  }

  lemma BackendsNote(pods: seq<PodObject>, fetch: Backends.Fetch, order: seq<int>, resource: string, reason: string)
    requires Backends.Covers(order, |Backends.NeedEvents(pods)|)
    ensures Notes(Backends.BackendComplaints(pods, fetch, order), resource, reason) <==> resource == "events" && PodEventsFail(pods, fetch, reason)
  {
    var need, answers := Backends.NeedEvents(pods), Backends.AnswersTo(pods, fetch);
    AnswersNote(answers, order, resource, reason);
    assert |answers| == |need| && forall a :: 0 <= a < |need| ==> answers[a] == fetch(need[a]);
    if PodEventsFail(pods, fetch, reason) {
      var j :| j in need && Fails(fetch(j), reason);
      var a :| 0 <= a < |need| && need[a] == j;
      assert Fails(answers[a], reason);
    }
    if exists a :: 0 <= a < |answers| && Fails(answers[a], reason) {
      var a :| 0 <= a < |answers| && Fails(answers[a], reason);
      var j := need[a];
      assert j in need && Fails(fetch(j), reason);
      assert PodEventsFail(pods, fetch, reason);
    }
  }

  /** The class a claim relies on could not be looked up. */
  ghost predicate ClassFails(c: Storage.ClaimObject, api: Storage.StorageApi, reason: string) {
    (exists name :: Storage.AsksFor(c, name) && Undecided(api.get(name), reason)) || (Storage.AsksForNothing(c) && Fails(api.list, reason))
  }

  lemma ClassNotes(c: Storage.ClaimObject, api: Storage.StorageApi, resource: string, reason: string)
    ensures Notes(Storage.ClassDoubts(c, api), resource, reason) <==> resource == "storageclasses" && ClassFails(c, api, reason)
  {
    var name := Storage.ClassName(c);
    ComplaintNotes("storageclasses", Storage.DEFAULT_PURPOSE, api.list, resource, reason);
    ComplaintNotes("storageclasses", Storage.CLASS_PURPOSE, api.get(name), resource, reason);
    assert Storage.AsksFor(c, name) <==> !Storage.WantsNone(c) && name != "";
    assert forall n :: Storage.AsksFor(c, n) ==> n == name;
  }

  /** A claim, or the class of one that is not bound, could not be looked up. */
  ghost predicate ClaimFails(answer: Read<Storage.ClaimObject>, classes: Storage.StorageApi, resource: string, reason: string) {
    || (resource == "persistentvolumeclaims" && Undecided(answer, reason))
    || (resource == "storageclasses" && answer.Got? && answer.value.phase != Bound && ClassFails(answer.value, classes, reason))
  }

  lemma ClaimNotes(purpose: string, answer: Read<Storage.ClaimObject>, classes: Storage.StorageApi, resource: string, reason: string)
    ensures Notes(PodCollect.ClaimDoubts(purpose, answer, classes), resource, reason) <==> ClaimFails(answer, classes, resource, reason)
  {
    ComplaintNotes("persistentvolumeclaims", purpose, answer, resource, reason);
    if answer.Got? {
      ClassNotes(answer.value, classes, resource, reason);
    }
  }

  /** Endpoints could not be read from the API that serves them. */
  ghost predicate EndpointsFail(slices: Read<seq<Services.Slice>>, legacy: Read<seq<Services.Subset>>, resource: string, reason: string) {
    || (resource == "endpointslices" && Undecided(slices, reason))
    || (resource == "endpoints" && slices.NotFound? && Undecided(legacy, reason))
  }

  lemma EndpointsNote(slices: Read<seq<Services.Slice>>, legacy: Read<seq<Services.Subset>>, resource: string, reason: string)
    ensures Notes(Services.EndpointDoubts(slices, legacy), resource, reason) <==> EndpointsFail(slices, legacy, resource, reason)
  {
    ComplaintNotes("endpoints", Services.ENDPOINTS_PURPOSE, legacy, resource, reason);
    ComplaintNotes("endpointslices", Services.ENDPOINTS_PURPOSE, slices, resource, reason);
  }

  // ---- Pods ----

  ghost predicate PodFails(api: PodCollect.PodApi, resource: string, reason: string) {
    || (resource == "events" && Fails(api.events, reason))
    || Notes(api.ownerDoubts, resource, reason)
    || (resource == "nodes" && api.pod.nodeName != "" && !SetVerdict.InService(api.pod) && Fails(api.node, reason))
    || (PodReads.ConfigSuspect(api)
        && (|| (resource == "configmaps" && exists n :: PodReads.NeedsConfigMap(api.pod, n) && Undecided(api.configMap(n), reason))
            || (resource == "secrets" && exists n :: PodReads.NeedsSecret(api.pod, n) && Undecided(api.secret(n), reason))))
    || (PodReads.ClaimsSuspect(api) && exists n :: PodReads.Mounts(api.pod, n) && ClaimFails(api.claim(n), api.classes(n), resource, reason))
  }

  lemma ChecksNote(about: string, purpose: string, read: string -> Read<()>, names: seq<string>, resource: string, reason: string)
    ensures Notes(FlatMap(PodCollect.DoubtsAbout(about, purpose, read), names), resource, reason)
       <==> resource == about && exists n :: n in names && Undecided(read(n), reason)
  {
    var f := PodCollect.DoubtsAbout(about, purpose, read);
    NotesFlatMap(f, names, resource, reason);
    forall n ensures Notes(f(n), resource, reason) <==> resource == about && Undecided(read(n), reason) {
      assert f(n) == Doubt(about, purpose, read(n));
      ComplaintNotes(about, purpose, read(n), resource, reason);
    }
  }

  lemma ConfigNotes(api: PodCollect.PodApi, resource: string, reason: string)
    ensures Notes(PodCollect.ConfigDoubts(api), resource, reason) <==>
              && PodReads.ConfigSuspect(api)
              && (|| (resource == "configmaps" && exists n :: PodReads.NeedsConfigMap(api.pod, n) && Undecided(api.configMap(n), reason))
                  || (resource == "secrets" && exists n :: PodReads.NeedsSecret(api.pod, n) && Undecided(api.secret(n), reason)))
  {
    var cms, secs := PodCollect.ConfigMapNames(api), PodCollect.SecretNames(api);
    ChecksNote("configmaps", PodCollect.CONFIGMAP_PURPOSE, api.configMap, cms, resource, reason);
    ChecksNote("secrets", PodCollect.SECRET_PURPOSE, api.secret, secs, resource, reason);
    NotesConcat(FlatMap(PodCollect.DoubtsAbout("configmaps", PodCollect.CONFIGMAP_PURPOSE, api.configMap), cms),
                FlatMap(PodCollect.DoubtsAbout("secrets", PodCollect.SECRET_PURPOSE, api.secret), secs), resource, reason);
    PodReads.ConfigSuspectIff(api);
    forall n ensures n in PodCollect.RequiredConfigMaps(api.pod) <==> PodReads.NeedsConfigMap(api.pod, n) {
      PodReads.ConfigMapsRequired(api.pod, n);
    }
    forall n ensures n in PodCollect.RequiredSecrets(api.pod) <==> PodReads.NeedsSecret(api.pod, n) {
      PodReads.SecretsRequired(api.pod, n);
    }
  }

  lemma MountedClaimsNote(api: PodCollect.PodApi, resource: string, reason: string)
    ensures Notes(FlatMap(PodCollect.ClaimDoubtsAbout(api), PodCollect.ClaimNames(api)), resource, reason)
       <==> PodReads.ClaimsSuspect(api) && exists n :: PodReads.Mounts(api.pod, n) && ClaimFails(api.claim(n), api.classes(n), resource, reason)
  {
    var f, names := PodCollect.ClaimDoubtsAbout(api), PodCollect.ClaimNames(api);
    NotesFlatMap(f, names, resource, reason);
    forall n ensures Notes(f(n), resource, reason) <==> ClaimFails(api.claim(n), api.classes(n), resource, reason) {
      assert f(n) == PodCollect.ClaimDoubts(PodCollect.CLAIM_PURPOSE, api.claim(n), api.classes(n));
      ClaimNotes(PodCollect.CLAIM_PURPOSE, api.claim(n), api.classes(n), resource, reason);
    }
    PodReads.ClaimsSuspectIff(api);
    forall n ensures n in PodCollect.MountedClaims(api.pod.volumes) <==> PodReads.Mounts(api.pod, n) {
      PodReads.ClaimsMounted(api.pod, n);
    }
  }

  /** The pairs on record after a Pod was collected. */
  lemma PodNotes(api: PodCollect.PodApi, resource: string, reason: string)
    ensures Notes(PodCollect.CollectedPod(api).degradations, resource, reason) <==> PodFails(api, resource, reason)
  {
    var events := Complaint("events", PodCollect.EVENT_PURPOSE, api.events);
    var nodes, config := PodCollect.NodeDoubts(api), PodCollect.ConfigDoubts(api);
    RecordedNotes(PodCollect.PodDoubts(api), resource, reason);
    NotesConcat(events, api.ownerDoubts, resource, reason);
    NotesConcat(events + api.ownerDoubts, nodes, resource, reason);
    NotesConcat(events + api.ownerDoubts + nodes, config, resource, reason);
    NotesConcat(events + api.ownerDoubts + nodes + config, FlatMap(PodCollect.ClaimDoubtsAbout(api), PodCollect.ClaimNames(api)), resource, reason);
    ComplaintNotes("events", PodCollect.EVENT_PURPOSE, api.events, resource, reason);
    ComplaintNotes("nodes", PodCollect.NODE_PURPOSE, api.node, resource, reason);
    ReadyIff(api.pod);
    ConfigNotes(api, resource, reason);
    MountedClaimsNote(api, resource, reason);
  }

  // ---- Services ----

  ghost predicate ServiceFails(api: Services.ServiceApi, resource: string, reason: string) {
    || (resource == "events" && Fails(api.events, reason))
    || (!api.service.external
        && (|| EndpointsFail(api.slices, api.legacy, resource, reason)
            || (api.service.selector != map[]
                && (|| (resource == "pods" && Fails(api.pods, reason))
                    || (resource == "events" && api.pods.Got? && PodEventsFail(api.pods.value, api.podEvents, reason))))))
  }

  lemma NoPodEvents(fetch: Backends.Fetch, reason: string)
    ensures !PodEventsFail([], fetch, reason)
  {
    Backends.NeedEventsAreFirstUnready([]);
  }

  /** The pairs on record after a Service was collected, whatever the schedule was. */
  lemma ServiceNotes(api: Services.ServiceApi, order: seq<int>, resource: string, reason: string)
    requires Backends.Covers(order, |Backends.NeedEvents(Services.PodsOf(api))|)
    ensures Notes(Services.CollectedService(api, order).degradations, resource, reason) <==> ServiceFails(api, resource, reason)
  {
    var events, endpoints := Complaint("events", Services.EVENT_PURPOSE, api.events), Services.EndpointDoubts(api.slices, api.legacy);
    var listed, pods := Complaint("pods", Services.POD_PURPOSE, api.pods), Backends.BackendComplaints(Services.PodsOf(api), api.podEvents, order);
    RecordedNotes(Services.ServiceDoubts(api, order), resource, reason);
    NotesConcat(events, endpoints + Services.BackendDoubts(api, order), resource, reason);
    NotesConcat(endpoints, Services.BackendDoubts(api, order), resource, reason);
    NotesConcat(listed, pods, resource, reason);
    NotesConcat(events, [], resource, reason);
    ComplaintNotes("events", Services.EVENT_PURPOSE, api.events, resource, reason);
    ComplaintNotes("pods", Services.POD_PURPOSE, api.pods, resource, reason);
    EndpointsNote(api.slices, api.legacy, resource, reason);
    BackendsNote(Services.PodsOf(api), api.podEvents, order, resource, reason);
    NoPodEvents(api.podEvents, reason);
  }

  // ---- Claims ----

  ghost predicate ClaimReportFails(api: Claims.ClaimApi, resource: string, reason: string) {
    || (resource == "events" && Fails(api.events, reason))
    || (api.claim.phase != Bound
        && (|| (resource == "storageclasses" && ClassFails(api.claim, api.classes, reason))
            || (resource == "pods" && Fails(api.pods, reason))
            || (resource == "events" && PodEventsFail(Claims.Consumers(api), api.podEvents, reason))))
  }

  /** The pairs on record after a claim was collected, whatever the schedule was. */
  lemma ClaimReportNotes(api: Claims.ClaimApi, order: seq<int>, resource: string, reason: string)
    requires api.claim.phase != Bound ==> Backends.Covers(order, |Backends.NeedEvents(Claims.Consumers(api))|)
    ensures Notes(Claims.CollectedClaim(api, order).degradations, resource, reason) <==> ClaimReportFails(api, resource, reason)
  {
    var events, classes := Complaint("events", Claims.EVENT_PURPOSE, api.events), Storage.ClassDoubts(api.claim, api.classes);
    var listed, pods := Complaint("pods", Claims.POD_PURPOSE, api.pods), Backends.BackendComplaints(Claims.Consumers(api), api.podEvents, order);
    RecordedNotes(Claims.ClaimDoubts(api, order), resource, reason);
    NotesConcat(events, classes + (listed + pods), resource, reason);
    NotesConcat(classes, listed + pods, resource, reason);
    NotesConcat(listed, pods, resource, reason);
    NotesConcat(events, [], resource, reason);
    ComplaintNotes("events", Claims.EVENT_PURPOSE, api.events, resource, reason);
    ComplaintNotes("pods", Claims.POD_PURPOSE, api.pods, resource, reason);
    ClassNotes(api.claim, api.classes, resource, reason);
    if api.claim.phase != Bound {
      BackendsNote(Claims.Consumers(api), api.podEvents, order, resource, reason);
    }
  }

  // ---- Deployments ----

  ghost predicate DeploymentFails(api: Deployments.DeploymentApi, resource: string, reason: string) {
    || (resource == "events" && Fails(api.events, reason))
    || (api.selectorError.Some? && resource == "pods" && reason == "Error")
    || (api.selectorError.None?
        && (|| (resource == "replicasets" && Fails(api.replicaSets, reason))
            || (resource == "pods" && Fails(api.pods, reason))
            || (resource == "events" && api.pods.Got? && PodEventsFail(api.pods.value, api.podEvents, reason))))
  }

  /** The pairs on record after a Deployment was collected, whatever the schedule was. */
  lemma DeploymentNotes(api: Deployments.DeploymentApi, order: seq<int>, resource: string, reason: string)
    requires Backends.Covers(order, |Backends.NeedEvents(Deployments.PodsOf(api))|)
    ensures Notes(Deployments.CollectedDeployment(api, order).degradations, resource, reason) <==> DeploymentFails(api, resource, reason)
  {
    var events := Complaint("events", Deployments.EVENT_PURPOSE, api.events);
    var sets, listed := Complaint("replicasets", Deployments.REVISION_PURPOSE, api.replicaSets), Complaint("pods", Deployments.POD_PURPOSE, api.pods);
    var pods := Backends.BackendComplaints(Deployments.PodsOf(api), api.podEvents, order);
    RecordedNotes(Deployments.DeploymentDoubts(api, order), resource, reason);
    NotesConcat(events, Deployments.SelectedDoubts(api, order), resource, reason);
    NotesConcat(sets, listed, resource, reason);
    NotesConcat(sets + listed, pods, resource, reason);
    ComplaintNotes("events", Deployments.EVENT_PURPOSE, api.events, resource, reason);
    ComplaintNotes("replicasets", Deployments.REVISION_PURPOSE, api.replicaSets, resource, reason);
    ComplaintNotes("pods", Deployments.POD_PURPOSE, api.pods, resource, reason);
    BackendsNote(Deployments.PodsOf(api), api.podEvents, order, resource, reason);
    NoPodEvents(api.podEvents, reason);
    if api.selectorError.Some? {
      var d := Degradation("pods", "Error", Deployments.SELECTOR_PURPOSE, api.selectorError.value);
      assert Deployments.SelectedDoubts(api, order) == [d] && d in [d];
    }
  }

  // ---- StatefulSets ----

  ghost predicate SetFails(api: StatefulSets.SetApi, resource: string, reason: string) {
    || (resource == "events" && (Fails(api.events, reason) || PodEventsFail(StatefulSets.OwnedPods(api), api.podEvents, reason)))
    || (resource == "pods" && if api.selectorError.Some? then reason == "Error" else Fails(api.pods, reason))
    || (resource == "services" && api.sts.serviceName != "" && Undecided(api.service, reason))
    || (SetVerdict.Incomplete(api) && exists n :: SetVerdict.ReplicaNeeds(api.sts, n) && ClaimFails(api.claim(n), api.classes(n), resource, reason))
  }

  lemma SetPodsNote(api: StatefulSets.SetApi, order: seq<int>, resource: string, reason: string)
    requires Backends.Covers(order, |Backends.NeedEvents(StatefulSets.OwnedPods(api))|)
    ensures Notes(StatefulSets.PodDoubts(api, order), resource, reason) <==>
              || (resource == "events" && PodEventsFail(StatefulSets.OwnedPods(api), api.podEvents, reason))
              || (resource == "pods" && if api.selectorError.Some? then reason == "Error" else Fails(api.pods, reason))
  {
    var listed, pods := Complaint("pods", StatefulSets.POD_PURPOSE, api.pods), Backends.BackendComplaints(StatefulSets.OwnedPods(api), api.podEvents, order);
    NotesConcat(listed, pods, resource, reason);
    ComplaintNotes("pods", StatefulSets.POD_PURPOSE, api.pods, resource, reason);
    BackendsNote(StatefulSets.OwnedPods(api), api.podEvents, order, resource, reason);
    NoPodEvents(api.podEvents, reason);
    if api.selectorError.Some? {
      var d := Degradation("pods", "Error", StatefulSets.SELECTOR_PURPOSE, api.selectorError.value);
      assert StatefulSets.PodDoubts(api, order) == [d] && d in [d];
    }
  }

  lemma SetClaimsNote(api: StatefulSets.SetApi, resource: string, reason: string)
    ensures Notes(FlatMap(StatefulSets.ClaimDoubtsAbout(api), StatefulSets.ClaimsRead(api)), resource, reason)
       <==> SetVerdict.Incomplete(api) && exists n :: SetVerdict.ReplicaNeeds(api.sts, n) && ClaimFails(api.claim(n), api.classes(n), resource, reason)
  {
    var f, names := StatefulSets.ClaimDoubtsAbout(api), StatefulSets.ClaimsRead(api);
    NotesFlatMap(f, names, resource, reason);
    forall n ensures Notes(f(n), resource, reason) <==> ClaimFails(api.claim(n), api.classes(n), resource, reason) {
      assert f(n) == PodCollect.ClaimDoubts(StatefulSets.CLAIM_PURPOSE, api.claim(n), api.classes(n));
      ClaimNotes(StatefulSets.CLAIM_PURPOSE, api.claim(n), api.classes(n), resource, reason);
    }
    forall n ensures n in names <==> SetVerdict.Incomplete(api) && SetVerdict.ReplicaNeeds(api.sts, n) {
      SetVerdict.ClaimsReadIff(api, n);
    }
  }

  /** The pairs on record after a StatefulSet was collected, whatever the schedule was. */
  lemma SetNotes(api: StatefulSets.SetApi, order: seq<int>, resource: string, reason: string)
    requires Backends.Covers(order, |Backends.NeedEvents(StatefulSets.OwnedPods(api))|)
    ensures Notes(StatefulSets.CollectedSet(api, order).degradations, resource, reason) <==> SetFails(api, resource, reason)
  {
    var events, pods := Complaint("events", StatefulSets.EVENT_PURPOSE, api.events), StatefulSets.PodDoubts(api, order);
    var service, claims := StatefulSets.ServiceDoubts(api), FlatMap(StatefulSets.ClaimDoubtsAbout(api), StatefulSets.ClaimsRead(api));
    RecordedNotes(StatefulSets.SetDoubts(api, order), resource, reason);
    NotesConcat(events, pods, resource, reason);
    NotesConcat(events + pods, service, resource, reason);
    NotesConcat(events + pods + service, claims, resource, reason);
    ComplaintNotes("events", StatefulSets.EVENT_PURPOSE, api.events, resource, reason);
    ComplaintNotes("services", StatefulSets.SERVICE_PURPOSE, api.service, resource, reason);
    SetPodsNote(api, order, resource, reason);
    SetClaimsNote(api, resource, reason);
  }

  // ---- Ingresses ----

  ghost predicate BackendFails(b: Ingresses.BackendApi, resource: string, reason: string) {
    || (resource == "services" && Undecided(b.service, reason))
    || (b.service.Got?
        && (|| EndpointsFail(b.slices, b.legacy, resource, reason)
            || (&& b.service.value.selector != map[] && ServiceVerdict.EndpointsReadable(b.slices, b.legacy)
                && !ServiceVerdict.SomeEndpoint(b.slices, b.legacy, true)
                && (|| (resource == "pods" && Fails(b.pods, reason))
                    || (resource == "events" && b.pods.Got? && PodEventsFail(b.pods.value, b.podEvents, reason))))))
  }

  ghost predicate IngressClassFails(api: Ingresses.IngressApi, reason: string) {
    && !api.ingress.hasAddress
    && (|| (api.ingress.className.Some? && api.ingress.className.value != "" && Undecided(api.ingressClass, reason))
        || (IngressVerdict.AsksForNoClass(api.ingress) && Fails(api.classes, reason)))
  }

  ghost predicate IngressFails(api: Ingresses.IngressApi, resource: string, reason: string) {
    || (resource == "events" && Fails(api.events, reason))
    || (resource == "ingressclasses" && IngressClassFails(api, reason))
    || exists n :: IngressVerdict.LeadsTo(api, n) && BackendFails(api.backend(n), resource, reason)
  }

  lemma BackendNotes(b: Ingresses.BackendApi, order: seq<int>, resource: string, reason: string)
    requires Ingresses.LockOrder(b, order)
    ensures Notes(Ingresses.EntryDoubts(b, order), resource, reason) <==> BackendFails(b, resource, reason)
  {
    var endpoints := Services.EndpointDoubts(b.slices, b.legacy);
    var listed, pods := Complaint("pods", Ingresses.POD_PURPOSE, b.pods), Backends.BackendComplaints(Ingresses.PodsBehind(b), b.podEvents, order);
    NotesConcat(endpoints, Ingresses.PodDoubts(b, order), resource, reason);
    NotesConcat(listed, pods, resource, reason);
    ComplaintNotes("services", Ingresses.SERVICE_PURPOSE, b.service, resource, reason);
    ComplaintNotes("pods", Ingresses.POD_PURPOSE, b.pods, resource, reason);
    EndpointsNote(b.slices, b.legacy, resource, reason);
    BackendsNote(Ingresses.PodsBehind(b), b.podEvents, order, resource, reason);
    NoPodEvents(b.podEvents, reason);
    ServiceVerdict.EndpointFacts(b.slices, b.legacy);
  }

  lemma {:induction false} ResolvedNotes(api: Ingresses.IngressApi, resolved: Ingresses.Log, resource: string, reason: string)
    requires Ingresses.LockOrders(api, resolved)
    ensures Notes(Ingresses.DoubtsIn(api, resolved), resource, reason)
       <==> exists n :: n in Ingresses.NamesRead(resolved) && BackendFails(api.backend(n), resource, reason)
  {
    if resolved != [] {
      var a, x := Front(resolved), Last(resolved);
      assert forall i :: 0 <= i < |a| ==> a[i] == resolved[i];
      assert Ingresses.LockOrder(api.backend(x.0), x.1);
      ResolvedNotes(api, a, resource, reason);
      BackendNotes(api.backend(x.0), x.1, resource, reason);
      NotesConcat(Ingresses.DoubtsIn(api, a), Ingresses.EntryDoubts(api.backend(x.0), x.1), resource, reason);
      assert forall n :: n in Ingresses.NamesRead(resolved) <==> n in Ingresses.NamesRead(a) || n == x.0;
    }
  }

  lemma IngressClassNotes(api: Ingresses.IngressApi, resource: string, reason: string)
    ensures Notes(Ingresses.ClassDoubts(api.ingress, api.ingressClass, api.classes), resource, reason)
       <==> resource == "ingressclasses" && IngressClassFails(api, reason)
  {
    ComplaintNotes("ingressclasses", Ingresses.CLASS_PURPOSE, api.ingressClass, resource, reason);
    ComplaintNotes("ingressclasses", Ingresses.DEFAULT_PURPOSE, api.classes, resource, reason);
  }

  /** The pairs on record after an Ingress was collected, whatever the schedules were. */
  lemma IngressNotes(api: Ingresses.IngressApi, resolved: Ingresses.Log, resource: string, reason: string)
    requires Ingresses.Reads(api, resolved)
    ensures Notes(Ingresses.CollectedIngress(api, resolved).degradations, resource, reason) <==> IngressFails(api, resource, reason)
  {
    var events, classes := Complaint("events", Ingresses.EVENT_PURPOSE, api.events), Ingresses.ClassDoubts(api.ingress, api.ingressClass, api.classes);
    var backends := Ingresses.DoubtsIn(api, resolved);
    RecordedNotes(events + classes + backends, resource, reason);
    NotesConcat(events, classes, resource, reason);
    NotesConcat(events + classes, backends, resource, reason);
    ComplaintNotes("events", Ingresses.EVENT_PURPOSE, api.events, resource, reason);
    IngressClassNotes(api, resource, reason);
    ResolvedNotes(api, resolved, resource, reason);
    forall n ensures n in Ingresses.NamesRead(resolved) <==> IngressVerdict.LeadsTo(api, n) {
      IngressVerdict.NamedIff(api, n);
    }
  }
}
