/** The findings and the verdict about a Service as a table over the answers of the API. */
module ServiceVerdict {
  import opened Sequences
  import opened Model
  import opened Collecting
  import opened Pods
  import opened PodRules
  import opened Assembly
  import opened Services
  import Reports
  import Backends

  // ---- What the API says about endpoints ----

  ghost predicate SliceLists(slices: seq<Slice>, e: Endpoint) {
    exists i, j :: 0 <= i < |slices| && 0 <= j < |slices[i]| && FromApi(slices[i][j], e)
  }

  /** Ready unless the API says otherwise. */
  predicate FromApi(x: SliceEndpoint, e: Endpoint) {
    && (e.ready <==> x.ready != Some(false))
    && (if |x.addresses| == 0 then e.address == "" else e.address == x.addresses[0])
  }

  ghost predicate SubsetLists(subsets: seq<Subset>, e: Endpoint) {
    exists i :: 0 <= i < |subsets| && ((e.ready && e.address in subsets[i].ready) || (!e.ready && e.address in subsets[i].notReady))
  }

  /** The older API is asked only where the newer one is not served. */
  ghost predicate Lists(slices: Read<seq<Slice>>, legacy: Read<seq<Subset>>, e: Endpoint) {
    || (slices.Got? && SliceLists(slices.value, e))
    || (slices.NotFound? && legacy.Got? && SubsetLists(legacy.value, e))
  }

  predicate EndpointsReadable(slices: Read<seq<Slice>>, legacy: Read<seq<Subset>>) {
    slices.Got? || (slices.NotFound? && (legacy.Got? || legacy.NotFound?))
  }

  ghost predicate SomeEndpoint(slices: Read<seq<Slice>>, legacy: Read<seq<Subset>>, ready: bool) {
    exists e: Endpoint :: e.ready == ready && Lists(slices, legacy, e)
  }

  lemma InSlices(slices: seq<Slice>, e: Endpoint)
    ensures e in FromSlices(slices).addresses <==> SliceLists(slices, e)
  {
    InFlatMap(FromSlice, slices, e);
    forall i | 0 <= i < |slices| ensures e in FromSlice(slices[i]) <==> exists j :: 0 <= j < |slices[i]| && FromApi(slices[i][j], e) {
      InMap(FromSliceEndpoint, slices[i], e);
    }
  }

  lemma InSubsets(subsets: seq<Subset>, e: Endpoint)
    ensures e in FlatMap(FromSubset, subsets) <==> SubsetLists(subsets, e)
  {
    InFlatMap(FromSubset, subsets, e);
    forall i | 0 <= i < |subsets|
      ensures e in FromSubset(subsets[i]) <==> (e.ready && e.address in subsets[i].ready) || (!e.ready && e.address in subsets[i].notReady)
    {
      InMap(Services.Marked(true), subsets[i].ready, e);
      InMap(Services.Marked(false), subsets[i].notReady, e);
    }
  }

  /** The endpoint set holds what the API lists, and is known when the API answered. */
  lemma EndpointsAre(slices: Read<seq<Slice>>, legacy: Read<seq<Subset>>)
    ensures EndpointsOf(slices, legacy).known <==> EndpointsReadable(slices, legacy)
    ensures forall e :: e in EndpointsOf(slices, legacy).addresses <==> Lists(slices, legacy, e)
  {
    forall e ensures e in EndpointsOf(slices, legacy).addresses <==> Lists(slices, legacy, e) {
      if slices.Got? {
        InSlices(slices.value, e);
      }
      if legacy.Got? {
        InSubsets(legacy.value, e);
      }
    }
  }

  lemma EndpointCounts(e: EndpointSet)
    ensures e.Ready() > 0 <==> exists x :: x in e.addresses && x.ready
    ensures e.Unready() > 0 <==> exists x :: x in e.addresses && !x.ready
    ensures e.Total() == 0 <==> forall x :: x !in e.addresses
  {
    FilterLength(IsReady, e.addresses);
    ReadyCount(e.addresses);
    if exists x :: x in e.addresses && x.ready {
      var x :| x in e.addresses && x.ready;
      var i :| 0 <= i < |e.addresses| && e.addresses[i] == x;
    }
    if e.addresses != [] {
      assert e.addresses[0] in e.addresses;
    }
  }

  lemma EndpointFacts(slices: Read<seq<Slice>>, legacy: Read<seq<Subset>>)
    ensures var e := EndpointsOf(slices, legacy);
            && (e.known <==> EndpointsReadable(slices, legacy))
            && (e.Ready() > 0 <==> SomeEndpoint(slices, legacy, true))
            && (e.Unready() > 0 <==> SomeEndpoint(slices, legacy, false))
            && (e.Total() == 0 <==> !SomeEndpoint(slices, legacy, true) && !SomeEndpoint(slices, legacy, false))
  {
    EndpointsAre(slices, legacy);
    EndpointCounts(EndpointsOf(slices, legacy));
  }

  // ---- The table ----

  function ServiceRef(api: ServiceApi): ResourceRef {
    ResourceRef("Service", api.service.ns, api.service.name)
  }

  predicate Selects(api: ServiceApi) {
    api.service.selector != map[]
  }

  ghost predicate Ready(api: ServiceApi) {
    SomeEndpoint(api.slices, api.legacy, true)
  }

  ghost predicate NotReady(api: ServiceApi) {
    SomeEndpoint(api.slices, api.legacy, false)
  }

  /** A selector that matches nothing, or no selector and nothing published either. */
  ghost predicate SaysUnmatched(api: ServiceApi, m: Reports.Mark) {
    && !api.service.external
    && if Selects(api) then api.pods.Got? && |api.pods.value| == 0 && m == Reports.Mark(ServiceNoMatchingPods, ServiceRef(api), "", Critical)
       else && EndpointsReadable(api.slices, api.legacy) && !Ready(api) && !NotReady(api)
            && m == Reports.Mark(ServiceNoEndpointsWithoutSelector, ServiceRef(api), "", Warning)
  }

  /** Endpoints that should be ready and are not. */
  ghost predicate SaysUnready(api: ServiceApi, m: Reports.Mark) {
    && !api.service.external && EndpointsReadable(api.slices, api.legacy)
    && (if Selects(api) then api.pods.Got? && |api.pods.value| > 0 else Ready(api) || NotReady(api))
    && (if !Ready(api) then m == Reports.Mark(ServiceNoReadyEndpoints, ServiceRef(api), "", Critical)
        else NotReady(api) && m == Reports.Mark(ServiceSomeEndpointsNotReady, ServiceRef(api), "", Warning))
  }

  /** Some container of some matched Pod declares a port of this name. */
  ghost predicate Declares(pods: seq<PodObject>, target: string) {
    exists p, c :: p in pods && (c in p.initContainers || c in p.containers) && target in c.portNames
  }

  ghost predicate PortSays(say: Wording, api: ServiceApi, port: ServicePort, m: Reports.Mark)
    requires api.pods.Got?
  {
    && port.target != "" && !Declares(api.pods.value, port.target)
    && m == Reports.Mark(ServiceTargetPortNotFound, ServiceRef(api), say(ServiceTargetPortNotFound, 1, [Text(port.name), Number(port.port)]), Critical)
  }

  /** A named target port that no matched Pod declares. */
  ghost predicate SaysUndeclared(say: Wording, api: ServiceApi, m: Reports.Mark) {
    && !api.service.external && Selects(api) && api.pods.Got? && |api.pods.value| > 0
    && exists port :: port in api.service.ports && PortSays(say, api, port, m)
  }

  /** What is to be reported about the Service itself. */
  ghost predicate ServiceSays(say: Wording, api: ServiceApi, m: Reports.Mark) {
    SaysUnmatched(api, m) || SaysUnready(api, m) || SaysUndeclared(say, api, m)
  }

  // ---- The rules agree with it ----

  lemma FirstRulesSay(say: Wording, api: ServiceApi, order: seq<int>, m: Reports.Mark)
    ensures Reports.Marked(SelectorRule(say, CollectedService(api, order)), m) <==> SaysUnmatched(api, m)
    ensures Reports.Marked(EndpointsRule(say, CollectedService(api, order)), m) <==> SaysUnready(api, m)
  {
    var snap := CollectedService(api, order);
    EndpointFacts(api.slices, api.legacy);
    assert Selects(api) && api.pods.Got? && !api.service.external ==> |snap.BackendPods()| == |api.pods.value|;
    Reports.MarkedOne(SelectorRule(say, snap), m);
    Reports.MarkedOne(EndpointsRule(say, snap), m);
  }

  lemma PodDeclares(p: PodSnap, target: string)
    ensures target in PodPortNames(p) <==> exists c :: (c in p.pod.initContainers || c in p.pod.containers) && target in c.portNames
  {
    var cs := Containers(p.pod);
    InFlatMap(ContainerPortNames, cs, target);
    ContainersMerged(p.pod);
    var n := |p.pod.initContainers|;
    forall i | 0 <= i < |cs| ensures cs[i].spec == if i < n then p.pod.initContainers[i] else p.pod.containers[i - n] {
      assert i < n ==> MergesInit(p.pod, i, cs[i]);
      assert i >= n ==> MergesRegular(p.pod, i - n, cs[i]);
    }
    if exists c :: (c in p.pod.initContainers || c in p.pod.containers) && target in c.portNames {
      var c :| (c in p.pod.initContainers || c in p.pod.containers) && target in c.portNames;
      if c in p.pod.initContainers {
        var i :| 0 <= i < n && p.pod.initContainers[i] == c;
        assert cs[i].spec == c;
      } else {
        var i :| 0 <= i < |p.pod.containers| && p.pod.containers[i] == c;
        assert cs[n + i].spec == c;
      }
    }
  }

  lemma DeclaredIff(pods: seq<PodObject>, now: int, fetch: Backends.Fetch, target: string)
    ensures target in DeclaredPortNames(Backends.BackendSnaps(pods, now, fetch)) <==> Declares(pods, target)
  {
    var snaps := Backends.BackendSnaps(pods, now, fetch);
    InFlatMap(PodPortNames, snaps, target);
    forall i | 0 <= i < |snaps|
      ensures target in PodPortNames(snaps[i]) <==> exists c :: (c in pods[i].initContainers || c in pods[i].containers) && target in c.portNames
    {
      assert snaps[i] == Backends.BackendSnapAt(pods, now, fetch, i);
      assert snaps[i].pod == pods[i];
      PodDeclares(snaps[i], target);
    }
    if Declares(pods, target) {
      var p, c :| p in pods && (c in p.initContainers || c in p.containers) && target in c.portNames;
      var i :| 0 <= i < |pods| && pods[i] == p;
      assert target in PodPortNames(snaps[i]);
    }
    if target in DeclaredPortNames(snaps) {
      var i :| 0 <= i < |snaps| && target in PodPortNames(snaps[i]);
      assert pods[i] in pods;
    }
  }

  lemma TargetPortSays(say: Wording, api: ServiceApi, order: seq<int>, port: ServicePort, m: Reports.Mark)
    requires !api.service.external && Selects(api) && api.pods.Got?
    ensures var snap := CollectedService(api, order);
            Reports.Marked(TargetPort(say, snap, DeclaredPortNames(snap.BackendPods()), port), m) <==> PortSays(say, api, port, m)
  {
    var snap := CollectedService(api, order);
    Reports.MarkedOne(TargetPort(say, snap, DeclaredPortNames(snap.BackendPods()), port), m);
    DeclaredIff(api.pods.value, api.now, api.podEvents, port.target);
  }

  lemma TargetPortsSay(say: Wording, api: ServiceApi, order: seq<int>, m: Reports.Mark)
    ensures Reports.Marked(TargetPortRule(say, CollectedService(api, order)), m) <==> SaysUndeclared(say, api, m)
  {
    var snap := CollectedService(api, order);
    var f, ports := TargetPortOf(say, snap, DeclaredPortNames(snap.BackendPods())), api.service.ports;
    if !api.service.external && Selects(api) && api.pods.Got? && |api.pods.value| > 0 {
      Reports.MarkedBySome(f, ports, m);
      forall port ensures Reports.Marked(f(port), m) <==> PortSays(say, api, port, m) {
        TargetPortSays(say, api, order, port, m);
      }
    }
  }

  lemma ServiceRulesMark(env: Env, snap: ServiceSnap, m: Reports.Mark)
    ensures Reports.Marked(ServiceFindings(env, snap), m) <==>
              || Reports.Marked(SelectorRule(env.say, snap), m) || Reports.Marked(EndpointsRule(env.say, snap), m)
              || Reports.Marked(TargetPortRule(env.say, snap), m)
  {
    ServiceRuleOutputs(env.say, snap);
    Reports.MarkedEvaluated(ServiceRules(env.say), snap, m);
  }

  /** The Service rules report exactly what the table says, for every API behaviour and schedule. */
  lemma ServiceRulesSay(env: Env, api: ServiceApi, order: seq<int>, m: Reports.Mark)
    ensures Reports.Marked(ServiceFindings(env, CollectedService(api, order)), m) <==> ServiceSays(env.say, api, m)
  {
    var snap := CollectedService(api, order);
    FirstRulesSay(env.say, api, order, m);
    TargetPortsSay(env.say, api, order, m);
    ServiceRulesMark(env, snap, m);
  }

  // ---- The Pods' findings, as seen from the Service ----

  /** While an endpoint is ready, what breaks a Pod only shakes the Service. */
  ghost predicate PodsSay(env: Env, api: ServiceApi, ords: seq<MapOrder>, m: Reports.Mark)
    requires |ords| == |BackendsBehind(api)|
  {
    var found := AggregatedPods(env, BackendsBehind(api), ords);
    if !api.service.external && Ready(api) then
      && m.severity != Critical
      && (Reports.Marked(found, m) || (m.severity == Warning && Reports.Marked(found, m.(severity := Critical))))
    else Reports.Marked(found, m)
  }

  lemma DemotedMarks(ds: seq<Diagnosis>, m: Reports.Mark)
    ensures Reports.Marked(Map(Demote, ds), m) <==>
              m.severity != Critical && (Reports.Marked(ds, m) || (m.severity == Warning && Reports.Marked(ds, m.(severity := Critical))))
  {
    var out := Map(Demote, ds);
    forall i | 0 <= i < |ds|
      ensures out[i] in out && ds[i] in ds && (Reports.Bears(out[i], m) <==>
                m.severity != Critical && (Reports.Bears(ds[i], m) || (m.severity == Warning && Reports.Bears(ds[i], m.(severity := Critical)))))
    {
      assert out[i] == Demote(ds[i]);
    }
  }

  lemma BackendsMarked(env: Env, api: ServiceApi, order: seq<int>, ords: seq<MapOrder>, m: Reports.Mark)
    requires |ords| == |BackendsBehind(api)|
    ensures CollectedService(api, order).BackendPods() == BackendsBehind(api)
    ensures Reports.Marked(BackendFindings(env, CollectedService(api, order), ords), m) <==> PodsSay(env, api, ords, m)
  {
    var snap := CollectedService(api, order);
    EndpointFacts(api.slices, api.legacy);
    assert snap.BackendPods() == BackendsBehind(api);
    DemotedMarks(AggregatedPods(env, snap.BackendPods(), ords), m);
    if BackendsBehind(api) == [] {
      NoPodsNoFindings(env, ords);
    }
  }

  // ---- The report ----

  /** What a Service report says: what is to be said about the Service, and what its Pods show. */
  lemma ServiceReportSays(env: Env, api: ServiceApi, order: seq<int>, ords: seq<MapOrder>, m: Reports.Mark)
    requires |ords| == |BackendsBehind(api)|
    ensures CollectedService(api, order).BackendPods() == BackendsBehind(api)
    ensures Reports.Marked(ServiceDiagnoses(env, CollectedService(api, order), ords), m) <==> ServiceSays(env.say, api, m) || PodsSay(env, api, ords, m)
  {
    BackendsMarked(env, api, order, ords, m);
    ServiceRulesSay(env, api, order, m);
    var snap := CollectedService(api, order);
    AssembledMarked(ServiceFindings(env, snap), BackendFindings(env, snap, ords), {ServiceNoReadyEndpoints}, m);
  }

  /** The Service has nothing to send traffic to: it selects nothing, none of its endpoints is ready, or a
      target port has no name to lead to. */
  ghost predicate ServiceBroken(api: ServiceApi) {
    && !api.service.external
    && (|| (Selects(api) && api.pods.Got? && |api.pods.value| == 0)
        || (&& EndpointsReadable(api.slices, api.legacy) && !Ready(api)
            && if Selects(api) then api.pods.Got? && |api.pods.value| > 0 else NotReady(api))
        || (&& Selects(api) && api.pods.Got? && |api.pods.value| > 0
            && exists port :: port in api.service.ports && port.target != "" && !Declares(api.pods.value, port.target)))
  }

  ghost predicate ServiceShaky(api: ServiceApi) {
    && !api.service.external && EndpointsReadable(api.slices, api.legacy)
    && (|| (!Selects(api) && !Ready(api) && !NotReady(api))
        || (Ready(api) && NotReady(api) && (Selects(api) ==> api.pods.Got? && |api.pods.value| > 0)))
  }

  lemma ServiceSeverities(say: Wording, api: ServiceApi)
    ensures ServiceBroken(api) <==> exists m: Reports.Mark :: m.severity == Critical && ServiceSays(say, api, m)
    ensures ServiceShaky(api) <==> exists m: Reports.Mark :: m.severity == Warning && ServiceSays(say, api, m)
  {
    var r := ServiceRef(api);
    assert SaysUnmatched(api, Reports.Mark(ServiceNoMatchingPods, r, "", Critical))
      <==> !api.service.external && Selects(api) && api.pods.Got? && |api.pods.value| == 0;
    assert SaysUnready(api, Reports.Mark(ServiceNoReadyEndpoints, r, "", Critical)) <==>
             && !api.service.external && EndpointsReadable(api.slices, api.legacy) && !Ready(api)
             && if Selects(api) then api.pods.Got? && |api.pods.value| > 0 else NotReady(api);
    assert SaysUnmatched(api, Reports.Mark(ServiceNoEndpointsWithoutSelector, r, "", Warning)) <==>
             !api.service.external && !Selects(api) && EndpointsReadable(api.slices, api.legacy) && !Ready(api) && !NotReady(api);
    assert SaysUnready(api, Reports.Mark(ServiceSomeEndpointsNotReady, r, "", Warning)) <==>
             && !api.service.external && EndpointsReadable(api.slices, api.legacy) && Ready(api) && NotReady(api)
             && (Selects(api) ==> api.pods.Got? && |api.pods.value| > 0);
    forall port | && !api.service.external && Selects(api) && api.pods.Got? && |api.pods.value| > 0
                  && port in api.service.ports && port.target != "" && !Declares(api.pods.value, port.target)
      ensures exists m: Reports.Mark :: m.severity == Critical && ServiceSays(say, api, m)
    {
      var m := Reports.Mark(ServiceTargetPortNotFound, r, say(ServiceTargetPortNotFound, 1, [Text(port.name), Number(port.port)]), Critical);
      assert PortSays(say, api, port, m);
      assert ServiceSays(say, api, m);
    }
  }

  ghost function ServiceStatus(env: Env, api: ServiceApi, ords: seq<MapOrder>): Reports.Status
    requires |ords| == |BackendsBehind(api)|
  {
    var found, serving := AggregatedPods(env, BackendsBehind(api), ords), !api.service.external && Ready(api);
    if ServiceBroken(api) || (!serving && Reports.Has(found, Critical)) then Reports.Unhealthy
    else if ServiceShaky(api) || Reports.Has(found, Warning) || (serving && Reports.Has(found, Critical)) then Reports.Degraded
    else if EverythingRead(api) then Reports.Healthy
    else Reports.Status.Unknown
  }

  lemma PodsSeverities(env: Env, api: ServiceApi, ords: seq<MapOrder>)
    requires |ords| == |BackendsBehind(api)|
    ensures var found, serving := AggregatedPods(env, BackendsBehind(api), ords), !api.service.external && Ready(api);
            && ((exists m: Reports.Mark :: m.severity == Critical && PodsSay(env, api, ords, m)) <==> !serving && Reports.Has(found, Critical))
            && ((exists m: Reports.Mark :: m.severity == Warning && PodsSay(env, api, ords, m))
                <==> Reports.Has(found, Warning) || (serving && Reports.Has(found, Critical)))
  {
    var found, serving := AggregatedPods(env, BackendsBehind(api), ords), !api.service.external && Ready(api);
    Reports.HasMarked(found, Critical);
    Reports.HasMarked(found, Warning);
    if serving && Reports.Has(found, Critical) {
      var m: Reports.Mark :| m.severity == Critical && Reports.Marked(found, m);
      assert m == m.(severity := Warning).(severity := Critical);
      assert PodsSay(env, api, ords, m.(severity := Warning));
    }
  }

  /** The exact status of a Service report, for every API behaviour, schedule and wording. */
  lemma ExactServiceStatus(env: Env, api: ServiceApi, order: seq<int>, ords: seq<MapOrder>)
    requires Backends.Covers(order, |Backends.NeedEvents(PodsOf(api))|) && |ords| == |BackendsBehind(api)|
    ensures CollectedService(api, order).BackendPods() == BackendsBehind(api)
    ensures Reports.Verdict(ServiceDiagnoses(env, CollectedService(api, order), ords), CollectedService(api, order).degradations)
         == ServiceStatus(env, api, ords)
  {
    BackendsMarked(env, api, order, ords, Reports.Mark(NoID, ServiceRef(api), "", Info));
    var ds := ServiceDiagnoses(env, CollectedService(api, order), ords);
    Reports.HasMarked(ds, Critical);
    Reports.HasMarked(ds, Warning);
    forall m ensures Reports.Marked(ds, m) <==> ServiceSays(env.say, api, m) || PodsSay(env, api, ords, m) {
      ServiceReportSays(env, api, order, ords, m);
    }
    ServiceSeverities(env.say, api);
    PodsSeverities(env, api, ords);
    ServiceReadIff(api, order);
  }
}
