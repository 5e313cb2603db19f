/** Services: reading endpoints, collecting backends, the Service rules and the report
    (internal/collect/service.go, internal/collect/endpoints.go, internal/diagnosis/rules/service,
    internal/analyze/service.go). */
module Services {
  import opened Sequences
  import opened Model
  import opened Events
  import opened Collecting
  import opened Pods
  import opened PodRules
  import opened Assembly
  import PodTheorems
  import Backends
  import Reports
  import Engine
  import PodHealth

  // ---- Endpoints ----

  datatype Source = EndpointSlice | Endpoints

  datatype Endpoint = Endpoint(address: string, ready: bool)

  datatype EndpointSet = EndpointSet(source: Source, known: bool, addresses: seq<Endpoint>) {
    function Ready(): nat {
      |Filter(IsReady, addresses)|
    }

    function Total(): nat {
      |addresses|
    }

    function Unready(): int {
      Total() - Ready()
    }
  }

  function IsReady(e: Endpoint): bool {
    e.ready
  }

  /** What the two endpoint APIs return. */
  datatype SliceEndpoint = SliceEndpoint(addresses: seq<string>, ready: Option<bool>)

  datatype Subset = Subset(ready: seq<string>, notReady: seq<string>)

  type Slice = seq<SliceEndpoint>

  /** An unset condition means ready; only the first address is kept. */
  function FromSliceEndpoint(e: SliceEndpoint): Endpoint {
    Endpoint(if e.addresses == [] then "" else e.addresses[0], if e.ready.Some? then e.ready.value else true)
  }

  function FromSlice(s: Slice): seq<Endpoint> {
    Map(FromSliceEndpoint, s)
  }

  function FromSlices(slices: seq<Slice>): EndpointSet {
    EndpointSet(EndpointSlice, true, FlatMap(FromSlice, slices))
  }

  method FromEndpointSlices(slices: seq<Slice>) returns (endpoints: EndpointSet)
    ensures endpoints == FromSlices(slices)
  {
    var addresses := [];
    for i := 0 to |slices|
      invariant addresses == FlatMap(FromSlice, slices[..i])
    {
      PrefixStep(slices, i);
      for j := 0 to |slices[i]|
        invariant addresses == FlatMap(FromSlice, slices[..i]) + Map(FromSliceEndpoint, slices[i][..j])
      {
        PrefixStep(slices[i], j);
        MapSnoc(FromSliceEndpoint, slices[i][..j], slices[i][j]);
        addresses := addresses + [FromSliceEndpoint(slices[i][j])];
      }
      assert slices[i][..|slices[i]|] == slices[i];
    }
    assert slices[..|slices|] == slices;
    endpoints := EndpointSet(EndpointSlice, true, addresses);
  }

  function Marked(ready: bool): string -> Endpoint {
    (address: string) => Endpoint(address, ready)
  }

  function FromSubset(s: Subset): seq<Endpoint> {
    Map(Marked(true), s.ready) + Map(Marked(false), s.notReady)
  }

  function Unreadable(source: Source): EndpointSet {
    EndpointSet(source, false, [])
  }

  const ENDPOINTS_PURPOSE := "seeing which Pods actually receive traffic"

  /** No Endpoints object means no endpoints, which is a fact. */
  function LegacyEndpoints(legacy: Read<seq<Subset>>): EndpointSet {
    match legacy
    case Got(subsets) => EndpointSet(Endpoints, true, FlatMap(FromSubset, subsets))
    case NotFound(_) => EndpointSet(Endpoints, true, [])
    case _ => Unreadable(Endpoints)
  }

  function EndpointsOf(slices: Read<seq<Slice>>, legacy: Read<seq<Subset>>): EndpointSet {
    match slices
    case Got(items) => FromSlices(items)
    case NotFound(_) => LegacyEndpoints(legacy)
    case _ => Unreadable(EndpointSlice)
  }

  function EndpointDoubts(slices: Read<seq<Slice>>, legacy: Read<seq<Subset>>): seq<Degradation> {
    match slices
    case Got(_) => []
    case NotFound(_) => Doubt("endpoints", ENDPOINTS_PURPOSE, legacy)
    case _ => Complaint("endpointslices", ENDPOINTS_PURPOSE, slices)
  }

  method ReadSubsets(subsets: seq<Subset>) returns (endpoints: EndpointSet)
    ensures endpoints == EndpointSet(Endpoints, true, FlatMap(FromSubset, subsets))
  {
    var addresses := [];
    for i := 0 to |subsets|
      invariant addresses == FlatMap(FromSubset, subsets[..i])
    {
      PrefixStep(subsets, i);
      addresses := addresses + Map(Marked(true), subsets[i].ready) + Map(Marked(false), subsets[i].notReady);
      assert addresses == FlatMap(FromSubset, subsets[..i]) + FromSubset(subsets[i]);
    }
    assert subsets[..|subsets|] == subsets;
    endpoints := EndpointSet(Endpoints, true, addresses);
  }

  method LegacyEndpointsFor(coll: Collection, legacy: Read<seq<Subset>>) returns (endpoints: EndpointSet)
    requires coll.Valid()
    modifies coll`degradations
    ensures coll.Valid() && coll.degradations == Recorded(old(coll.degradations), Doubt("endpoints", ENDPOINTS_PURPOSE, legacy))
    ensures endpoints == LegacyEndpoints(legacy)
  {
    RecordedNothing(coll.degradations);
    if legacy.Got? {
      endpoints := ReadSubsets(legacy.value);
    } else if legacy.NotFound? {
      endpoints := EndpointSet(Endpoints, true, []);
    } else {
      DegradeRead(coll, "endpoints", ENDPOINTS_PURPOSE, legacy);
      endpoints := Unreadable(Endpoints);
    }
  }

  method EndpointsFor(coll: Collection, slices: Read<seq<Slice>>, legacy: Read<seq<Subset>>) returns (endpoints: EndpointSet)
    requires coll.Valid()
    modifies coll`degradations
    ensures coll.Valid() && coll.degradations == Recorded(old(coll.degradations), EndpointDoubts(slices, legacy))
    ensures endpoints == EndpointsOf(slices, legacy)
  {
    if slices.Got? {
      RecordedNothing(coll.degradations);
      endpoints := FromEndpointSlices(slices.value);
    } else if slices.NotFound? {
      endpoints := LegacyEndpointsFor(coll, legacy);
    } else {
      DegradeRead(coll, "endpointslices", ENDPOINTS_PURPOSE, slices);
      endpoints := Unreadable(EndpointSlice);
    }
  }

  /** Endpoints are unknown exactly when the failed read was recorded. */
  lemma UnknownEndpointsAreRecorded(slices: Read<seq<Slice>>, legacy: Read<seq<Subset>>)
    ensures EndpointsOf(slices, legacy).known <==> EndpointDoubts(slices, legacy) == []
  {
  }

  // ---- The snapshot ----

  /** `target` is the named target port, empty for a numeric one. */
  datatype ServicePort = ServicePort(name: string, port: int, target: string)

  datatype ServiceObject = ServiceObject(
    name: string, ns: string, external: bool, headless: bool, selector: map<string, string>, ports: seq<ServicePort>)

  datatype ServiceSnap = ServiceSnap(
    service: ServiceObject, endpoints: EndpointSet, backends: Option<seq<PodSnap>>, degradations: seq<Degradation>)
  {
    function Ref(): ResourceRef {
      ResourceRef("Service", service.ns, service.name)
    }

    predicate HasSelector() {
      service.selector != map[]
    }

    /** A list that could not be read and an empty list both have length zero. */
    function BackendPods(): seq<PodSnap> {
      if backends.Some? then backends.value else []
    }
  }

  // ---- Rules ----

  function SelectorRule(say: Wording, snap: ServiceSnap): seq<Diagnosis> {
    if snap.service.external then []
    else if !snap.HasSelector() then
      if !snap.endpoints.known || snap.endpoints.Total() > 0 then []
      else [Finding(ServiceNoEndpointsWithoutSelector, snap.Ref(), "", Warning, Certain, say(ServiceNoEndpointsWithoutSelector, 0, []))]
    else if snap.backends.None? || |snap.backends.value| > 0 then []
    else [Finding(ServiceNoMatchingPods, snap.Ref(), "", Critical, Certain, say(ServiceNoMatchingPods, 0, []))]
  }

  function EndpointsRule(say: Wording, snap: ServiceSnap): seq<Diagnosis> {
    if snap.service.external || !snap.endpoints.known then []
    else if snap.HasSelector() && |snap.BackendPods()| == 0 then []
    else if !snap.HasSelector() && snap.endpoints.Total() == 0 then []
    else if snap.endpoints.Ready() == 0 then
      [Finding(ServiceNoReadyEndpoints, snap.Ref(), "", Critical, Certain, say(ServiceNoReadyEndpoints, 0, []))]
    else if snap.endpoints.Unready() > 0 then
      [Finding(ServiceSomeEndpointsNotReady, snap.Ref(), "", Warning, Certain,
               say(ServiceSomeEndpointsNotReady, 0, [Number(snap.endpoints.Unready()), Number(snap.endpoints.Total())]))]
    else []
  }

  function ContainerPortNames(c: Container): seq<string> {
    c.spec.portNames
  }

  function PodPortNames(p: PodSnap): seq<string> {
    FlatMap(ContainerPortNames, Containers(p.pod))
  }

  /** Every named containerPort across the backends. */
  function DeclaredPortNames(backends: seq<PodSnap>): seq<string> {
    FlatMap(PodPortNames, backends)
  }

  function TargetPortOf(say: Wording, snap: ServiceSnap, declared: seq<string>): ServicePort -> seq<Diagnosis> {
    (port: ServicePort) => TargetPort(say, snap, declared, port)
  }

  function TargetPort(say: Wording, snap: ServiceSnap, declared: seq<string>, port: ServicePort): seq<Diagnosis> {
    if port.target == "" || port.target in declared then []
    else [Finding(ServiceTargetPortNotFound, snap.Ref(), say(ServiceTargetPortNotFound, 1, [Text(port.name), Number(port.port)]),
                  Critical, Certain, say(ServiceTargetPortNotFound, 0, [Text(port.target)]))]
  }

  function TargetPortRule(say: Wording, snap: ServiceSnap): seq<Diagnosis> {
    if snap.service.external || |snap.BackendPods()| == 0 then []
    else FlatMap(TargetPortOf(say, snap, DeclaredPortNames(snap.BackendPods())), snap.service.ports)
  }

  function ServiceRules(say: Wording): seq<Engine.Rule<ServiceSnap>> {
    [(s: ServiceSnap) => SelectorRule(say, s), (s: ServiceSnap) => EndpointsRule(say, s), (s: ServiceSnap) => TargetPortRule(say, s)]
  }

  // ---- Backends relative to the Service ----

  function Demote(d: Diagnosis): Diagnosis {
    if d.severity == Critical then d.(severity := Warning) else d
  }

  /** While one endpoint is ready, a broken backend degrades the Service rather than breaking it. */
  function BackendFindings(env: Env, snap: ServiceSnap, ords: seq<MapOrder>): seq<Diagnosis>
    requires |ords| == |snap.BackendPods()|
  {
    if |snap.BackendPods()| == 0 then []
    else if snap.endpoints.Ready() > 0 then Map(Demote, AggregatedPods(env, snap.BackendPods(), ords))
    else AggregatedPods(env, snap.BackendPods(), ords)
  }

  /** The same findings, except that a serving Service is not broken by them. */
  ghost predicate SeenFromService(found: seq<Diagnosis>, out: seq<Diagnosis>, serving: bool) {
    && |out| == |found|
    && forall i :: 0 <= i < |out| ==>
         && out[i].(severity := found[i].severity) == found[i]
         && out[i].severity == if serving && found[i].severity == Critical then Warning else found[i].severity
  }

  lemma SomeReadyIff(e: EndpointSet)
    ensures e.Ready() > 0 <==> exists x :: x in e.addresses && x.ready
  {
    FilterLength(IsReady, e.addresses);
    if exists x :: x in e.addresses && x.ready {
      var x :| x in e.addresses && x.ready;
      var i :| 0 <= i < |e.addresses| && e.addresses[i] == x;
    }
  }

  method CollectBackendFindings(env: Env, snap: ServiceSnap, ords: seq<MapOrder>) returns (out: seq<Diagnosis>)
    requires |ords| == |snap.BackendPods()|
    ensures out == BackendFindings(env, snap, ords)
    ensures snap.BackendPods() != [] ==>
              SeenFromService(AggregatedPods(env, snap.BackendPods(), ords), out, exists e :: e in snap.endpoints.addresses && e.ready)
  {
    if |snap.BackendPods()| == 0 {
      return [];
    }
    var found := AggregatePods(env, snap.BackendPods(), ords);
    out := found;
    SomeReadyIff(snap.endpoints);
    if snap.endpoints.Ready() > 0 {
      out := DemoteAll(found);
    }
  }

  method DemoteAll(found: seq<Diagnosis>) returns (out: seq<Diagnosis>)
    ensures out == Map(Demote, found) && SeenFromService(found, out, true)
  {
    out := found;
    for i := 0 to |found|
      invariant |out| == |found|
      invariant forall j :: 0 <= j < i ==> out[j] == Demote(found[j])
      invariant forall j :: i <= j < |found| ==> out[j] == found[j]
    {
      if out[i].severity == Critical {
        out := out[i := out[i].(severity := Warning)];
      }
    }
    assert out == Map(Demote, found);
  }

  function ServiceFindings(env: Env, snap: ServiceSnap): seq<Diagnosis> {
    Engine.Evaluated(ServiceRules(env.say), snap, |ServiceRules(env.say)|)
  }

  function ServiceDiagnoses(env: Env, snap: ServiceSnap, ords: seq<MapOrder>): seq<Diagnosis>
    requires |ords| == |snap.BackendPods()|
  {
    Assembled(ServiceFindings(env, snap), BackendFindings(env, snap, ords), {ServiceNoReadyEndpoints})
  }

  // ---- Collection ----

  /** Everything the API can answer while one Service is analysed. */
  datatype ServiceApi = ServiceApi(
    service: ServiceObject, events: Read<seq<Event>>, slices: Read<seq<Slice>>, legacy: Read<seq<Subset>>,
    pods: Read<seq<PodObject>>, podEvents: Backends.Fetch, now: int)

  function PodsOf(api: ServiceApi): seq<PodObject> {
    if !api.service.external && api.service.selector != map[] && api.pods.Got? then api.pods.value else []
  }

  const EVENT_PURPOSE := "explaining endpoint and configuration problems"
  const POD_PURPOSE := "finding the Pods the selector matches"

  function BackendDoubts(api: ServiceApi, order: seq<int>): seq<Degradation> {
    if api.service.selector == map[] then []
    else Complaint("pods", POD_PURPOSE, api.pods) + Backends.BackendComplaints(PodsOf(api), api.podEvents, order)
  }

  function BackendsOf(api: ServiceApi): Option<seq<PodSnap>> {
    if api.service.selector != map[] && api.pods.Got? then Some(Backends.BackendSnaps(api.pods.value, api.now, api.podEvents)) else None
  }

  function ServiceDoubts(api: ServiceApi, order: seq<int>): seq<Degradation> {
    Complaint("events", EVENT_PURPOSE, api.events)
    + if api.service.external then [] else EndpointDoubts(api.slices, api.legacy) + BackendDoubts(api, order)
  }

  /** The snapshot for one lock order of the event goroutines. */
  function CollectedService(api: ServiceApi, order: seq<int>): ServiceSnap {
    var degradations := Recorded([], ServiceDoubts(api, order));
    if api.service.external then ServiceSnap(api.service, Unreadable(EndpointSlice), None, degradations)
    else ServiceSnap(api.service, EndpointsOf(api.slices, api.legacy), BackendsOf(api), degradations)
  }

  /** Reads what stands behind a Service that is not a DNS alias. */
  method CollectBackends(coll: Collection, api: ServiceApi) returns (backends: Option<seq<PodSnap>>, ghost order: seq<int>)
    requires coll.Valid() && !api.service.external
    modifies coll`degradations
    ensures coll.Valid() && Backends.Covers(order, |Backends.NeedEvents(PodsOf(api))|)
    ensures coll.degradations == Recorded(old(coll.degradations), BackendDoubts(api, order))
    ensures backends == BackendsOf(api)
  {
    order, backends := [], None;
    assert Backends.NeedEvents([]) == [] by {
      Backends.NeedEventsAreFirstUnready([]);
    }
    RecordedNothing(coll.degradations);
    if api.service.selector != map[] {
      ghost var log := coll.degradations;
      DegradeRead(coll, "pods", POD_PURPOSE, api.pods);
      RecordedNothing(coll.degradations);
      if api.pods.Got? {
        var out;
        out, order := Backends.BackendSnapshots(coll, api.pods.value, api.now, api.podEvents);
        backends := Some(out);
      }
      RecordedTwice(log, Complaint("pods", POD_PURPOSE, api.pods), Backends.BackendComplaints(PodsOf(api), api.podEvents, order));
    }
  }

  method CollectService(api: ServiceApi) returns (snap: ServiceSnap, ghost order: seq<int>)
    ensures Backends.Covers(order, |Backends.NeedEvents(PodsOf(api))|)
    ensures snap == CollectedService(api, order)
  {
    var coll := new Collection();
    order := [];
    assert Backends.NeedEvents([]) == [] by {
      Backends.NeedEventsAreFirstUnready([]);
    }
    DegradeRead(coll, "events", EVENT_PURPOSE, api.events);
    ghost var doubts := Complaint("events", EVENT_PURPOSE, api.events);
    if api.service.external {
      assert doubts + [] == doubts;
      return ServiceSnap(api.service, Unreadable(EndpointSlice), None, coll.degradations), order;
    }
    var endpoints := EndpointsFor(coll, api.slices, api.legacy);
    RecordedTwice([], doubts, EndpointDoubts(api.slices, api.legacy));
    var backends;
    backends, order := CollectBackends(coll, api);
    RecordedTwice([], doubts + EndpointDoubts(api.slices, api.legacy), BackendDoubts(api, order));
    assert doubts + EndpointDoubts(api.slices, api.legacy) + BackendDoubts(api, order) == ServiceDoubts(api, order);
    snap := ServiceSnap(api.service, endpoints, backends, coll.degradations);
  }

  // ---- Safety of the verdict ----

  lemma InThree<S>(rules: seq<Engine.Rule<S>>, snap: S, d: Diagnosis)
    requires |rules| == 3
    ensures d in Engine.Evaluated(rules, snap, |rules|) <==> d in rules[0](snap) || d in rules[1](snap) || d in rules[2](snap)
  {
    Engine.InEvaluated(rules, snap, d);
  }

  lemma ServiceRuleOutputs(say: Wording, snap: ServiceSnap)
    ensures |ServiceRules(say)| == 3
    ensures ServiceRules(say)[0](snap) == SelectorRule(say, snap)
    ensures ServiceRules(say)[1](snap) == EndpointsRule(say, snap)
    ensures ServiceRules(say)[2](snap) == TargetPortRule(say, snap)
  {
  }

  lemma InServiceFindings(env: Env, snap: ServiceSnap, d: Diagnosis)
    ensures d in ServiceFindings(env, snap) <==> d in SelectorRule(env.say, snap) || d in EndpointsRule(env.say, snap) || d in TargetPortRule(env.say, snap)
  {
    ServiceRuleOutputs(env.say, snap);
    InThree(ServiceRules(env.say), snap, d);
  }

  /** Every endpoint is ready, and there is one. */
  ghost predicate AllReady(e: EndpointSet) {
    e.known && e.addresses != [] && forall x :: x in e.addresses ==> x.ready
  }

  lemma {:induction false} ReadyCount(s: seq<Endpoint>)
    ensures |Filter(IsReady, s)| == |s| <==> forall x :: x in s ==> x.ready
  {
    if s != [] {
      ReadyCount(Front(s));
      FilterLength(IsReady, Front(s));
      Snoc(s);
    }
  }

  /** The names of the Service's ports that some backend has to declare are declared. */
  ghost predicate PortsDeclared(ports: seq<ServicePort>, declared: seq<string>) {
    forall p :: p in ports ==> p.target == "" || p.target in declared
  }

  lemma TargetPortsCalm(say: Wording, snap: ServiceSnap)
    ensures Reports.Calm(TargetPortRule(say, snap))
       <==> snap.service.external || snap.BackendPods() == [] || PortsDeclared(snap.service.ports, DeclaredPortNames(snap.BackendPods()))
  {
    var declared := DeclaredPortNames(snap.BackendPods());
    var f, ports := TargetPortOf(say, snap, declared), snap.service.ports;
    if !snap.service.external && snap.BackendPods() != [] {
      Reports.CalmFlatMap(f, ports);
      forall p ensures Reports.Calm(f(p)) <==> p.target == "" || p.target in declared {
        assert f(p) != [] ==> f(p)[0] in f(p) && f(p)[0].severity == Critical;
      }
    }
  }

  lemma FirstRulesCalm(say: Wording, snap: ServiceSnap)
    requires !snap.service.external && snap.endpoints.known && (snap.HasSelector() ==> snap.backends.Some?)
    ensures Reports.Calm(SelectorRule(say, snap) + EndpointsRule(say, snap))
       <==> AllReady(snap.endpoints) && (snap.HasSelector() ==> snap.BackendPods() != [])
  {
    var all := SelectorRule(say, snap) + EndpointsRule(say, snap);
    ReadyCount(snap.endpoints.addresses);
    FilterLength(IsReady, snap.endpoints.addresses);
    assert all != [] ==> all[0] in all && (all[0].severity == Critical || all[0].severity == Warning);
  }

  lemma ServiceRulesCalm(env: Env, snap: ServiceSnap)
    requires !snap.service.external ==> snap.endpoints.known && (snap.HasSelector() ==> snap.backends.Some?)
    ensures Reports.Calm(ServiceFindings(env, snap))
       <==> || snap.service.external
            || (&& AllReady(snap.endpoints) && (snap.HasSelector() ==> snap.BackendPods() != [])
                && (snap.BackendPods() == [] || PortsDeclared(snap.service.ports, DeclaredPortNames(snap.BackendPods()))))
  {
    var first, found := SelectorRule(env.say, snap) + EndpointsRule(env.say, snap), ServiceFindings(env, snap);
    forall d ensures d in found <==> d in first || d in TargetPortRule(env.say, snap) {
      InServiceFindings(env, snap, d);
    }
    assert Reports.Calm(found) <==> Reports.Calm(first) && Reports.Calm(TargetPortRule(env.say, snap));
    TargetPortsCalm(env.say, snap);
    if !snap.service.external {
      FirstRulesCalm(env.say, snap);
    }
  }

  lemma DemoteCalm(ds: seq<Diagnosis>)
    ensures Reports.Calm(Map(Demote, ds)) <==> Reports.Calm(ds)
  {
    var out := Map(Demote, ds);
    forall i | 0 <= i < |ds| ensures out[i] == Demote(ds[i]) && out[i] in out && ds[i] in ds {
    }
  }

  lemma BackendsCalm(env: Env, snap: ServiceSnap, ords: seq<MapOrder>)
    requires |ords| == |snap.BackendPods()|
    ensures Reports.Calm(BackendFindings(env, snap, ords)) <==> Reports.Calm(AggregatedPods(env, snap.BackendPods(), ords))
  {
    DemoteCalm(AggregatedPods(env, snap.BackendPods(), ords));
    if snap.BackendPods() == [] {
      NoPodsNoFindings(env, ords);
    }
  }

  lemma NoPodsNoFindings(env: Env, ords: seq<MapOrder>)
    requires ords == []
    ensures AggregatedPods(env, [], ords) == []
  {
  }

  /** Every read the analysis of this Service depends on succeeded. */
  ghost predicate EverythingRead(api: ServiceApi) {
    && api.events.Got?
    && (api.service.external
        || (&& EndpointsOf(api.slices, api.legacy).known
            && (api.service.selector != map[] ==> api.pods.Got?)
            && forall j :: j in Backends.NeedEvents(PodsOf(api)) ==> api.podEvents(j).Got?))
  }

  lemma ServiceReadIff(api: ServiceApi, order: seq<int>)
    requires Backends.Covers(order, |Backends.NeedEvents(PodsOf(api))|)
    ensures CollectedService(api, order).degradations == [] <==> EverythingRead(api)
  {
    RecordedFacts([], ServiceDoubts(api, order));
    UnknownEndpointsAreRecorded(api.slices, api.legacy);
    Backends.SilentBackends(PodsOf(api), api.podEvents, order);
    Backends.NeedEventsAreFirstUnready([]);
  }

  /** The backends of a Service, whatever the lock order was. */
  function BackendsBehind(api: ServiceApi): seq<PodSnap> {
    Backends.BackendSnaps(PodsOf(api), api.now, api.podEvents)
  }

  /** The Service publishes endpoints, all of them ready, and leads to what it selects. */
  ghost predicate Published(api: ServiceApi) {
    && AllReady(EndpointsOf(api.slices, api.legacy)) && (api.service.selector != map[] ==> PodsOf(api) != [])
    && (PodsOf(api) == [] || PortsDeclared(api.service.ports, DeclaredPortNames(BackendsBehind(api))))
  }

  /** The verdict for any wording, in terms of what the Pods contribute to the report. */
  lemma HealthyByFindings(env: Env, api: ServiceApi, order: seq<int>, ords: seq<MapOrder>)
    requires Backends.Covers(order, |Backends.NeedEvents(PodsOf(api))|) && |ords| == |BackendsBehind(api)|
    ensures CollectedService(api, order).BackendPods() == BackendsBehind(api)
    ensures Reports.Verdict(ServiceDiagnoses(env, CollectedService(api, order), ords), CollectedService(api, order).degradations) == Reports.Healthy
       <==> EverythingRead(api) && (api.service.external || (Published(api) && Reports.Calm(AggregatedPods(env, BackendsBehind(api), ords))))
  {
    var snap := CollectedService(api, order);
    assert snap.BackendPods() == BackendsBehind(api);
    assert |BackendsBehind(api)| == |PodsOf(api)|;
    ServiceReadIff(api, order);
    Reports.HealthyIff(ServiceDiagnoses(env, snap, ords), snap.degradations);
    AssembledCalm(ServiceFindings(env, snap), BackendFindings(env, snap, ords), {ServiceNoReadyEndpoints});
    BackendsCalm(env, snap, ords);
    if EverythingRead(api) {
      ServiceRulesCalm(env, snap);
      if api.service.external {
        NoPodsNoFindings(env, ords);
      }
    }
  }

  /** Traffic sent to the Service reaches Pods that are well. */
  ghost predicate Reachable(api: ServiceApi) {
    Published(api) && PodHealth.AllWell(BackendsBehind(api))
  }

  /** For every API behaviour and every schedule, a Service is reported healthy when every read
      succeeded and it is a DNS alias, or all its endpoints are ready, its selector matches something,
      its named target ports are declared and its Pods are well; and only then, if history and trouble
      are worded apart. */
  lemma HealthyServiceIff(env: Env, api: ServiceApi, order: seq<int>, ords: seq<MapOrder>)
    requires Backends.Covers(order, |Backends.NeedEvents(PodsOf(api))|) && Walked(BackendsBehind(api), ords)
    ensures CollectedService(api, order).BackendPods() == BackendsBehind(api)
    ensures var healthy := Reports.Verdict(ServiceDiagnoses(env, CollectedService(api, order), ords), CollectedService(api, order).degradations) == Reports.Healthy;
            && (EverythingRead(api) && (api.service.external || Reachable(api)) ==> healthy)
            && (healthy ==> EverythingRead(api) && (api.service.external || Published(api)))
            && (PodHealth.HistoryApart(env.say) ==> (healthy <==> EverythingRead(api) && (api.service.external || Reachable(api))))
  {
    HealthyByFindings(env, api, order, ords);
    PodHealth.CalmPodsIff(env, BackendsBehind(api), ords);
  }

  /** In particular only with an endpoint known to be ready, or as a DNS alias. */
  lemma HealthyServiceHasReadyEndpoint(env: Env, api: ServiceApi, order: seq<int>, ords: seq<MapOrder>)
    requires Backends.Covers(order, |Backends.NeedEvents(PodsOf(api))|) && |ords| == |BackendsBehind(api)|
    ensures CollectedService(api, order).BackendPods() == BackendsBehind(api)
    ensures Reports.Verdict(ServiceDiagnoses(env, CollectedService(api, order), ords), CollectedService(api, order).degradations) == Reports.Healthy ==>
              || api.service.external
              || (EndpointsOf(api.slices, api.legacy).known && exists e :: e in EndpointsOf(api.slices, api.legacy).addresses && e.ready)
  {
    HealthyByFindings(env, api, order, ords);
    var e := EndpointsOf(api.slices, api.legacy);
    assert e.addresses != [] ==> e.addresses[0] in e.addresses;
  }

  // ---- No dangling cause ----

  lemma ServiceRulesUncaused(env: Env, snap: ServiceSnap)
    ensures NoDanglingCause(ServiceFindings(env, snap))
  {
    TargetPortsUncaused(env.say, snap);
    FirstRulesUncaused(env.say, snap);
    forall d | d in ServiceFindings(env, snap) ensures d.causedBy == NoID {
      InServiceFindings(env, snap, d);
    }
  }

  lemma FirstRulesUncaused(say: Wording, snap: ServiceSnap)
    ensures PodTheorems.Uncaused(SelectorRule(say, snap)) && PodTheorems.Uncaused(EndpointsRule(say, snap))
  {
  }

  lemma TargetPortsUncaused(say: Wording, snap: ServiceSnap)
    ensures PodTheorems.Uncaused(TargetPortRule(say, snap))
  {
    var declared := DeclaredPortNames(snap.BackendPods());
    var f := TargetPortOf(say, snap, declared);
    forall p ensures PodTheorems.Uncaused(f(p)) {
      assert f(p) == TargetPort(say, snap, declared, p);
    }
    PodTheorems.UncausedFlatMap(f, snap.service.ports);
  }

  lemma DemoteClosed(ds: seq<Diagnosis>)
    requires NoDanglingCause(ds)
    ensures NoDanglingCause(Map(Demote, ds))
  {
    var out := Map(Demote, ds);
    forall i | 0 <= i < |ds| ensures out[i].id == ds[i].id && out[i].causedBy == ds[i].causedBy {
      assert out[i] == Demote(ds[i]);
    }
    ClosedSameLinks(ds, out);
  }

  lemma BackendFindingsClosed(env: Env, snap: ServiceSnap, ords: seq<MapOrder>)
    requires Collected(snap.BackendPods(), ords)
    ensures NoDanglingCause(BackendFindings(env, snap, ords))
  {
    AggregatedPodsClosed(env, snap.BackendPods(), ords);
    DemoteClosed(AggregatedPods(env, snap.BackendPods(), ords));
  }

  lemma ServiceNoDanglingCause(env: Env, api: ServiceApi, order: seq<int>, ords: seq<MapOrder>)
    requires Walked(CollectedService(api, order).BackendPods(), ords)
    ensures NoDanglingCause(ServiceDiagnoses(env, CollectedService(api, order), ords))
  {
    var snap := CollectedService(api, order);
    if snap.backends.Some? {
      BackendsAreCollected(api.pods.value, api.now, api.podEvents, ords);
    }
    ServiceRulesUncaused(env, snap);
    BackendFindingsClosed(env, snap, ords);
    AssembledClosed(ServiceFindings(env, snap), BackendFindings(env, snap, ords), {ServiceNoReadyEndpoints});
  }
}
