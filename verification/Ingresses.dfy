/** Ingresses: the walk from routes to Services to endpoints (internal/collect/ingress.go,
    internal/diagnosis/rules/ingress, internal/analyze/ingress.go). */
module Ingresses {
  import opened Sequences
  import opened GroupBy
  import opened Text
  import opened Model
  import opened Events
  import opened Collecting
  import opened Pods
  import opened PodRules
  import opened Services
  import Backends

  // ---- The Ingress and its routing table ----

  datatype Port = Port(name: string, number: int) {
    function Show(): string {
      if name != "" then name else DecimalInt(number)
    }
  }

  datatype BackendRef = BackendRef(service: string, port: Port)

  datatype HttpPath = HttpPath(path: string, backend: Option<BackendRef>)

  datatype HostRule = HostRule(host: string, paths: Option<seq<HttpPath>>)

  datatype IngressObject = IngressObject(
    name: string, ns: string, className: Option<string>, annotation: string, hasAddress: bool, createdAt: int,
    defaultBackend: Option<BackendRef>, rules: seq<HostRule>)

  datatype Path = Path(host: string, path: string, service: string, port: Port, isDefault: bool) {
    function Route(): string {
      if isDefault then "(default backend)"
      else (if host == "" then "*" else host) + if path == "" then "/" else path
    }

    function Target(): string {
      "Service/" + service + ":" + port.Show()
    }
  }

  function PathOf(host: string): HttpPath -> Path {
    (p: HttpPath) =>
      if p.backend.Some? then Path(host, p.path, p.backend.value.service, p.backend.value.port, false)
      else Path(host, p.path, "", Port("", 0), false)
  }

  function RulePaths(r: HostRule): seq<Path> {
    if r.paths.None? then [] else Map(PathOf(r.host), r.paths.value)
  }

  function DefaultPath(b: Option<BackendRef>): seq<Path> {
    if b.None? then [] else [Path("", "", b.value.service, b.value.port, true)]
  }

  function Paths(ing: IngressObject): seq<Path> {
    DefaultPath(ing.defaultBackend) + FlatMap(RulePaths, ing.rules)
  }

  method FlattenRule(r: HostRule) returns (out: seq<Path>)
    ensures out == RulePaths(r)
  {
    out := [];
    if r.paths.None? {
      return;
    }
    var paths := r.paths.value;
    for j := 0 to |paths|
      invariant out == Map(PathOf(r.host), paths[..j])
    {
      PrefixStep(paths, j);
      MapSnoc(PathOf(r.host), paths[..j], paths[j]);
      out := out + [PathOf(r.host)(paths[j])];
    }
    assert paths[..|paths|] == paths;
  }

  method FlattenPaths(ing: IngressObject) returns (out: seq<Path>)
    ensures out == Paths(ing)
  {
    var head := DefaultPath(ing.defaultBackend);
    var routed := [];
    for i := 0 to |ing.rules|
      invariant routed == FlatMap(RulePaths, ing.rules[..i])
    {
      PrefixStep(ing.rules, i);
      var more := FlattenRule(ing.rules[i]);
      routed := routed + more;
    }
    assert ing.rules[..|ing.rules|] == ing.rules;
    out := head + routed;
  }

  // ---- Collection ----

  /** What the API answers about one backend Service. */
  datatype BackendApi = BackendApi(
    service: Read<ServiceObject>, slices: Read<seq<Slice>>, legacy: Read<seq<Subset>>, pods: Read<seq<PodObject>>, podEvents: Backends.Fetch)

  datatype IngressClass = IngressClass(name: string, existence: Existence, defaultExists: Existence)

  datatype ClassEntry = ClassEntry(name: string, isDefault: bool)

  datatype IngressApi = IngressApi(
    ingress: IngressObject, events: Read<seq<Event>>, ingressClass: Read<()>, classes: Read<seq<ClassEntry>>,
    backend: string -> BackendApi, now: int)

  datatype Backend = Backend(name: string, existence: Existence, service: Option<ServiceObject>, endpoints: EndpointSet, pods: seq<PodSnap>) {
    predicate HasPort(port: Port) {
      service.Some? && exists i :: 0 <= i < |service.value.ports| && Exposes(service.value.ports[i], port)
    }
  }

  predicate Exposes(p: ServicePort, port: Port) {
    if port.name != "" then p.name == port.name else p.port == port.number
  }

  datatype IngressSnap = IngressSnap(
    ingress: IngressObject, paths: seq<Path>, services: map<string, Backend>, ingressClass: IngressClass, degradations: seq<Degradation>, now: int)
  {
    function Ref(): ResourceRef {
      ResourceRef("Ingress", ingress.ns, ingress.name)
    }
  }

  const EVENT_PURPOSE := "explaining what the ingress controller reported"
  const SERVICE_PURPOSE := "following the Ingress to its backend"
  const POD_PURPOSE := "explaining why a backend Service has no endpoints"
  const CLASS_PURPOSE := "checking the ingress class exists"
  const DEFAULT_PURPOSE := "checking whether a default ingress class exists"

  /** The Pods are only read when the Service publishes nothing. */
  predicate NeedsPods(api: BackendApi) {
    && api.service.Got? && EndpointsOf(api.slices, api.legacy).known && EndpointsOf(api.slices, api.legacy).Ready() == 0
    && api.service.value.selector != map[]
  }

  function PodsBehind(api: BackendApi): seq<PodObject> {
    if NeedsPods(api) && api.pods.Got? then api.pods.value else []
  }

  function BackendEntry(name: string, api: BackendApi, now: int): Backend {
    if !api.service.Got? then Backend(name, ExistenceIn(api.service), None, Unreadable(EndpointSlice), [])
    else Backend(name, Found, Some(api.service.value), EndpointsOf(api.slices, api.legacy), Backends.BackendSnaps(PodsBehind(api), now, api.podEvents))
  }

  function PodDoubts(api: BackendApi, order: seq<int>): seq<Degradation> {
    if !NeedsPods(api) then []
    else Complaint("pods", POD_PURPOSE, api.pods) + Backends.BackendComplaints(PodsBehind(api), api.podEvents, order)
  }

  function EntryDoubts(api: BackendApi, order: seq<int>): seq<Degradation> {
    if api.service.Got? then EndpointDoubts(api.slices, api.legacy) + PodDoubts(api, order)
    else Doubt("services", SERVICE_PURPOSE, api.service)
  }

  /** `order` is one the goroutines of this backend can take the lock in. */
  ghost predicate LockOrder(api: BackendApi, order: seq<int>) {
    Backends.Covers(order, |Backends.NeedEvents(PodsBehind(api))|)
  }

  method CollectBackendPods(coll: Collection, api: BackendApi, now: int) returns (pods: seq<PodSnap>, ghost order: seq<int>)
    requires coll.Valid()
    modifies coll`degradations
    ensures coll.Valid() && coll.degradations == Recorded(old(coll.degradations), PodDoubts(api, order))
    ensures pods == Backends.BackendSnaps(PodsBehind(api), now, api.podEvents) && LockOrder(api, order)
  {
    order, pods := [], [];
    assert Backends.NeedEvents([]) == [] by {
      Backends.NeedEventsAreFirstUnready([]);
    }
    RecordedNothing(coll.degradations);
    if !NeedsPods(api) {
      return;
    }
    ghost var log := coll.degradations;
    DegradeRead(coll, "pods", POD_PURPOSE, api.pods);
    RecordedNothing(coll.degradations);
    if api.pods.Got? {
      pods, order := Backends.BackendSnapshots(coll, api.pods.value, now, api.podEvents);
    }
    RecordedTwice(log, Complaint("pods", POD_PURPOSE, api.pods), Backends.BackendComplaints(PodsBehind(api), api.podEvents, order));
  }

  method CollectBackend(coll: Collection, name: string, api: BackendApi, now: int) returns (entry: Backend, ghost order: seq<int>)
    requires coll.Valid()
    modifies coll`degradations
    ensures coll.Valid() && coll.degradations == Recorded(old(coll.degradations), EntryDoubts(api, order))
    ensures entry == BackendEntry(name, api, now) && LockOrder(api, order)
  {
    ghost var log := coll.degradations;
    order := [];
    assert Backends.NeedEvents([]) == [] by {
      Backends.NeedEventsAreFirstUnready([]);
    }
    RecordedNothing(log);
    var e := CheckExistence(coll, "services", SERVICE_PURPOSE, api.service);
    if !api.service.Got? {
      return Backend(name, e, None, Unreadable(EndpointSlice), []), order;
    }
    var endpoints := EndpointsFor(coll, api.slices, api.legacy);
    var pods;
    pods, order := CollectBackendPods(coll, api, now);
    RecordedTwice(log, EndpointDoubts(api.slices, api.legacy), PodDoubts(api, order));
    entry := Backend(name, e, Some(api.service.value), endpoints, pods);
  }

  function ServiceOf(p: Path): string {
    p.service
  }

  function NonEmpty(s: string): bool {
    s != ""
  }

  /** The distinct backend Services, in the order the paths name them. */
  function ServicesNamed(paths: seq<Path>): seq<string> {
    Firsts(Self, Filter(NonEmpty, Map(ServiceOf, paths)))
  }

  lemma ServicesNamedStep(paths: seq<Path>, i: nat)
    requires i < |paths|
    ensures ServicesNamed(paths[..i + 1])
         == if paths[i].service == "" || paths[i].service in ServicesNamed(paths[..i]) then ServicesNamed(paths[..i])
            else ServicesNamed(paths[..i]) + [paths[i].service]
  {
    PrefixStep(paths, i);
    MapSnoc(ServiceOf, paths[..i], paths[i]);
    var names := Map(ServiceOf, paths[..i]);
    var kept := Filter(NonEmpty, names);
    var s := paths[i].service;
    assert Front(names + [s]) == names && Front(kept + [s]) == kept;
    FirstsCover(Self, s, kept);
    var u := Firsts(Self, kept);
    assert forall j :: 0 <= j < |u| ==> Self(u[j]) == u[j];
  }

  lemma ServicesNamedIff(paths: seq<Path>, name: string)
    ensures name in ServicesNamed(paths) <==> name != "" && exists i :: 0 <= i < |paths| && paths[i].service == name
    ensures Distinct(ServicesNamed(paths))
  {
    var names := Map(ServiceOf, paths);
    var kept := Filter(NonEmpty, names);
    FirstsCover(Self, name, kept);
    FirstsDistinct(Self, kept);
    var u := Firsts(Self, kept);
    assert forall j :: 0 <= j < |u| ==> Self(u[j]) == u[j];
    assert forall j :: 0 <= j < |kept| ==> Self(kept[j]) == kept[j];
    InFilter(NonEmpty, names, name);
    InMap(ServiceOf, paths, name);
    assert forall i :: 0 <= i < |paths| ==> ServiceOf(paths[i]) == paths[i].service;
  }

  function BackendMap(api: IngressApi, names: seq<string>): map<string, Backend> {
    map n | n in names :: BackendEntry(n, api.backend(n), api.now)
  }

  /** One entry per resolution of a Service: its name, and the lock order of its event goroutines. */
  type Log = seq<(string, seq<int>)>

  /** What was asked of the API, in order, and what each request complained about. */
  ghost function DoubtsIn(api: IngressApi, resolved: Log): seq<Degradation> {
    if resolved == [] then [] else DoubtsIn(api, Front(resolved)) + EntryDoubts(api.backend(Last(resolved).0), Last(resolved).1)
  }

  ghost function NamesRead(resolved: Log): seq<string> {
    if resolved == [] then [] else NamesRead(Front(resolved)) + [Last(resolved).0]
  }

  ghost predicate LockOrders(api: IngressApi, resolved: Log) {
    forall i :: 0 <= i < |resolved| ==> LockOrder(api.backend(resolved[i].0), resolved[i].1)
  }

  lemma LockOrdersStep(api: IngressApi, done: Log, name: string, order: seq<int>)
    requires LockOrders(api, done) && LockOrder(api.backend(name), order)
    ensures LockOrders(api, done + [(name, order)])
  {
  }

  lemma ResolveStep(api: IngressApi, done: Log, names: seq<string>, name: string, order: seq<int>)
    ensures DoubtsIn(api, done + [(name, order)]) == DoubtsIn(api, done) + EntryDoubts(api.backend(name), order)
    ensures NamesRead(done + [(name, order)]) == NamesRead(done) + [name]
    ensures BackendMap(api, names + [name]) == BackendMap(api, names)[name := BackendEntry(name, api.backend(name), api.now)]
  {
    assert Front(done + [(name, order)]) == done;
  }

  /** Every distinct backend Service is resolved exactly once: `resolved` logs each resolution made. */
  method CollectServices(coll: Collection, api: IngressApi, paths: seq<Path>) returns (services: map<string, Backend>, ghost resolved: Log)
    requires coll.Valid()
    modifies coll`degradations
    ensures coll.Valid() && coll.degradations == Recorded(old(coll.degradations), DoubtsIn(api, resolved))
    ensures NamesRead(resolved) == ServicesNamed(paths) && LockOrders(api, resolved)
    ensures services == BackendMap(api, ServicesNamed(paths))
  {
    ghost var log, names := coll.degradations, [];
    RecordedNothing(log);
    services, resolved := map[], [];
    for i := 0 to |paths|
      invariant names == ServicesNamed(paths[..i])
      invariant coll.Valid() && coll.degradations == Recorded(log, DoubtsIn(api, resolved))
      invariant NamesRead(resolved) == names && services == BackendMap(api, names) && LockOrders(api, resolved)
    {
      ServicesNamedStep(paths, i);
      var name := paths[i].service;
      if name == "" || name in services {
        continue;
      }
      ghost var order;
      var entry;
      entry, order := CollectBackend(coll, name, api.backend(name), api.now);
      RecordedTwice(log, DoubtsIn(api, resolved), EntryDoubts(api.backend(name), order));
      ResolveStep(api, resolved, names, name, order);
      LockOrdersStep(api, resolved, name, order);
      resolved := resolved + [(name, order)];
      services := services[name := entry];
      names := names + [name];
    }
    assert paths[..|paths|] == paths;
  }

  function IsDefaultEntry(c: ClassEntry): bool {
    c.isDefault
  }

  function WantedClass(ing: IngressObject): string {
    if ing.className.Some? then ing.className.value else ing.annotation
  }

  function ClassOf(ing: IngressObject, get: Read<()>, list: Read<seq<ClassEntry>>): IngressClass {
    var none, name := IngressClass("", Existence.Unknown, Existence.Unknown), WantedClass(ing);
    if ing.hasAddress then none
    else if name != "" && ing.className.Some? then none.(name := name, existence := ExistenceIn(get))
    else if name != "" then none.(name := name)
    else if !list.Got? then none
    else match FirstWhere(IsDefaultEntry, list.value)
         case Some(c) => IngressClass(c.name, Found, Found)
         case None => none.(defaultExists := Missing)
  }

  function ClassDoubts(ing: IngressObject, get: Read<()>, list: Read<seq<ClassEntry>>): seq<Degradation> {
    if ing.hasAddress then []
    else if WantedClass(ing) != "" then if ing.className.Some? then Doubt("ingressclasses", CLASS_PURPOSE, get) else []
    else Complaint("ingressclasses", DEFAULT_PURPOSE, list)
  }

  method CollectClass(coll: Collection, ing: IngressObject, get: Read<()>, list: Read<seq<ClassEntry>>) returns (ingressClass: IngressClass)
    requires coll.Valid()
    modifies coll`degradations
    ensures coll.Valid() && coll.degradations == Recorded(old(coll.degradations), ClassDoubts(ing, get, list))
    ensures ingressClass == ClassOf(ing, get, list)
  {
    RecordedNothing(coll.degradations);
    ingressClass := IngressClass("", Existence.Unknown, Existence.Unknown);
    if ing.hasAddress {
      return;
    }
    var name := WantedClass(ing);
    if name != "" {
      ingressClass := ingressClass.(name := name);
      if ing.className.Some? {
        var e := CheckExistence(coll, "ingressclasses", CLASS_PURPOSE, get);
        ingressClass := ingressClass.(existence := e);
      }
      return;
    }
    DegradeRead(coll, "ingressclasses", DEFAULT_PURPOSE, list);
    if list.Got? {
      ingressClass := FindDefaultClass(list.value);
    }
  }

  method FindDefaultClass(list: seq<ClassEntry>) returns (ingressClass: IngressClass)
    ensures ingressClass == match FirstWhere(IsDefaultEntry, list)
                      case Some(c) => IngressClass(c.name, Found, Found)
                      case None => IngressClass("", Existence.Unknown, Missing)
  {
    for i := 0 to |list|
      invariant FirstWhere(IsDefaultEntry, list[..i]).None?
    {
      PrefixStep(list, i);
      if list[i].isDefault {
        FirstWherePrefix(IsDefaultEntry, list, i + 1);
        return IngressClass(list[i].name, Found, Found);
      }
    }
    assert list[..|list|] == list;
    ingressClass := IngressClass("", Existence.Unknown, Missing);
  }

  function EarlyDoubts(api: IngressApi): seq<Degradation> {
    Complaint("events", EVENT_PURPOSE, api.events) + ClassDoubts(api.ingress, api.ingressClass, api.classes)
  }

  /** `resolved` is one resolution of every named Service, with any possible lock orders. */
  ghost predicate Reads(api: IngressApi, resolved: Log) {
    NamesRead(resolved) == ServicesNamed(Paths(api.ingress)) && LockOrders(api, resolved)
  }

  ghost function CollectedIngress(api: IngressApi, resolved: Log): IngressSnap {
    IngressSnap(api.ingress, Paths(api.ingress), BackendMap(api, ServicesNamed(Paths(api.ingress))),
                ClassOf(api.ingress, api.ingressClass, api.classes), Recorded([], EarlyDoubts(api) + DoubtsIn(api, resolved)), api.now)
  }

  method CollectIngress(api: IngressApi) returns (snap: IngressSnap, ghost resolved: Log)
    ensures Reads(api, resolved) && snap == CollectedIngress(api, resolved)
  {
    var coll := new Collection();
    var paths := FlattenPaths(api.ingress);
    DegradeRead(coll, "events", EVENT_PURPOSE, api.events);
    var ingressClass := CollectClass(coll, api.ingress, api.ingressClass, api.classes);
    RecordedTwice([], Complaint("events", EVENT_PURPOSE, api.events), ClassDoubts(api.ingress, api.ingressClass, api.classes));
    var services;
    services, resolved := CollectServices(coll, api, paths);
    RecordedTwice([], EarlyDoubts(api), DoubtsIn(api, resolved));
    snap := IngressSnap(api.ingress, paths, services, ingressClass, coll.degradations, api.now);
  }
}
