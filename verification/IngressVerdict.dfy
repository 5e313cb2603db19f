/** The findings and the verdict about an Ingress as a table over the answers of the API. */
module IngressVerdict {
  import opened Sequences
  import opened Names
  import opened Model
  import opened Collecting
  import opened Pods
  import opened PodRules
  import opened Assembly
  import opened Services
  import opened Ingresses
  import opened IngressRules
  import Reports
  import StableSort
  import ServiceVerdict

  function Ref(ing: IngressObject): ResourceRef {
    ResourceRef("Ingress", ing.ns, ing.name)
  }

  // ---- Routes ----

  /** The Ingress sends requests for this host and path to this backend. */
  ghost predicate Routes(ing: IngressObject, p: Path) {
    || (ing.defaultBackend.Some? && p == Path("", "", ing.defaultBackend.value.service, ing.defaultBackend.value.port, true))
    || exists r :: r in ing.rules && RuleRoutes(r, p)
  }

  ghost predicate RuleRoutes(r: HostRule, p: Path) {
    r.paths.Some? && exists h :: h in r.paths.value && HttpRoutes(r.host, h, p)
  }

  predicate HttpRoutes(host: string, h: HttpPath, p: Path) {
    && p.host == host && p.path == h.path && !p.isDefault
    && match h.backend
       case Some(b) => p.service == b.service && p.port == b.port
       case None => p.service == "" && p.port == Port("", 0)
  }

  lemma InRule(r: HostRule, p: Path)
    ensures p in RulePaths(r) <==> RuleRoutes(r, p)
  {
    if r.paths.Some? {
      var hs := r.paths.value;
      InMap(PathOf(r.host), hs, p);
      if p in RulePaths(r) {
        var i :| 0 <= i < |hs| && p == PathOf(r.host)(hs[i]);
        assert hs[i] in hs && HttpRoutes(r.host, hs[i], p);
      }
      if RuleRoutes(r, p) {
        var h :| h in hs && HttpRoutes(r.host, h, p);
        var i :| 0 <= i < |hs| && hs[i] == h;
        assert p == PathOf(r.host)(hs[i]);
      }
    }
  }

  /** The routing table lists every route of the Ingress, and nothing else. */
  lemma InPaths(ing: IngressObject, p: Path)
    ensures p in Paths(ing) <==> Routes(ing, p)
  {
    InFlatMap(RulePaths, ing.rules, p);
    forall r ensures p in RulePaths(r) <==> RuleRoutes(r, p) {
      InRule(r, p);
    }
    if exists r :: r in ing.rules && RuleRoutes(r, p) {
      var r :| r in ing.rules && RuleRoutes(r, p);
      var i :| 0 <= i < |ing.rules| && ing.rules[i] == r;
      assert p in RulePaths(ing.rules[i]);
    }
    if p in FlatMap(RulePaths, ing.rules) {
      var i :| 0 <= i < |ing.rules| && p in RulePaths(ing.rules[i]);
      assert ing.rules[i] in ing.rules;
    }
  }

  ghost predicate InRuleOrder(r: HostRule, ps: seq<Path>) {
    match r.paths
    case None => ps == []
    case Some(hs) => |ps| == |hs| && forall k :: 0 <= k < |hs| ==> HttpRoutes(r.host, hs[k], ps[k])
  }

  /** The routing table starts with the default backend, if there is one. */
  lemma PathsStart(ing: IngressObject)
    requires ing.rules == []
    ensures match ing.defaultBackend
            case None => Paths(ing) == []
            case Some(b) => Paths(ing) == [Path("", "", b.service, b.port, true)]
  {
    assert FlatMap(RulePaths, ing.rules) == [];
  }

  /** Each further rule adds its paths at the end, in its own order. */
  lemma PathsGrow(ing: IngressObject, r: HostRule)
    ensures var grown, n := Paths(ing.(rules := ing.rules + [r])), |Paths(ing)|;
            |grown| >= n && grown[..n] == Paths(ing) && InRuleOrder(r, grown[n..])
  {
    var grown, n := Paths(ing.(rules := ing.rules + [r])), |Paths(ing)|;
    assert Front(ing.rules + [r]) == ing.rules;
    assert grown == Paths(ing) + RulePaths(r);
    assert grown[n..] == RulePaths(r);
    if r.paths.Some? {
      assert forall k :: 0 <= k < |r.paths.value| ==> RulePaths(r)[k] == PathOf(r.host)(r.paths.value[k]);
    }
  }

  // ---- The table ----

  ghost predicate LeadsTo(api: IngressApi, name: string) {
    name != "" && exists p :: Routes(api.ingress, p) && p.service == name
  }

  /** A named port by its name, an unnamed one by its number. */
  ghost predicate HasPort(s: ServiceObject, port: Port) {
    exists sp :: sp in s.ports && (if port.name == "" then sp.port == port.number else sp.name == port.name)
  }

  ghost predicate PortsServed(api: IngressApi, name: string)
    requires api.backend(name).service.Got?
  {
    forall p :: Routes(api.ingress, p) && p.service == name ==> HasPort(api.backend(name).service.value, p.port)
  }

  ghost predicate Unserved(b: BackendApi)
    requires b.service.Got?
  {
    && !b.service.value.external && ServiceVerdict.EndpointsReadable(b.slices, b.legacy)
    && !ServiceVerdict.SomeEndpoint(b.slices, b.legacy, true)
  }

  /** What is wrong with the way to a Service: it is not there, or not on that port, or not ready. */
  ghost predicate BrokenLink(api: IngressApi, name: string, id: FindingID) {
    var b := api.backend(name);
    || (id == IngressServiceNotFound && b.service.NotFound?)
    || (id == IngressServicePortNotFound && b.service.Got? && !PortsServed(api, name))
    || (id == IngressServiceNoEndpoints && b.service.Got? && PortsServed(api, name) && Unserved(b))
  }

  ghost predicate SaysBackend(api: IngressApi, name: string, m: Reports.Mark) {
    LeadsTo(api, name) && BrokenLink(api, name, m.id) && m == Reports.Mark(m.id, ResourceRef("Service", api.ingress.ns, name), "", Critical)
  }

  ghost predicate SaysBackends(api: IngressApi, m: Reports.Mark) {
    || ((forall p :: !Routes(api.ingress, p)) && m == Reports.Mark(IngressNoRules, Ref(api.ingress), "", Warning))
    || exists name :: SaysBackend(api, name, m)
  }

  predicate ClassAbsent(api: IngressApi) {
    api.ingress.className.Some? && api.ingress.className.value != "" && api.ingressClass.NotFound?
  }

  predicate AsksForNoClass(ing: IngressObject) {
    match ing.className case Some(n) => n == "" case None => ing.annotation == ""
  }

  ghost predicate NoDefaultClass(api: IngressApi) {
    AsksForNoClass(api.ingress) && api.classes.Got? && forall c :: c in api.classes.value ==> !c.isDefault
  }

  ghost predicate SaysClass(api: IngressApi, m: Reports.Mark) {
    && !api.ingress.hasAddress
    && ((ClassAbsent(api) && m == Reports.Mark(IngressClassNotFound, Ref(api.ingress), "", Critical))
        || (NoDefaultClass(api) && m == Reports.Mark(IngressNoClass, Ref(api.ingress), "", Warning)))
  }

  /** No address two minutes after creation, and the class does not explain it. */
  ghost predicate Unadopted(api: IngressApi) {
    !api.ingress.hasAddress && api.now - api.ingress.createdAt >= 120_000_000_000 && !ClassAbsent(api) && !NoDefaultClass(api)
  }

  ghost predicate SaysAddress(api: IngressApi, m: Reports.Mark) {
    Unadopted(api) && m == Reports.Mark(IngressNoAddress, Ref(api.ingress), "", Warning)
  }

  /** What is to be reported about the Ingress itself and its backends. */
  ghost predicate IngressSays(api: IngressApi, m: Reports.Mark) {
    SaysBackends(api, m) || SaysClass(api, m) || SaysAddress(api, m)
  }

  // ---- The rules agree with it ----

  lemma NamedIff(api: IngressApi, name: string)
    ensures name in ServicesNamed(Paths(api.ingress)) <==> LeadsTo(api, name)
  {
    var paths := Paths(api.ingress);
    ServicesNamedIff(paths, name);
    if name in ServicesNamed(paths) {
      var i :| 0 <= i < |paths| && paths[i].service == name;
      InPaths(api.ingress, paths[i]);
    }
    if LeadsTo(api, name) {
      var p :| Routes(api.ingress, p) && p.service == name;
      InPaths(api.ingress, p);
      var i :| 0 <= i < |paths| && paths[i] == p;
    }
  }

  lemma PortIff(s: ServiceObject, port: Port)
    ensures (exists i :: 0 <= i < |s.ports| && Exposes(s.ports[i], port)) <==> HasPort(s, port)
  {
    if exists i :: 0 <= i < |s.ports| && Exposes(s.ports[i], port) {
      var i :| 0 <= i < |s.ports| && Exposes(s.ports[i], port);
      assert s.ports[i] in s.ports;
    }
    if HasPort(s, port) {
      var sp :| sp in s.ports && (if port.name == "" then sp.port == port.number else sp.name == port.name);
      var i :| 0 <= i < |s.ports| && s.ports[i] == sp;
      assert Exposes(s.ports[i], port);
    }
  }

  lemma PortsServedIff(api: IngressApi, name: string)
    requires api.backend(name).service.Got?
    ensures PortsServed(api, name) <==>
              forall p :: p in Paths(api.ingress) && p.service == name ==> BackendEntry(name, api.backend(name), api.now).HasPort(p.port)
  {
    forall p ensures p in Paths(api.ingress) <==> Routes(api.ingress, p) {
      InPaths(api.ingress, p);
    }
    forall port ensures BackendEntry(name, api.backend(name), api.now).HasPort(port) <==> HasPort(api.backend(name).service.value, port) {
      PortIff(api.backend(name).service.value, port);
    }
  }

  lemma UnservedIff(b: BackendApi)
    requires b.service.Got?
    ensures Unserved(b) <==>
              && !b.service.value.external && EndpointsOf(b.slices, b.legacy).known
              && forall e :: e in EndpointsOf(b.slices, b.legacy).addresses ==> !e.ready
  {
    ServiceVerdict.EndpointsAre(b.slices, b.legacy);
    forall e: Endpoint | e.ready && ServiceVerdict.Lists(b.slices, b.legacy, e) ensures e in EndpointsOf(b.slices, b.legacy).addresses {
    }
  }

  ghost predicate BreakNames(broken: Break, id: FindingID) {
    match broken
    case NotBroken => false
    case NoService => id == IngressServiceNotFound
    case NoPort(_) => id == IngressServicePortNotFound
    case NoEndpoints => id == IngressServiceNoEndpoints
  }

  lemma BreakSays(api: IngressApi, name: string, id: FindingID)
    ensures BreakNames(FirstBreak(BackendEntry(name, api.backend(name), api.now), RoutesTo(Paths(api.ingress), name)), id) <==> BrokenLink(api, name, id)
  {
    BreakIff(api.backend(name), name, Paths(api.ingress), api.now);
    if api.backend(name).service.Got? {
      PortsServedIff(api, name);
      UnservedIff(api.backend(name));
    }
  }

  lemma BrokenBackendSays(say: Wording, snap: IngressSnap, b: Backend, routes: seq<Path>, m: Reports.Mark)
    ensures Reports.Marked(BrokenBackend(say, snap, b, routes), m) <==>
              m == Reports.Mark(m.id, ResourceRef("Service", snap.ingress.ns, b.name), "", Critical) && BreakNames(FirstBreak(b, routes), m.id)
  {
    Reports.MarkedOne(BrokenBackend(say, snap, b, routes), m);
  }

  lemma FindingsForIs(say: Wording, api: IngressApi, resolved: Log, name: string)
    ensures var snap := CollectedIngress(api, resolved);
            FindingsFor(say, snap)(name)
            == if name in ServicesNamed(Paths(api.ingress)) then BrokenBackend(say, snap, BackendEntry(name, api.backend(name), api.now), RoutesTo(Paths(api.ingress), name))
               else []
  {
  }

  lemma BackendSays(say: Wording, api: IngressApi, resolved: Log, name: string, m: Reports.Mark)
    ensures Reports.Marked(FindingsFor(say, CollectedIngress(api, resolved))(name), m) <==> SaysBackend(api, name, m)
  {
    FindingsForIs(say, api, resolved, name);
    NamedIff(api, name);
    if LeadsTo(api, name) {
      BreakSays(api, name, m.id);
      BrokenBackendSays(say, CollectedIngress(api, resolved), BackendEntry(name, api.backend(name), api.now), RoutesTo(Paths(api.ingress), name), m);
    }
  }

  lemma NoRoutesIff(ing: IngressObject)
    ensures Paths(ing) == [] <==> forall p :: !Routes(ing, p)
  {
    forall p ensures p in Paths(ing) <==> Routes(ing, p) {
      InPaths(ing, p);
    }
    if Paths(ing) != [] {
      assert Paths(ing)[0] in Paths(ing);
    }
  }

  lemma BackendsSay(say: Wording, api: IngressApi, resolved: Log, order: seq<string>, m: Reports.Mark)
    requires Enumerates(order, CollectedIngress(api, resolved).services.Keys)
    ensures Reports.Marked(BackendRule(say, CollectedIngress(api, resolved), order), m) <==> SaysBackends(api, m)
  {
    var snap := CollectedIngress(api, resolved);
    NoRoutesIff(api.ingress);
    forall name ensures Reports.Marked(FindingsFor(say, snap)(name), m) <==> SaysBackend(api, name, m) {
      BackendSays(say, api, resolved, name, m);
    }
    if snap.paths == [] {
      Reports.MarkedOne(BackendRule(say, snap, order), m);
    } else {
      SortedKeys(order, snap.services.Keys);
      Reports.MarkedBySome(FindingsFor(say, snap), StableSort.Sort(ByName(), order), m);
      forall name | SaysBackend(api, name, m) ensures name in StableSort.Sort(ByName(), order) {
        NamedIff(api, name);
      }
    }
  }

  lemma ClassIs(api: IngressApi, resolved: Log)
    requires !api.ingress.hasAddress
    ensures var c := CollectedIngress(api, resolved).ingressClass;
            && (ClassAbsent(api) <==> c.existence == Missing && c.name != "")
            && (ClassAbsent(api) <==> c.existence == Missing)
            && (NoDefaultClass(api) <==> c.name == "" && c.defaultExists == Missing)
            && (NoDefaultClass(api) <==> c.defaultExists == Missing)
  {
    if api.classes.Got? {
      FirstWhereFound(IsDefaultEntry, api.classes.value);
    }
  }

  lemma ClassAndAddressSay(say: Wording, api: IngressApi, resolved: Log, m: Reports.Mark)
    ensures Reports.Marked(ClassRule(say, CollectedIngress(api, resolved)), m) <==> SaysClass(api, m)
    ensures Reports.Marked(AddressRule(say, CollectedIngress(api, resolved)), m) <==> SaysAddress(api, m)
  {
    var snap := CollectedIngress(api, resolved);
    if !api.ingress.hasAddress {
      ClassIs(api, resolved);
    }
    Reports.MarkedOne(ClassRule(say, snap), m);
    Reports.MarkedOne(AddressRule(say, snap), m);
  }

  /** The Ingress rules report exactly what the table says, for every API behaviour, schedule and
      iteration order. */
  lemma IngressRulesSay(say: Wording, api: IngressApi, resolved: Log, order: seq<string>, m: Reports.Mark)
    requires Enumerates(order, CollectedIngress(api, resolved).services.Keys)
    ensures Reports.Marked(IngressFindings(say, CollectedIngress(api, resolved), order), m) <==> IngressSays(api, m)
  {
    BackendsSay(say, api, resolved, order, m);
    ClassAndAddressSay(say, api, resolved, m);
    ThreeMarks(say, CollectedIngress(api, resolved), order, m);
  }

  lemma ThreeMarks(say: Wording, snap: IngressSnap, order: seq<string>, m: Reports.Mark)
    ensures Reports.Marked(IngressFindings(say, snap, order), m) <==>
              || Reports.Marked(BackendRule(say, snap, order), m) || Reports.Marked(ClassRule(say, snap), m) || Reports.Marked(AddressRule(say, snap), m)
  {
    IngressRuleOutputs(say, snap, order);
    Reports.MarkedEvaluated(IngressRuleSet(say, order), snap, m);
  }

  /** What an Ingress report says: what is to be said about it, and what the Pods looked at show. */
  lemma IngressReportSays(env: Env, api: IngressApi, resolved: Log, order: seq<string>, ords: seq<MapOrder>, m: Reports.Mark)
    requires Enumerates(order, CollectedIngress(api, resolved).services.Keys) && |ords| == |PodsLookedAt(api)|
    ensures PodsBehindIngress(CollectedIngress(api, resolved), order) == PodsLookedAt(api)
    ensures Reports.Marked(IngressDiagnoses(env, CollectedIngress(api, resolved), order, ords), m)
       <==> IngressSays(api, m) || Reports.Marked(AggregatedPods(env, PodsLookedAt(api), ords), m)
  {
    PodsAlike(api, resolved, order);
    IngressRulesSay(env.say, api, resolved, order, m);
    AssembledMarked(IngressFindings(env.say, CollectedIngress(api, resolved), order), AggregatedPods(env, PodsLookedAt(api), ords),
                    {IngressServiceNoEndpoints}, m);
  }

  ghost predicate IngressBroken(api: IngressApi) {
    || (exists name :: LeadsTo(api, name)
                       && (|| api.backend(name).service.NotFound?
                           || (api.backend(name).service.Got? && (!PortsServed(api, name) || Unserved(api.backend(name))))))
    || (!api.ingress.hasAddress && ClassAbsent(api))
  }

  ghost predicate IngressShaky(api: IngressApi) {
    (forall p :: !Routes(api.ingress, p)) || (!api.ingress.hasAddress && NoDefaultClass(api)) || Unadopted(api)
  }

  lemma IngressSeverities(api: IngressApi)
    ensures IngressBroken(api) <==> exists m: Reports.Mark :: m.severity == Critical && IngressSays(api, m)
    ensures IngressShaky(api) <==> exists m: Reports.Mark :: m.severity == Warning && IngressSays(api, m)
  {
    var r := Ref(api.ingress);
    forall name | LeadsTo(api, name)
                  && (|| api.backend(name).service.NotFound?
                      || (api.backend(name).service.Got? && (!PortsServed(api, name) || Unserved(api.backend(name)))))
      ensures exists m: Reports.Mark :: m.severity == Critical && IngressSays(api, m)
    {
      var b := api.backend(name);
      var id := if b.service.NotFound? then IngressServiceNotFound else if !PortsServed(api, name) then IngressServicePortNotFound else IngressServiceNoEndpoints;
      assert SaysBackend(api, name, Reports.Mark(id, ResourceRef("Service", api.ingress.ns, name), "", Critical));
    }
    assert SaysClass(api, Reports.Mark(IngressClassNotFound, r, "", Critical)) <==> !api.ingress.hasAddress && ClassAbsent(api);
    assert SaysClass(api, Reports.Mark(IngressNoClass, r, "", Warning)) <==> !api.ingress.hasAddress && NoDefaultClass(api);
    assert SaysAddress(api, Reports.Mark(IngressNoAddress, r, "", Warning)) <==> Unadopted(api);
    assert (forall p :: !Routes(api.ingress, p)) ==> SaysBackends(api, Reports.Mark(IngressNoRules, r, "", Warning));
  }

  ghost function IngressStatus(env: Env, api: IngressApi, ords: seq<MapOrder>): Reports.Status
    requires |ords| == |PodsLookedAt(api)|
  {
    var found := AggregatedPods(env, PodsLookedAt(api), ords);
    if IngressBroken(api) || Reports.Has(found, Critical) then Reports.Unhealthy
    else if IngressShaky(api) || Reports.Has(found, Warning) then Reports.Degraded
    else if IngressRules.EverythingRead(api) then Reports.Healthy
    else Reports.Status.Unknown
  }

  /** The exact status of an Ingress report, for every API behaviour, schedule and wording. */
  lemma ExactIngressStatus(env: Env, api: IngressApi, resolved: Log, order: seq<string>, ords: seq<MapOrder>)
    requires Reads(api, resolved) && Enumerates(order, CollectedIngress(api, resolved).services.Keys)
    requires |ords| == |PodsLookedAt(api)|
    ensures PodsBehindIngress(CollectedIngress(api, resolved), order) == PodsLookedAt(api)
    ensures Reports.Verdict(IngressDiagnoses(env, CollectedIngress(api, resolved), order, ords), CollectedIngress(api, resolved).degradations)
         == IngressStatus(env, api, ords)
  {
    PodsAlike(api, resolved, order);
    var ds, found := IngressDiagnoses(env, CollectedIngress(api, resolved), order, ords), AggregatedPods(env, PodsLookedAt(api), ords);
    Reports.HasMarked(ds, Critical);
    Reports.HasMarked(ds, Warning);
    Reports.HasMarked(found, Critical);
    Reports.HasMarked(found, Warning);
    forall m ensures Reports.Marked(ds, m) <==> IngressSays(api, m) || Reports.Marked(found, m) {
      IngressReportSays(env, api, resolved, order, ords, m);
    }
    IngressSeverities(api);
    IngressReadIff(api, resolved);
  }
}
