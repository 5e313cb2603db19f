/** The Ingress rules and report (internal/diagnosis/rules/ingress/ingress.go,
    internal/analyze/ingress.go). */
module IngressRules {
  import opened Sequences
  import opened GroupBy
  import opened StableSort
  import opened Text
  import opened Names
  import opened Model
  import opened Collecting
  import opened Pods
  import opened PodRules
  import opened Assembly
  import opened Services
  import opened Ingresses
  import PodTheorems
  import Backends
  import Reports
  import Engine
  import PodHealth

  // ---- One backend ----

  function To(name: string): Path -> bool {
    (p: Path) => p.service == name
  }

  function RoutesTo(paths: seq<Path>, name: string): seq<Path> {
    Filter(To(name), paths)
  }

  function PortOf(p: Path): Port {
    p.port
  }

  function PortText(p: Port): string {
    p.Show()
  }

  function NotExposed(b: Backend): Port -> bool {
    (p: Port) => !b.HasPort(p)
  }

  /** The ports the routes ask for and the Service does not expose, each mentioned once. */
  function MissingPorts(b: Backend, routes: seq<Path>): seq<Port> {
    Firsts(PortText, Filter(NotExposed(b), Map(PortOf, routes)))
  }

  method FindMissingPorts(b: Backend, routes: seq<Path>) returns (missing: seq<Port>)
    ensures missing == MissingPorts(b, routes)
  {
    missing := [];
    var seen: set<string> := {};
    for i := 0 to |routes|
      invariant missing == MissingPorts(b, routes[..i])
      invariant forall t :: t in seen <==> HasKey(PortText, t, missing)
    {
      PrefixStep(routes, i);
      MapSnoc(PortOf, routes[..i], routes[i]);
      ghost var ports := Map(PortOf, routes[..i]);
      ghost var kept := Filter(NotExposed(b), ports);
      var port := routes[i].port;
      assert Front(ports + [port]) == ports && Front(kept + [port]) == kept;
      FirstsCover(PortText, port.Show(), kept);
      if b.HasPort(port) || port.Show() in seen {
        continue;
      }
      ghost var before := missing;
      seen := seen + {port.Show()};
      missing := missing + [port];
      forall t ensures HasKey(PortText, t, missing) <==> HasKey(PortText, t, before) || t == port.Show() {
        HasKeySnoc(PortText, t, missing);
      }
    }
    assert routes[..|routes|] == routes;
  }

  lemma MissingPortsIff(b: Backend, routes: seq<Path>)
    ensures MissingPorts(b, routes) != [] <==> exists i :: 0 <= i < |routes| && !b.HasPort(routes[i].port)
  {
    var ports := Map(PortOf, routes);
    var kept := Filter(NotExposed(b), ports);
    FilterLength(NotExposed(b), ports);
    if kept != [] {
      FirstsCover(PortText, PortText(kept[0]), kept);
    }
    forall i | 0 <= i < |routes| ensures ports[i] == routes[i].port {
      assert ports[i] == PortOf(routes[i]);
    }
  }

  /** What is missing are ports of routes that the Service does not expose: all of them, and no two that
      read the same. */
  lemma MissingPortsAre(b: Backend, routes: seq<Path>)
    ensures forall m :: m in MissingPorts(b, routes) ==> !b.HasPort(m) && exists p :: p in routes && p.port == m
    ensures forall p :: p in routes && !b.HasPort(p.port) ==> exists m :: m in MissingPorts(b, routes) && m.Show() == p.port.Show()
    ensures forall i, j :: 0 <= i < j < |MissingPorts(b, routes)| ==> MissingPorts(b, routes)[i].Show() != MissingPorts(b, routes)[j].Show()
  {
    var ports, missing := Map(PortOf, routes), MissingPorts(b, routes);
    var kept := Filter(NotExposed(b), ports);
    FirstsDistinct(PortText, kept);
    forall m | m in missing ensures !b.HasPort(m) && exists p :: p in routes && p.port == m {
      FirstsSubset(PortText, kept, m);
      InFilter(NotExposed(b), ports, m);
      var i :| 0 <= i < |ports| && ports[i] == m;
      assert routes[i] in routes && PortOf(routes[i]) == m;
    }
    forall p | p in routes && !b.HasPort(p.port) ensures exists m :: m in missing && m.Show() == p.port.Show() {
      var i :| 0 <= i < |routes| && routes[i] == p;
      assert ports[i] == PortOf(p);
      InFilter(NotExposed(b), ports, p.port);
      FirstsCover(PortText, PortText(p.port), kept);
      var k :| 0 <= k < |missing| && PortText(missing[k]) == PortText(p.port);
      assert missing[k] in missing;
    }
    forall i, j | 0 <= i < j < |missing| ensures missing[i].Show() != missing[j].Show() {
      assert PortText(missing[i]) != PortText(missing[j]);
    }
  }

  /** The first broken link on the way to a backend. */
  datatype Break = NotBroken | NoService | NoPort(ports: seq<Port>) | NoEndpoints

  function FirstBreak(b: Backend, routes: seq<Path>): Break {
    if b.existence == Missing then NoService
    else if b.existence != Found then NotBroken
    else if MissingPorts(b, routes) != [] then NoPort(MissingPorts(b, routes))
    else if !b.endpoints.known || b.endpoints.Ready() > 0 || (b.service.Some? && b.service.value.external) then NotBroken
    else NoEndpoints
  }

  function RouteLine(p: Path): Evidence {
    Evidence("ingress", "route", p.Route() + " -> " + p.Target(), "")
  }

  function IsRouteLine(e: Evidence): bool {
    e.source == "ingress" && e.field == "route"
  }

  function SubjectFor(snap: IngressSnap, name: string): ResourceRef {
    ResourceRef("Service", snap.ingress.ns, name)
  }

  function BreakFinding(say: Wording, snap: IngressSnap, b: Backend, routes: seq<Path>, id: FindingID, args: seq<Arg>, more: seq<Evidence>): Diagnosis {
    Finding(id, SubjectFor(snap, b.name), "", Critical, Certain, say(id, 0, args)).(evidence := Map(RouteLine, routes) + more)
  }

  function PortsText(ports: seq<Port>): string {
    Join(Map(PortText, ports), ", ")
  }

  function NoneReady(b: Backend): Evidence {
    Evidence(if b.endpoints.source == EndpointSlice then "endpointslice" else "endpoints", "readyEndpoints", "0", "")
  }

  function BrokenBackend(say: Wording, snap: IngressSnap, b: Backend, routes: seq<Path>): seq<Diagnosis> {
    match FirstBreak(b, routes)
    case NotBroken => []
    case NoService => [BreakFinding(say, snap, b, routes, IngressServiceNotFound, [Text(b.name)], [Evidence("api", "service/" + b.name, "NotFound", "")])]
    case NoPort(ports) =>
      [BreakFinding(say, snap, b, routes, IngressServicePortNotFound, [Text(b.name), Text(PortsText(ports))],
                    [Evidence("ingress", "backend.service.port", PortsText(ports), "")])]
    case NoEndpoints => [BreakFinding(say, snap, b, routes, IngressServiceNoEndpoints, [Text(b.name)], [NoneReady(b)])]
  }

  // ---- The rules ----

  function FindingsFor(say: Wording, snap: IngressSnap): string -> seq<Diagnosis> {
    (name: string) => if name in snap.services then BrokenBackend(say, snap, snap.services[name], RoutesTo(snap.paths, name)) else []
  }

  function BackendRule(say: Wording, snap: IngressSnap, order: seq<string>): seq<Diagnosis> {
    if snap.paths == [] then [Finding(IngressNoRules, snap.Ref(), "", Warning, Certain, say(IngressNoRules, 0, []))]
    else FlatMap(FindingsFor(say, snap), Sort(ByName(), order))
  }

  method GroupRoutes(paths: seq<Path>) returns (routes: map<string, seq<Path>>)
    ensures forall name :: name != "" ==> RoutesTo(paths, name) == if name in routes then routes[name] else []
  {
    routes := map[];
    for i := 0 to |paths|
      invariant forall name :: name != "" ==> RoutesTo(paths[..i], name) == if name in routes then routes[name] else []
    {
      PrefixStep(paths, i);
      var p := paths[i];
      if p.service != "" {
        routes := routes[p.service := (if p.service in routes then routes[p.service] else []) + [p]];
      }
    }
    assert paths[..|paths|] == paths;
  }

  method EvaluateNames(say: Wording, snap: IngressSnap, routes: map<string, seq<Path>>, names: seq<string>) returns (out: seq<Diagnosis>)
    requires forall n :: n in names ==> n in snap.services && RoutesTo(snap.paths, n) == if n in routes then routes[n] else []
    ensures out == FlatMap(FindingsFor(say, snap), names)
  {
    out := [];
    for i := 0 to |names|
      invariant out == FlatMap(FindingsFor(say, snap), names[..i])
    {
      PrefixStep(names, i);
      var n := names[i];
      assert n in names;
      var found := EvaluateBackend(say, snap, snap.services[n], if n in routes then routes[n] else []);
      out := out + found;
    }
    assert names[..|names|] == names;
  }

  method EvaluateBackends(say: Wording, snap: IngressSnap) returns (out: seq<Diagnosis>)
    requires "" !in snap.services
    ensures forall order :: Enumerates(order, snap.services.Keys) ==> out == BackendRule(say, snap, order)
  {
    if snap.paths == [] {
      return [Finding(IngressNoRules, snap.Ref(), "", Warning, Certain, say(IngressNoRules, 0, []))];
    }
    var walked := AnyKeys(snap.services.Keys);
    var routes := GroupRoutes(snap.paths);
    SortedKeys(walked, snap.services.Keys);
    out := EvaluateNames(say, snap, routes, Sort(ByName(), walked));
    forall order | Enumerates(order, snap.services.Keys) ensures Sort(ByName(), order) == Sort(ByName(), walked) {
      EnumerationsPermute(order, walked, snap.services.Keys);
      SortedNamesAgree(order, walked);
    }
  }

  method EvaluateBackend(say: Wording, snap: IngressSnap, b: Backend, paths: seq<Path>) returns (out: seq<Diagnosis>)
    ensures out == BrokenBackend(say, snap, b, paths)
  {
    if b.existence == Missing {
      return [BreakFinding(say, snap, b, paths, IngressServiceNotFound, [Text(b.name)], [Evidence("api", "service/" + b.name, "NotFound", "")])];
    }
    if b.existence != Found {
      return [];
    }
    var missing := FindMissingPorts(b, paths);
    if missing != [] {
      return [BreakFinding(say, snap, b, paths, IngressServicePortNotFound, [Text(b.name), Text(PortsText(missing))],
                           [Evidence("ingress", "backend.service.port", PortsText(missing), "")])];
    }
    if !b.endpoints.known || b.endpoints.Ready() > 0 || (b.service.Some? && b.service.value.external) {
      return [];
    }
    out := [BreakFinding(say, snap, b, paths, IngressServiceNoEndpoints, [Text(b.name)], [NoneReady(b)])];
  }

  function ClassRule(say: Wording, snap: IngressSnap): seq<Diagnosis> {
    if snap.ingress.hasAddress then []
    else if snap.ingressClass.existence == Missing && snap.ingressClass.name != "" then
      [Finding(IngressClassNotFound, snap.Ref(), "", Critical, Certain, say(IngressClassNotFound, 0, [Text(snap.ingressClass.name)]))]
    else if snap.ingressClass.name == "" && snap.ingressClass.defaultExists == Missing then
      [Finding(IngressNoClass, snap.Ref(), "", Warning, Likely, say(IngressNoClass, 0, []))]
    else []
  }

  function AddressRule(say: Wording, snap: IngressSnap): seq<Diagnosis> {
    if snap.ingress.hasAddress || snap.now - snap.ingress.createdAt < 2 * MINUTE then []
    else if snap.ingressClass.existence == Missing || snap.ingressClass.defaultExists == Missing then []
    else [Finding(IngressNoAddress, snap.Ref(), "", Warning, Possible, say(IngressNoAddress, 0, [Age(snap.now - snap.ingress.createdAt)]))]
  }

  function IngressRuleSet(say: Wording, order: seq<string>): seq<Engine.Rule<IngressSnap>> {
    [(s: IngressSnap) => BackendRule(say, s, order), (s: IngressSnap) => ClassRule(say, s), (s: IngressSnap) => AddressRule(say, s)]
  }

  function IngressFindings(say: Wording, snap: IngressSnap, order: seq<string>): seq<Diagnosis> {
    Engine.Evaluated(IngressRuleSet(say, order), snap, |IngressRuleSet(say, order)|)
  }

  function PodsBehindService(snap: IngressSnap): string -> seq<PodSnap> {
    (name: string) => if name in snap.services then snap.services[name].pods else []
  }

  /** The Pods behind every Service that publishes nothing, Service by Service. */
  function PodsBehindIngress(snap: IngressSnap, order: seq<string>): seq<PodSnap> {
    FlatMap(PodsBehindService(snap), Sort(ByName(), order))
  }

  function IngressDiagnoses(env: Env, snap: IngressSnap, order: seq<string>, ords: seq<MapOrder>): seq<Diagnosis>
    requires |ords| == |PodsBehindIngress(snap, order)|
  {
    Assembled(IngressFindings(env.say, snap, order), AggregatedPods(env, PodsBehindIngress(snap, order), ords), {IngressServiceNoEndpoints})
  }

  // ---- One finding per Service, for its first broken link ----

  function About(snap: IngressSnap, name: string): Diagnosis -> bool {
    (d: Diagnosis) => d.subject == SubjectFor(snap, name)
  }

  /** Each Service is keyed by its own name: what the collector builds. */
  ghost predicate NamedServices(snap: IngressSnap) {
    forall n :: n in snap.services ==> snap.services[n].name == n
  }

  lemma FilterOwn(say: Wording, snap: IngressSnap, m: string, n: string)
    requires NamedServices(snap)
    ensures Filter(About(snap, n), FindingsFor(say, snap)(m)) == if m == n then FindingsFor(say, snap)(n) else []
    ensures |FindingsFor(say, snap)(m)| <= 1
  {
    var f := FindingsFor(say, snap)(m);
    if f != [] {
      assert f == [f[0]] && f[0].subject == SubjectFor(snap, m);
      assert Filter(About(snap, n), []) == [];
      assert Front(f) == [];
    }
  }

  lemma {:induction false} FilterFindings(say: Wording, snap: IngressSnap, names: seq<string>, n: string)
    requires NamedServices(snap) && Distinct(names)
    ensures Filter(About(snap, n), FlatMap(FindingsFor(say, snap), names)) == if n in names then FindingsFor(say, snap)(n) else []
  {
    if names != [] {
      var f := FindingsFor(say, snap);
      DistinctFront(names);
      FilterFindings(say, snap, Front(names), n);
      FilterConcat(About(snap, n), FlatMap(f, Front(names)), f(Last(names)));
      FilterOwn(say, snap, Last(names), n);
    }
  }

  lemma SortedKeys(order: seq<string>, keys: set<string>)
    requires Enumerates(order, keys)
    ensures Distinct(Sort(ByName(), order)) && forall n :: n in Sort(ByName(), order) <==> n in keys
  {
    var out := Sort(ByName(), order);
    SortPermutes(ByName(), order);
    forall i, j | 0 <= i < j < |out| ensures out[i] != out[j] {
      DistinctOccurrence(order, out[i]);
      RepeatOccurs(out, i, j);
    }
    forall n ensures n in out <==> n in keys {
      SortMembers(ByName(), order, n);
      assert n in order <==> n in (set x | x in order);
    }
  }

  /** Everything the rule says about a Service is one finding at most, the one for its first break. */
  lemma OneFindingPerService(say: Wording, snap: IngressSnap, order: seq<string>, n: string)
    requires NamedServices(snap) && Enumerates(order, snap.services.Keys) && snap.paths != [] && n in snap.services
    ensures Filter(About(snap, n), BackendRule(say, snap, order)) == BrokenBackend(say, snap, snap.services[n], RoutesTo(snap.paths, n))
    ensures |Filter(About(snap, n), BackendRule(say, snap, order))| <= 1
  {
    SortedKeys(order, snap.services.Keys);
    FilterFindings(say, snap, Sort(ByName(), order), n);
    FilterOwn(say, snap, n, n);
  }

  // ---- Route evidence ----

  function RouteLines(d: Diagnosis): seq<Evidence> {
    Filter(IsRouteLine, d.evidence)
  }

  predicate Broken(snap: IngressSnap, name: string) {
    name in snap.services && FirstBreak(snap.services[name], RoutesTo(snap.paths, name)) != NotBroken
  }

  function ToBrokenIn(snap: IngressSnap, names: seq<string>): Path -> bool {
    (p: Path) => p.service in names && Broken(snap, p.service)
  }

  function ToBroken(snap: IngressSnap): Path -> bool {
    (p: Path) => Broken(snap, p.service)
  }

  lemma RouteLinesOfFinding(say: Wording, snap: IngressSnap, b: Backend, routes: seq<Path>, id: FindingID, args: seq<Arg>, e: Evidence)
    requires !IsRouteLine(e)
    ensures RouteLines(BreakFinding(say, snap, b, routes, id, args, [e])) == Map(RouteLine, routes)
  {
    var lines := Map(RouteLine, routes);
    FilterConcat(IsRouteLine, lines, [e]);
    assert Front([e]) == [];
    assert Filter(IsRouteLine, [e]) == [];
    forall l | l in lines ensures IsRouteLine(l) {
      InMap(RouteLine, routes, l);
    }
    FilterAll(IsRouteLine, lines);
  }

  lemma RouteLinesOf(say: Wording, snap: IngressSnap, n: string)
    ensures FlatMap(RouteLines, FindingsFor(say, snap)(n)) == if Broken(snap, n) then Map(RouteLine, RoutesTo(snap.paths, n)) else []
  {
    if Broken(snap, n) {
      var b, routes := snap.services[n], RoutesTo(snap.paths, n);
      var fs := FindingsFor(say, snap)(n);
      match FirstBreak(b, routes) {
        case NoService => RouteLinesOfFinding(say, snap, b, routes, IngressServiceNotFound, [Text(b.name)], Evidence("api", "service/" + b.name, "NotFound", ""));
        case NoPort(ports) =>
          RouteLinesOfFinding(say, snap, b, routes, IngressServicePortNotFound, [Text(b.name), Text(PortsText(ports))],
                              Evidence("ingress", "backend.service.port", PortsText(ports), ""));
        case NoEndpoints => RouteLinesOfFinding(say, snap, b, routes, IngressServiceNoEndpoints, [Text(b.name)], NoneReady(b));
      }
      assert |fs| == 1 && Front(fs) == [] && FlatMap(RouteLines, Front(fs)) == [];
    }
  }

  /** Splitting a filter in two disjoint ones keeps the multiset of evidence. */
  lemma {:induction false} SplitRoutes(p: Path -> bool, q: Path -> bool, r: Path -> bool, paths: seq<Path>)
    requires forall x :: !(p(x) && q(x)) && (r(x) <==> p(x) || q(x))
    ensures multiset(Map(RouteLine, Filter(r, paths))) == multiset(Map(RouteLine, Filter(p, paths))) + multiset(Map(RouteLine, Filter(q, paths)))
  {
    if paths == [] {
      assert Map(RouteLine, Filter(r, paths)) == [] == Map(RouteLine, Filter(p, paths)) == Map(RouteLine, Filter(q, paths));
    } else {
      var x := Last(paths);
      SplitRoutes(p, q, r, Front(paths));
      MapSnoc(RouteLine, Filter(r, Front(paths)), x);
      MapSnoc(RouteLine, Filter(p, Front(paths)), x);
      MapSnoc(RouteLine, Filter(q, Front(paths)), x);
    }
  }

  lemma {:induction false} FilterSame(p: Path -> bool, q: Path -> bool, paths: seq<Path>)
    requires forall x :: x in paths ==> p(x) == q(x)
    ensures Filter(p, paths) == Filter(q, paths)
  {
    if paths != [] {
      assert forall x :: x in Front(paths) ==> x in paths;
      assert Last(paths) in paths;
      FilterSame(p, q, Front(paths));
    }
  }

  function OnlyIf(c: bool, name: string): Path -> bool {
    (p: Path) => c && p.service == name
  }

  lemma {:induction false} FilterNone(p: Path -> bool, paths: seq<Path>)
    requires forall x :: x in paths ==> !p(x)
    ensures Filter(p, paths) == []
  {
    FilterLength(p, paths);
    assert forall i :: 0 <= i < |paths| ==> paths[i] in paths;
  }

  lemma {:induction false} RoutesOverNames(say: Wording, snap: IngressSnap, names: seq<string>)
    requires Distinct(names)
    ensures multiset(FlatMap(RouteLines, FlatMap(FindingsFor(say, snap), names))) == multiset(Map(RouteLine, Filter(ToBrokenIn(snap, names), snap.paths)))
  {
    if names == [] {
      FilterNone(ToBrokenIn(snap, names), snap.paths);
      assert Map(RouteLine, Filter(ToBrokenIn(snap, names), snap.paths)) == [];
    } else {
      var f, n, rest := FindingsFor(say, snap), Last(names), Front(names);
      DistinctFront(names);
      RoutesOverNames(say, snap, rest);
      FlatMapConcat(RouteLines, FlatMap(f, rest), f(n));
      RouteLinesOf(say, snap, n);
      var only := OnlyIf(Broken(snap, n), n);
      SplitRoutes(ToBrokenIn(snap, rest), only, ToBrokenIn(snap, names), snap.paths);
      if Broken(snap, n) {
        FilterSame(only, To(n), snap.paths);
      } else {
        FilterNone(only, snap.paths);
        assert Map(RouteLine, Filter(only, snap.paths)) == [];
      }
    }
  }

  /** Across all findings the route evidence lists every path to a broken Service exactly once, and
      no other path. */
  lemma RoutesListedOnce(say: Wording, snap: IngressSnap, order: seq<string>)
    requires Enumerates(order, snap.services.Keys) && snap.paths != []
    ensures multiset(FlatMap(RouteLines, BackendRule(say, snap, order))) == multiset(Map(RouteLine, Filter(ToBroken(snap), snap.paths)))
  {
    var names := Sort(ByName(), order);
    SortedKeys(order, snap.services.Keys);
    RoutesOverNames(say, snap, names);
    FilterSame(ToBrokenIn(snap, names), ToBroken(snap), snap.paths);
  }

  /** Host and path, or that it is the default, then the Service and its port: a missing host stands for
      every host, a missing path for the root, an unnamed port for its number. */
  lemma RouteReads(p: Path)
    ensures RouteLine(p).message == "" && IsRouteLine(RouteLine(p))
    ensures var port := if |p.port.name| > 0 then p.port.name else DecimalInt(p.port.number);
            var target := " -> Service/" + p.service + ":" + port;
            && (p.isDefault ==> RouteLine(p).value == "(default backend)" + target)
            && (!p.isDefault && p.host != "" && p.path != "" ==> RouteLine(p).value == p.host + p.path + target)
            && (!p.isDefault && p.host == "" && p.path != "" ==> RouteLine(p).value == "*" + p.path + target)
            && (!p.isDefault && p.host != "" && p.path == "" ==> RouteLine(p).value == p.host + "/" + target)
            && (!p.isDefault && p.host == "" && p.path == "" ==> RouteLine(p).value == "*/" + target)
  {
    var port := if |p.port.name| > 0 then p.port.name else DecimalInt(p.port.number);
    assert p.Target() == "Service/" + p.service + ":" + port;
    assert " -> " + p.Target() == " -> Service/" + p.service + ":" + port;
    assert p.Route() + " -> " + p.Target() == p.Route() + (" -> " + p.Target());
    assert "*" + "/" == "*/";
  }

  // ---- From the API ----

  lemma CollectedNames(api: IngressApi, resolved: Log)
    ensures NamedServices(CollectedIngress(api, resolved)) && "" !in CollectedIngress(api, resolved).services
    ensures CollectedIngress(api, resolved).services.Keys == set n | n in ServicesNamed(Paths(api.ingress))
  {
    ServicesNamedIff(Paths(api.ingress), "");
  }

  /** The Service behind `name` answers the requests of every path that leads to it. */
  ghost predicate Serves(api: BackendApi, name: string, paths: seq<Path>) {
    && api.service.Got?
    && (forall p :: p in paths && p.service == name ==> exists i :: 0 <= i < |api.service.value.ports| && Exposes(api.service.value.ports[i], p.port))
    && (api.service.value.external
        || (EndpointsOf(api.slices, api.legacy).known && exists e :: e in EndpointsOf(api.slices, api.legacy).addresses && e.ready))
  }

  lemma RoutedPorts(b: Backend, paths: seq<Path>, name: string)
    ensures MissingPorts(b, RoutesTo(paths, name)) == [] <==> forall p :: p in paths && p.service == name ==> b.HasPort(p.port)
  {
    var routes := RoutesTo(paths, name);
    MissingPortsIff(b, routes);
    forall p ensures p in routes <==> p in paths && p.service == name {
      InFilter(To(name), paths, p);
    }
    assert forall i :: 0 <= i < |routes| ==> routes[i] in routes;
    if exists p :: p in paths && p.service == name && !b.HasPort(p.port) {
      var p :| p in paths && p.service == name && !b.HasPort(p.port);
      var i :| 0 <= i < |routes| && routes[i] == p;
    }
  }

  lemma SomeReady(e: EndpointSet)
    ensures e.Ready() > 0 <==> exists x :: x in e.addresses && x.ready
  {
    if e.Ready() > 0 {
      InFilter(IsReady, e.addresses, Filter(IsReady, e.addresses)[0]);
    }
    if exists x :: x in e.addresses && x.ready {
      var x :| x in e.addresses && x.ready;
      InFilter(IsReady, e.addresses, x);
    }
  }

  /** The first broken link, read off the API's answers: existence, then port, then endpoints. */
  lemma BreakIff(api: BackendApi, name: string, paths: seq<Path>, now: int)
    ensures var broken := FirstBreak(BackendEntry(name, api, now), RoutesTo(paths, name));
            && (broken == NoService <==> api.service.NotFound?)
            && (broken.NoPort? <==> api.service.Got? && exists p :: p in paths && p.service == name && !BackendEntry(name, api, now).HasPort(p.port))
            && (broken == NoEndpoints <==>
                  && api.service.Got? && (forall p :: p in paths && p.service == name ==> BackendEntry(name, api, now).HasPort(p.port))
                  && !api.service.value.external && EndpointsOf(api.slices, api.legacy).known
                  && forall e :: e in EndpointsOf(api.slices, api.legacy).addresses ==> !e.ready)
            && (broken == NotBroken && EntryDoubts(api, []) == [] ==> Serves(api, name, paths))
            && (Serves(api, name, paths) ==> broken == NotBroken)
  {
    var b := BackendEntry(name, api, now);
    RoutedPorts(b, paths, name);
    SomeReady(b.endpoints);
    UnknownEndpointsAreRecorded(api.slices, api.legacy);
  }

  /** Every read behind one Service succeeded, or its absence is a fact. */
  ghost predicate BackendRead(api: BackendApi) {
    if api.service.Got? then
      && EndpointsOf(api.slices, api.legacy).known && (NeedsPods(api) ==> api.pods.Got?)
      && forall j :: j in Backends.NeedEvents(PodsBehind(api)) ==> api.podEvents(j).Got?
    else api.service.NotFound?
  }

  lemma BackendReadIff(api: BackendApi, order: seq<int>)
    requires LockOrder(api, order)
    ensures EntryDoubts(api, order) == [] <==> BackendRead(api)
    ensures EntryDoubts(api, order) == [] ==> EntryDoubts(api, []) == []
  {
    UnknownEndpointsAreRecorded(api.slices, api.legacy);
    Backends.SilentBackends(PodsBehind(api), api.podEvents, order);
    Backends.NeedEventsAreFirstUnready([]);
    assert Backends.BackendComplaints(PodsBehind(api), api.podEvents, []) == [];
  }

  lemma {:induction false} ServicesReadIff(api: IngressApi, resolved: Log)
    requires LockOrders(api, resolved)
    ensures DoubtsIn(api, resolved) == [] <==> forall n :: n in NamesRead(resolved) ==> BackendRead(api.backend(n))
  {
    if resolved != [] {
      assert forall i :: 0 <= i < |resolved| - 1 ==> Front(resolved)[i] == resolved[i];
      assert LockOrder(api.backend(Last(resolved).0), Last(resolved).1);
      ServicesReadIff(api, Front(resolved));
      BackendReadIff(api.backend(Last(resolved).0), Last(resolved).1);
    }
  }

  /** Every read the analysis of this Ingress depends on succeeded, or its NotFound is a fact. */
  ghost predicate EverythingRead(api: IngressApi) {
    && api.events.Got? && ClassDoubts(api.ingress, api.ingressClass, api.classes) == []
    && forall n :: n in ServicesNamed(Paths(api.ingress)) ==> BackendRead(api.backend(n))
  }

  lemma IngressReadIff(api: IngressApi, resolved: Log)
    requires Reads(api, resolved)
    ensures CollectedIngress(api, resolved).degradations == [] <==> EverythingRead(api)
  {
    RecordedFacts([], EarlyDoubts(api) + DoubtsIn(api, resolved));
    ServicesReadIff(api, resolved);
  }

  lemma IngressRuleOutputs(say: Wording, snap: IngressSnap, order: seq<string>)
    ensures |IngressRuleSet(say, order)| == 3
    ensures IngressRuleSet(say, order)[0](snap) == BackendRule(say, snap, order)
    ensures IngressRuleSet(say, order)[1](snap) == ClassRule(say, snap)
    ensures IngressRuleSet(say, order)[2](snap) == AddressRule(say, snap)
  {
  }

  lemma InIngressFindings(say: Wording, snap: IngressSnap, order: seq<string>, d: Diagnosis)
    ensures d in IngressFindings(say, snap, order) <==> d in BackendRule(say, snap, order) || d in ClassRule(say, snap) || d in AddressRule(say, snap)
  {
    IngressRuleOutputs(say, snap, order);
    InThree(IngressRuleSet(say, order), snap, d);
  }

  lemma FindingsForCalm(say: Wording, snap: IngressSnap, name: string)
    ensures Reports.Calm(FindingsFor(say, snap)(name)) <==> !Broken(snap, name)
  {
    var out := FindingsFor(say, snap)(name);
    assert out != [] ==> out[0] in out && out[0].severity == Critical;
  }

  lemma BackendsCalm(say: Wording, snap: IngressSnap, order: seq<string>)
    requires Enumerates(order, snap.services.Keys)
    ensures Reports.Calm(BackendRule(say, snap, order)) <==> snap.paths != [] && forall n :: n in snap.services ==> !Broken(snap, n)
  {
    var out := BackendRule(say, snap, order);
    if snap.paths == [] {
      assert out[0] in out;
    } else {
      var f, names := FindingsFor(say, snap), Sort(ByName(), order);
      SortedKeys(order, snap.services.Keys);
      Reports.CalmFlatMap(f, names);
      forall n ensures Reports.Calm(f(n)) <==> !Broken(snap, n) {
        FindingsForCalm(say, snap, n);
      }
    }
  }

  /** A controller has adopted the Ingress, or may still do so: it has an address, or it is young and
      the class it asks for, or else a default one, exists. */
  ghost predicate Adoptable(api: IngressApi) {
    || api.ingress.hasAddress
    || (&& api.now - api.ingress.createdAt < 2 * MINUTE
        && if WantedClass(api.ingress) != "" then api.ingress.className.Some? ==> api.ingressClass.Got?
           else api.classes.Got? && exists c :: c in api.classes.value && c.isDefault)
  }

  lemma ClassAndAddressCalm(say: Wording, api: IngressApi, resolved: Log)
    requires ClassDoubts(api.ingress, api.ingressClass, api.classes) == []
    ensures var snap := CollectedIngress(api, resolved);
            Reports.Calm(ClassRule(say, snap)) && Reports.Calm(AddressRule(say, snap)) <==> Adoptable(api)
  {
    var snap := CollectedIngress(api, resolved);
    var a, b := ClassRule(say, snap), AddressRule(say, snap);
    assert a != [] ==> a[0] in a && (a[0].severity == Critical || a[0].severity == Warning);
    assert b != [] ==> b[0] in b && b[0].severity == Warning;
    if api.classes.Got? {
      FirstWhereFound(IsDefaultEntry, api.classes.value);
    }
  }

  lemma IngressRulesCalm(say: Wording, snap: IngressSnap, order: seq<string>)
    ensures Reports.Calm(IngressFindings(say, snap, order))
       <==> Reports.Calm(BackendRule(say, snap, order)) && Reports.Calm(ClassRule(say, snap)) && Reports.Calm(AddressRule(say, snap))
  {
    forall d ensures d in IngressFindings(say, snap, order)
                <==> d in BackendRule(say, snap, order) || d in ClassRule(say, snap) || d in AddressRule(say, snap)
    {
      InIngressFindings(say, snap, order, d);
    }
    CalmInThree(IngressFindings(say, snap, order), BackendRule(say, snap, order), ClassRule(say, snap), AddressRule(say, snap));
  }

  lemma CalmInThree(all: seq<Diagnosis>, a: seq<Diagnosis>, b: seq<Diagnosis>, c: seq<Diagnosis>)
    requires forall d :: d in all <==> d in a || d in b || d in c
    ensures Reports.Calm(all) <==> Reports.Calm(a) && Reports.Calm(b) && Reports.Calm(c)
  {
  }

  lemma EntryWhole(api: IngressApi, resolved: Log, name: string)
    requires name in ServicesNamed(Paths(api.ingress))
    ensures Broken(CollectedIngress(api, resolved), name)
       <==> FirstBreak(BackendEntry(name, api.backend(name), api.now), RoutesTo(Paths(api.ingress), name)) != NotBroken
  {
  }

  lemma ServiceServesIff(api: BackendApi, name: string, paths: seq<Path>, now: int)
    requires BackendRead(api)
    ensures FirstBreak(BackendEntry(name, api, now), RoutesTo(paths, name)) == NotBroken <==> Serves(api, name, paths)
  {
    BreakIff(api, name, paths, now);
    UnknownEndpointsAreRecorded(api.slices, api.legacy);
    Backends.NeedEventsAreFirstUnready([]);
    assert Backends.BackendComplaints(PodsBehind(api), api.podEvents, []) == [];
  }

  /** Every Service some path leads to serves the paths that lead to it. */
  ghost predicate AllRoutesServed(api: IngressApi) {
    forall p :: p in Paths(api.ingress) && p.service != "" ==> Serves(api.backend(p.service), p.service, Paths(api.ingress))
  }

  lemma WholeIff(api: IngressApi, resolved: Log)
    requires EverythingRead(api)
    ensures (forall n :: n in ServicesNamed(Paths(api.ingress)) ==> !Broken(CollectedIngress(api, resolved), n)) <==> AllRoutesServed(api)
  {
    var paths := Paths(api.ingress);
    forall n | n in ServicesNamed(paths)
      ensures !Broken(CollectedIngress(api, resolved), n) <==> Serves(api.backend(n), n, paths)
    {
      EntryWhole(api, resolved, n);
      ServiceServesIff(api.backend(n), n, paths, api.now);
    }
    forall n ensures n in ServicesNamed(paths) <==> n != "" && exists i :: 0 <= i < |paths| && paths[i].service == n {
      ServicesNamedIff(paths, n);
    }
    forall p | p in paths && p.service != "" ensures p.service in ServicesNamed(paths) {
      var i :| 0 <= i < |paths| && paths[i] == p;
    }
    if AllRoutesServed(api) {
      forall n | n in ServicesNamed(paths) ensures Serves(api.backend(n), n, paths) {
        var i :| 0 <= i < |paths| && paths[i].service == n;
        assert paths[i] in paths;
      }
    }
  }

  lemma IngressCalmIff(say: Wording, api: IngressApi, resolved: Log, order: seq<string>)
    requires EverythingRead(api) && Enumerates(order, CollectedIngress(api, resolved).services.Keys)
    ensures Reports.Calm(IngressFindings(say, CollectedIngress(api, resolved), order))
       <==> Paths(api.ingress) != [] && AllRoutesServed(api) && Adoptable(api)
  {
    var snap := CollectedIngress(api, resolved);
    IngressRulesCalm(say, snap, order);
    BackendsCalm(say, snap, order);
    ClassAndAddressCalm(say, api, resolved);
    CollectedNames(api, resolved);
    WholeIff(api, resolved);
    assert forall n :: n in snap.services <==> n in ServicesNamed(Paths(api.ingress));
  }

  /** The Pods that had to be looked at, whatever the schedule and the iteration orders were. */
  ghost function PodsLookedAt(api: IngressApi): seq<PodSnap> {
    PodsBehindIngress(CollectedIngress(api, []), ServicesNamed(Paths(api.ingress)))
  }

  lemma PodsAlike(api: IngressApi, resolved: Log, order: seq<string>)
    requires Enumerates(order, CollectedIngress(api, resolved).services.Keys)
    ensures PodsBehindIngress(CollectedIngress(api, resolved), order) == PodsLookedAt(api)
  {
    var snap, none, names := CollectedIngress(api, resolved), CollectedIngress(api, []), ServicesNamed(Paths(api.ingress));
    ServicesNamedIff(Paths(api.ingress), "");
    CollectedNames(api, resolved);
    EnumerationsPermute(order, names, snap.services.Keys);
    SortedNamesAgree(order, names);
    SamePods(snap, none, Sort(ByName(), names));
  }

  lemma {:induction false} SamePods(a: IngressSnap, b: IngressSnap, names: seq<string>)
    requires a.services == b.services
    ensures FlatMap(PodsBehindService(a), names) == FlatMap(PodsBehindService(b), names)
  {
    if names != [] {
      SamePods(a, b, Front(names));
    }
  }

  /** The Pods behind the Services that publish nothing are well. */
  ghost predicate PodsWell(api: IngressApi) {
    forall n, s :: n in ServicesNamed(Paths(api.ingress)) && s in BackendEntry(n, api.backend(n), api.now).pods ==> PodHealth.Well(s)
  }

  lemma InPodsBehind(snap: IngressSnap, names: seq<string>, s: PodSnap)
    ensures s in PodsBehindIngress(snap, names) <==> exists n :: n in names && s in PodsBehindService(snap)(n)
  {
    var f, sorted := PodsBehindService(snap), Sort(ByName(), names);
    InFlatMap(f, sorted, s);
    forall n ensures n in sorted <==> n in names {
      SortMembers(ByName(), names, n);
    }
    if exists n :: n in names && s in f(n) {
      var n :| n in names && s in f(n);
      var i :| 0 <= i < |sorted| && sorted[i] == n;
    }
  }

  lemma PodsWellIff(api: IngressApi)
    ensures PodHealth.AllWell(PodsLookedAt(api)) <==> PodsWell(api)
  {
    var snap, names := CollectedIngress(api, []), ServicesNamed(Paths(api.ingress));
    forall s ensures s in PodsLookedAt(api) <==> exists n :: n in names && s in PodsBehindService(snap)(n) {
      InPodsBehind(snap, names, s);
    }
    assert forall n :: n in names ==> PodsBehindService(snap)(n) == BackendEntry(n, api.backend(n), api.now).pods;
  }

  /** It routes somewhere, every Service it routes to serves, and a controller has it or may take it. */
  ghost predicate Routed(api: IngressApi) {
    Paths(api.ingress) != [] && AllRoutesServed(api) && Adoptable(api)
  }

  /** For every API behaviour and every schedule, an Ingress is reported healthy when every read
      succeeded, it routes somewhere, every Service it routes to exists, exposes the ports asked for and
      has a ready endpoint or is a DNS alias, a controller has adopted it or may still do so, and the
      Pods behind Services that publish nothing are well; and only then, if history and trouble are
      worded apart. */
  lemma HealthyIngressIff(env: Env, api: IngressApi, resolved: Log, order: seq<string>, ords: seq<MapOrder>)
    requires Reads(api, resolved) && Enumerates(order, CollectedIngress(api, resolved).services.Keys)
    requires Walked(PodsLookedAt(api), ords)
    ensures PodsBehindIngress(CollectedIngress(api, resolved), order) == PodsLookedAt(api)
    ensures var healthy := Reports.Verdict(IngressDiagnoses(env, CollectedIngress(api, resolved), order, ords), CollectedIngress(api, resolved).degradations) == Reports.Healthy;
            && (EverythingRead(api) && Routed(api) && PodsWell(api) ==> healthy)
            && (healthy ==> EverythingRead(api) && Routed(api))
            && (PodHealth.HistoryApart(env.say) ==> (healthy <==> EverythingRead(api) && Routed(api) && PodsWell(api)))
  {
    var snap := CollectedIngress(api, resolved);
    PodsAlike(api, resolved, order);
    var pods := AggregatedPods(env, PodsBehindIngress(snap, order), ords);
    IngressReadIff(api, resolved);
    Reports.HealthyIff(IngressDiagnoses(env, snap, order, ords), snap.degradations);
    AssembledCalm(IngressFindings(env.say, snap, order), pods, {IngressServiceNoEndpoints});
    PodHealth.CalmPodsIff(env, PodsLookedAt(api), ords);
    PodsWellIff(api);
    if EverythingRead(api) {
      IngressCalmIff(env.say, api, resolved, order);
    }
  }

  // ---- No dangling cause ----

  lemma FindingsUncaused(say: Wording, snap: IngressSnap, name: string)
    ensures PodTheorems.Uncaused(FindingsFor(say, snap)(name))
  {
  }

  lemma BackendRuleUncaused(say: Wording, snap: IngressSnap, order: seq<string>)
    ensures PodTheorems.Uncaused(BackendRule(say, snap, order))
  {
    forall name ensures PodTheorems.Uncaused(FindingsFor(say, snap)(name)) {
      FindingsUncaused(say, snap, name);
    }
    PodTheorems.UncausedFlatMap(FindingsFor(say, snap), Sort(ByName(), order));
  }

  lemma OtherRulesUncaused(say: Wording, snap: IngressSnap)
    ensures PodTheorems.Uncaused(ClassRule(say, snap)) && PodTheorems.Uncaused(AddressRule(say, snap))
  {
  }

  lemma IngressRulesUncaused(say: Wording, snap: IngressSnap, order: seq<string>)
    ensures NoDanglingCause(IngressFindings(say, snap, order))
  {
    BackendRuleUncaused(say, snap, order);
    OtherRulesUncaused(say, snap);
    forall d | d in IngressFindings(say, snap, order) ensures d.causedBy == NoID {
      InIngressFindings(say, snap, order, d);
    }
  }

  lemma PodBehind(snap: IngressSnap, order: seq<string>, s: PodSnap)
    requires s in PodsBehindIngress(snap, order)
    ensures exists n :: n in snap.services && s in snap.services[n].pods
  {
    var names := Sort(ByName(), order);
    InFlatMap(PodsBehindService(snap), names, s);
    var i :| 0 <= i < |names| && s in PodsBehindService(snap)(names[i]);
    assert names[i] in snap.services && s in snap.services[names[i]].pods;
  }

  lemma EntryPods(name: string, api: BackendApi, now: int, s: PodSnap)
    requires s in BackendEntry(name, api, now).pods
    ensures s.configMaps == map[] && s.secrets == map[] && s.claims == map[]
  {
    var snaps := Backends.BackendSnaps(PodsBehind(api), now, api.podEvents);
    var k :| 0 <= k < |snaps| && snaps[k] == s;
    assert snaps[k] == Backends.BackendSnapAt(PodsBehind(api), now, api.podEvents, k);
  }

  /** Pods behind an Ingress are backend snapshots: nothing beyond their events is read for them. */
  lemma BackendPodOrigin(api: IngressApi, resolved: Log, order: seq<string>, s: PodSnap)
    requires s in PodsBehindIngress(CollectedIngress(api, resolved), order)
    ensures s.configMaps == map[] && s.secrets == map[] && s.claims == map[] && PodTheorems.CollectorShaped(s)
  {
    var snap := CollectedIngress(api, resolved);
    PodBehind(snap, order, s);
    var n :| n in snap.services && s in snap.services[n].pods;
    EntryPods(n, api.backend(n), api.now, s);
  }

  lemma IngressNoDanglingCause(env: Env, api: IngressApi, resolved: Log, order: seq<string>, ords: seq<MapOrder>)
    requires Walked(PodsBehindIngress(CollectedIngress(api, resolved), order), ords)
    ensures NoDanglingCause(IngressDiagnoses(env, CollectedIngress(api, resolved), order, ords))
  {
    var snap := CollectedIngress(api, resolved);
    var pods := PodsBehindIngress(snap, order);
    forall i | 0 <= i < |pods| ensures PodTheorems.CollectorShaped(pods[i]) {
      BackendPodOrigin(api, resolved, order, pods[i]);
    }
    AggregatedPodsClosed(env, pods, ords);
    IngressRulesUncaused(env.say, snap, order);
    AssembledClosed(IngressFindings(env.say, snap, order), AggregatedPods(env, pods, ords), {IngressServiceNoEndpoints});
  }
}
