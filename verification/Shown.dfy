/** Whose Pods each report is about. */
module Shown {
  import opened Sequences
  import opened Collecting
  import opened Pods
  import Backends
  import StableSort
  import Services
  import ServiceVerdict
  import Deployments
  import StatefulSets
  import Ordinals
  import Ingresses
  import IngressRules
  import IngressVerdict
  import Claims

  /** One snapshot per Pod, in the order of the list. */
  ghost predicate Shows(snaps: seq<PodSnap>, pods: seq<PodObject>, now: int) {
    |snaps| == |pods| && forall i :: 0 <= i < |pods| ==> snaps[i].pod == pods[i] && snaps[i].now == now
  }

  lemma SnapsShow(pods: seq<PodObject>, now: int, fetch: Backends.Fetch)
    ensures Shows(Backends.BackendSnaps(pods, now, fetch), pods, now)
  {
    forall i | 0 <= i < |pods| ensures var s := Backends.BackendSnaps(pods, now, fetch)[i]; s.pod == pods[i] && s.now == now {
      Backends.BackendSnapIs(pods, now, fetch, i);
    }
  }

  /** A Deployment report is about the Pods its selector lists, as far as they can be listed. */
  lemma DeploymentShows(api: Deployments.DeploymentApi)
    ensures Shows(Deployments.CollectedPods(api), if api.selectorError == None && api.pods.Got? then api.pods.value else [], api.now)
  {
    SnapsShow(Deployments.PodsOf(api), api.now, api.podEvents);
  }

  /** A Service report is about the Pods it selects; an alias and a Service without a selector have none. */
  lemma ServiceShows(api: Services.ServiceApi)
    ensures Shows(Services.BackendsBehind(api),
                  if !api.service.external && |api.service.selector| > 0 && api.pods.Got? then api.pods.value else [], api.now)
  {
    SnapsShow(Services.PodsOf(api), api.now, api.podEvents);
    assert api.service.selector == map[] <==> |api.service.selector| == 0 by {
      if |api.service.selector| == 0 {
        assert api.service.selector.Keys == {};
      }
    }
  }

  ghost predicate Owned(api: StatefulSets.SetApi, p: PodObject) {
    api.selectorError == None && api.pods.Got? && p in api.pods.value && api.sts.uid in p.owners
  }

  /** A StatefulSet report is about the listed Pods that the set owns, each as often as it is listed. */
  lemma SetShows(api: StatefulSets.SetApi)
    ensures Shows(StatefulSets.SnapsOf(api), StatefulSets.OwnedPods(api), api.now)
    ensures forall p :: p in StatefulSets.OwnedPods(api) <==> Owned(api, p)
    ensures forall p :: Owned(api, p) ==> multiset(StatefulSets.OwnedPods(api))[p] == multiset(api.pods.value)[p]
  {
    SnapsShow(StatefulSets.OwnedPods(api), api.now, api.podEvents);
    if api.selectorError == None && api.pods.Got? {
      var pods, mine := api.pods.value, Ordinals.OwnedBy(api.sts.uid);
      var kept := Filter(mine, pods);
      StableSort.SortPermutes(Ordinals.ByOrdinal(), kept);
      forall p ensures p in StatefulSets.OwnedPods(api) <==> Owned(api, p) {
        StableSort.SortMembers(Ordinals.ByOrdinal(), kept, p);
        InFilter(mine, pods, p);
      }
      forall p | Owned(api, p) ensures multiset(StatefulSets.OwnedPods(api))[p] == multiset(pods)[p] {
        KeptAsOften(mine, pods, p);
      }
    }
  }

  lemma {:induction false} KeptAsOften(f: PodObject -> bool, pods: seq<PodObject>, p: PodObject)
    requires f(p)
    ensures multiset(Filter(f, pods))[p] == multiset(pods)[p]
  {
    if pods != [] {
      KeptAsOften(f, Front(pods), p);
      assert pods == Front(pods) + [Last(pods)];
      assert multiset(pods) == multiset(Front(pods)) + multiset{Last(pods)};
    }
  }

  /** The Pods behind a Service that an Ingress routes to are looked at only when it publishes no ready
      endpoint although it selects Pods. */
  ghost predicate LookedAt(api: Ingresses.IngressApi, s: PodSnap) {
    exists name, i :: IngressVerdict.LeadsTo(api, name) && BehindAt(api.backend(name), api.now, s, i)
  }

  ghost predicate Suspect(b: Ingresses.BackendApi) {
    && b.service.Got? && b.service.value.selector != map[] && b.pods.Got?
    && ServiceVerdict.EndpointsReadable(b.slices, b.legacy) && !ServiceVerdict.SomeEndpoint(b.slices, b.legacy, true)
  }

  ghost predicate BehindAt(b: Ingresses.BackendApi, now: int, s: PodSnap, i: int) {
    Suspect(b) && 0 <= i < |b.pods.value| && s == Backends.BackendSnaps(b.pods.value, now, b.podEvents)[i]
  }

  lemma EntryShows(name: string, b: Ingresses.BackendApi, now: int, s: PodSnap)
    ensures s in Ingresses.BackendEntry(name, b, now).pods <==> exists i :: BehindAt(b, now, s, i)
  {
    ServiceVerdict.EndpointFacts(b.slices, b.legacy);
    if Suspect(b) {
      var snaps := Backends.BackendSnaps(b.pods.value, now, b.podEvents);
      assert Ingresses.BackendEntry(name, b, now).pods == snaps;
      if s in snaps {
        var i :| 0 <= i < |snaps| && snaps[i] == s;
        assert BehindAt(b, now, s, i);
      }
    }
  }

  /** An Ingress report is about the Pods behind the Services it routes to that publish nothing. */
  lemma IngressShows(api: Ingresses.IngressApi, s: PodSnap)
    ensures s in IngressRules.PodsLookedAt(api) <==> LookedAt(api, s)
  {
    var snap, names := Ingresses.CollectedIngress(api, []), Ingresses.ServicesNamed(Ingresses.Paths(api.ingress));
    IngressRules.InPodsBehind(snap, names, s);
    forall n ensures n in names <==> IngressVerdict.LeadsTo(api, n) {
      IngressVerdict.NamedIff(api, n);
    }
    forall n | n in names ensures s in IngressRules.PodsBehindService(snap)(n) <==> exists i :: BehindAt(api.backend(n), api.now, s, i) {
      EntryShows(n, api.backend(n), api.now, s);
    }
  }

  /** A claim report counts the listed Pods that mount the claim. */
  lemma ClaimShows(api: Claims.ClaimApi, p: PodObject)
    ensures p in Claims.Consumers(api) <==> api.pods.Got? && p in api.pods.value && exists v :: v in p.volumes && v.claim == Some(api.claim.name)
  {
    if api.pods.Got? {
      InFilter(Claims.UsesClaim(api.claim.name), api.pods.value, p);
      FirstWhereFound(Claims.Mounts(api.claim.name), p.volumes);
    }
  }
}
