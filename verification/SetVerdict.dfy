/** The findings and the verdict about a StatefulSet as a table over the answers of the API. */
module SetVerdict {
  import opened Sequences
  import opened Text
  import opened Names
  import opened Model
  import opened Collecting
  import opened Pods
  import opened PodRules
  import opened Storage
  import opened Ordinals
  import opened Assembly
  import opened Reports
  import opened StatefulSets
  import StableSort
  import Backends
  import PodCollect
  import PodReads

  function Ref(sts: SetObject): ResourceRef {
    ResourceRef("StatefulSet", sts.ns, sts.name)
  }

  /** One replica unless the spec says otherwise. */
  function Wanted(sts: SetObject): int {
    match sts.replicas
    case None => 1
    case Some(n) => n
  }

  ghost predicate Owned(api: SetApi, p: PodObject) {
    api.selectorError.None? && api.pods.Got? && p in api.pods.value && api.sts.uid in p.owners
  }

  ghost predicate InService(p: PodObject) {
    p.phase == Running && exists c :: FirstCondition(p, "Ready", c) && c.status == "True"
  }

  // ---- The table ----

  predicate SaysShort(sts: SetObject, m: Mark) {
    && Wanted(sts) != 0 && sts.readyReplicas < Wanted(sts)
    && m == Mark(StatefulSetUnavailableReplicas, Ref(sts), "", if sts.readyReplicas <= 0 then Critical else Warning)
  }

  predicate NewRevision(sts: SetObject) {
    sts.updateRevision != "" && sts.updateRevision != sts.currentRevision
  }

  predicate SaysUpdate(sts: SetObject, m: Mark) {
    if Wanted(sts) == 0 then m == Mark(StatefulSetScaledToZero, Ref(sts), "", Info)
    else && NewRevision(sts)
         && ((sts.onDelete && m == Mark(StatefulSetUpdateOnDelete, Ref(sts), "", Info))
             || (sts.partition.Some? && sts.partition.value > 0 && m == Mark(StatefulSetUpdatePartitioned, Ref(sts), "", Info)))
  }

  predicate SaysService(api: SetApi, m: Mark) {
    && api.sts.serviceName != ""
    && ((api.service.NotFound? && m == Mark(StatefulSetServiceNotFound, Ref(api.sts), "", Warning))
       || (api.service.Got? && !api.service.value
           && m == Mark(StatefulSetServiceNotHeadless, ResourceRef("Service", api.sts.ns, api.sts.serviceName), "", Warning)))
  }

  // ---- Rollout ----

  /** Some owned Pod carries the ordinal. */
  ghost predicate Carried(api: SetApi, n: int) {
    exists p :: Owned(api, p) && Ordinal(p.name) != None && Ordinal(p.name).value == n
  }

  /** The Pod at which an ordered rollout stops: not in service, and listed before all others like it. */
  ghost predicate Blocks(api: SetApi, p: PodObject) {
    var ps := OwnedPods(api);
    exists k :: 0 <= k < |ps| && ps[k] == p && !InService(p) && forall j :: 0 <= j < k ==> InService(ps[j])
  }

  ghost predicate SaysBlocked(api: SetApi, m: Mark) {
    && !api.sts.parallel && Wanted(api.sts) != 0
    && (exists n :: 0 <= n < Wanted(api.sts) && !Carried(api, n))
    && exists p :: Blocks(api, p) && m == Mark(StatefulSetOrderedRolloutBlocked, Ref(api.sts), p.name, Critical)
  }

  // ---- Claims ----

  /** Claims are looked at while some wanted replica is absent or not in service. */
  ghost predicate Incomplete(api: SetApi) {
    |OwnedPods(api)| < Wanted(api.sts) || exists p :: Owned(api, p) && !InService(p)
  }

  /** The claim of some template of some wanted replica. */
  ghost predicate ReplicaNeeds(sts: SetObject, name: string) {
    exists k: nat, t :: k < Wanted(sts) && t in sts.templates && name == t + "-" + sts.name + "-" + Decimal(k)
  }

  ghost predicate SaysClaim(api: SetApi, name: string, m: Mark) {
    var ref := ResourceRef("PersistentVolumeClaim", api.sts.ns, name);
    && Incomplete(api) && ReplicaNeeds(api.sts, name)
    && match api.claim(name)
       case NotFound(_) => m == Mark(StatefulSetClaimNotFound, ref, "", Critical)
       case Got(c) => c.phase != Bound && m == Mark(StatefulSetClaimNotBound, ref, "", if WaitsOnPurpose(c, api.classes(name)) then Info else Critical)
       case _ => false
  }

  ghost predicate SaysSomeClaim(api: SetApi, m: Mark) {
    exists name :: SaysClaim(api, name, m)
  }

  /** What is to be reported about the StatefulSet itself. */
  ghost predicate SetSays(api: SetApi, m: Mark) {
    SaysBlocked(api, m) || SaysSomeClaim(api, m) || SaysService(api, m) || SaysUpdate(api.sts, m) || SaysShort(api.sts, m)
  }

  // ---- The rules agree with it ----

  lemma InOwnedPods(api: SetApi, p: PodObject)
    ensures p in OwnedPods(api) <==> Owned(api, p)
  {
    if api.selectorError.None? && api.pods.Got? {
      InOwned(api.pods.value, api.sts.uid, p);
    }
  }

  lemma BlockerIs(api: SetApi)
    ensures FirstUnready(OwnedPods(api)).None? <==> forall p :: !Blocks(api, p)
    ensures forall p :: Blocks(api, p) <==> FirstUnready(OwnedPods(api)) == Some(p)
  {
    var ps := OwnedPods(api);
    FirstWhereFound(LacksReadiness, ps);
    forall p ensures LacksReadiness(p) <==> !InService(p) {
      ReadyIff(p);
    }
    assert forall k :: 0 <= k < |ps| ==> ps[k] in ps;
    forall p ensures Blocks(api, p) <==> FirstUnready(ps) == Some(p) {
      if FirstUnready(ps).Some? {
        var i :| 0 <= i < |ps| && FirstUnready(ps).value == ps[i] && LacksReadiness(ps[i]) && forall j :: 0 <= j < i ==> !LacksReadiness(ps[j]);
      }
    }
  }

  lemma CarriedIff(api: SetApi, n: int)
    ensures Present(OwnedPods(api), n) <==> Carried(api, n)
  {
    var ps := OwnedPods(api);
    if Present(ps, n) {
      var i :| 0 <= i < |ps| && Ordinal(ps[i].name).Some? && Ordinal(ps[i].name).value == n;
      InOwnedPods(api, ps[i]);
    }
    forall p | Owned(api, p) && Ordinal(p.name) != None && Ordinal(p.name).value == n ensures Present(ps, n) {
      InOwnedPods(api, p);
      var i :| 0 <= i < |ps| && ps[i] == p;
      assert Ordinal(ps[i].name).Some? && Ordinal(ps[i].name).value == n;
    }
  }

  lemma AbsentIff(api: SetApi)
    ensures MissingOrdinals(OwnedPods(api), Wanted(api.sts)) != [] <==> exists n :: 0 <= n < Wanted(api.sts) && !Carried(api, n)
  {
    var missing := MissingOrdinals(OwnedPods(api), Wanted(api.sts));
    MissingIsComplement(OwnedPods(api), Wanted(api.sts));
    forall n ensures Present(OwnedPods(api), n) <==> Carried(api, n) {
      CarriedIff(api, n);
    }
    assert missing != [] ==> missing[0] in missing;
    forall n | 0 <= n < Wanted(api.sts) && !Carried(api, n) ensures missing != [] {
      assert n in missing;
    }
  }

  lemma OrderingMarks(say: Wording, snap: SetSnap, ps: seq<PodObject>, m: Mark)
    requires PodsIn(snap) == ps
    ensures Marked(OrderingRule(say, snap), m) <==>
              && !snap.sts.parallel && Wanted(snap.sts) != 0 && MissingOrdinals(ps, Wanted(snap.sts)) != [] && FirstUnready(ps).Some?
              && m == Mark(StatefulSetOrderedRolloutBlocked, Ref(snap.sts), FirstUnready(ps).value.name, Critical)
  {
    OrderingRuleIs(say, snap, ps);
    MarkedOne(OrderingRule(say, snap), m);
  }

  lemma OrderingSays(say: Wording, api: SetApi, goroutines: seq<int>, m: Mark)
    ensures Marked(OrderingRule(say, CollectedSet(api, goroutines)), m) <==> SaysBlocked(api, m)
  {
    BackendPods(OwnedPods(api), api.now, api.podEvents);
    BlockerIs(api);
    AbsentIff(api);
    OrderingMarks(say, CollectedSet(api, goroutines), OwnedPods(api), m);
  }

  lemma ClaimsReadIff(api: SetApi, name: string)
    ensures name in ClaimsRead(api) <==> Incomplete(api) && ReplicaNeeds(api.sts, name)
  {
    var ps := OwnedPods(api);
    InClaimsNeeded(api.sts, Replicas(api.sts), name);
    assert forall k: nat, t :: ClaimName(t, api.sts.name, k) == t + "-" + api.sts.name + "-" + Decimal(k);
    forall p ensures p in ps <==> Owned(api, p) {
      InOwnedPods(api, p);
    }
    forall p ensures PodReady(p) <==> InService(p) {
      ReadyIff(p);
    }
    assert forall i :: 0 <= i < |ps| ==> ps[i] in ps;
    assert AllPodsReady(ps, api.sts.Desired()) <==> !Incomplete(api);
  }

  lemma ClaimSays(say: Wording, api: SetApi, goroutines: seq<int>, name: string, m: Mark)
    ensures Marked(SetClaimFindings(say, CollectedSet(api, goroutines), name), m) <==> SaysClaim(api, name, m)
  {
    var snap := CollectedSet(api, goroutines);
    ClaimsReadIff(api, name);
    PodReads.EntryRecords(name, api.claim(name), api.classes(name));
    assert name in snap.claims ==> snap.claims[name] == PodCollect.ClaimEntry(name, api.claim(name), api.classes(name));
    MarkedOne(SetClaimFindings(say, snap, name), m);
  }

  lemma ClaimsSay(say: Wording, api: SetApi, goroutines: seq<int>, order: seq<string>, m: Mark)
    requires Enumerates(order, CollectedSet(api, goroutines).claims.Keys)
    ensures Marked(SetClaimRule(say, CollectedSet(api, goroutines), order), m) <==> SaysSomeClaim(api, m)
  {
    var snap := CollectedSet(api, goroutines);
    var f, names := SetClaimOf(say, snap), StableSort.Sort(ByName(), order);
    forall n ensures n in names <==> n in snap.claims {
      StableSort.SortMembers(ByName(), order, n);
      assert n in order <==> n in (set x | x in order);
    }
    MarkedBySome(f, names, m);
    forall n ensures Marked(f(n), m) <==> SaysClaim(api, n, m) {
      assert f(n) == SetClaimFindings(say, snap, n);
      ClaimSays(say, api, goroutines, n, m);
    }
    forall n | SaysClaim(api, n, m) ensures n in names {
      ClaimsReadIff(api, n);
    }
  }

  lemma ServiceSays(say: Wording, api: SetApi, goroutines: seq<int>, m: Mark)
    ensures Marked(ServiceRule(say, CollectedSet(api, goroutines)), m) <==> SaysService(api, m)
  {
    MarkedOne(ServiceRule(say, CollectedSet(api, goroutines)), m);
  }

  lemma UpdateSays(say: Wording, snap: SetSnap, m: Mark)
    ensures Marked(UpdateRule(say, snap), m) <==> SaysUpdate(snap.sts, m)
  {
    var sts, out := snap.sts, UpdateRule(say, snap);
    if Wanted(sts) == 0 {
      MarkedOne(out, m);
    } else {
      var a := if sts.onDelete && sts.RolloutPending() then [Finding(StatefulSetUpdateOnDelete, snap.Ref(), "", Info, Certain, say(StatefulSetUpdateOnDelete, 0, []))] else [];
      var b := out[|a|..];
      assert out == a + b;
      MarkedConcat(a, b, m);
      MarkedOne(a, m);
      MarkedOne(b, m);
    }
  }

  lemma ShortSays(say: Wording, snap: SetSnap, m: Mark)
    ensures Marked(AvailabilityRule(say, snap), m) <==> SaysShort(snap.sts, m)
  {
    MarkedOne(AvailabilityRule(say, snap), m);
  }

  lemma FiveMarks(say: Wording, snap: SetSnap, order: seq<string>, m: Mark)
    ensures Marked(SetFindings(say, snap, order), m) <==>
              || Marked(OrderingRule(say, snap), m) || Marked(SetClaimRule(say, snap, order), m) || Marked(ServiceRule(say, snap), m)
              || Marked(UpdateRule(say, snap), m) || Marked(AvailabilityRule(say, snap), m)
  {
    SetRuleOutputs(say, snap, order);
    MarkedEvaluated(SetRules(say, order), snap, m);
  }

  /** The StatefulSet rules report exactly what the table says, for every API behaviour, schedule and
      iteration order. */
  lemma SetRulesSay(say: Wording, api: SetApi, goroutines: seq<int>, order: seq<string>, m: Mark)
    requires Enumerates(order, CollectedSet(api, goroutines).claims.Keys)
    ensures Marked(SetFindings(say, CollectedSet(api, goroutines), order), m) <==> SetSays(api, m)
  {
    var snap := CollectedSet(api, goroutines);
    FiveMarks(say, snap, order, m);
    OrderingSays(say, api, goroutines, m);
    ClaimsSay(say, api, goroutines, order, m);
    ServiceSays(say, api, goroutines, m);
    UpdateSays(say, snap, m);
    ShortSays(say, snap, m);
  }

  /** What a StatefulSet report says: what is to be said about the set, and what its Pods show. */
  lemma SetReportSays(env: Env, api: SetApi, goroutines: seq<int>, order: seq<string>, ords: seq<MapOrder>, m: Mark)
    requires Enumerates(order, CollectedSet(api, goroutines).claims.Keys) && |ords| == |OwnedPods(api)|
    ensures Marked(SetDiagnoses(env, CollectedSet(api, goroutines), order, ords), m)
       <==> SetSays(api, m) || Marked(SetPodFindings(env, CollectedSet(api, goroutines), ords), m)
  {
    var snap := CollectedSet(api, goroutines);
    SetRulesSay(env.say, api, goroutines, order, m);
    AssembledMarked(SetFindings(env.say, snap, order), SetPodFindings(env, snap, ords), {StatefulSetUnavailableReplicas}, m);
  }

  ghost predicate ClaimAbsentOrStuck(api: SetApi) {
    && Incomplete(api)
    && exists name :: ReplicaNeeds(api.sts, name)
                      && (|| api.claim(name).NotFound?
                          || (api.claim(name).Got? && api.claim(name).value.phase != Bound && !WaitsOnPurpose(api.claim(name).value, api.classes(name))))
  }

  ghost predicate SetBroken(api: SetApi) {
    || (!api.sts.parallel && Wanted(api.sts) != 0 && (exists n :: 0 <= n < Wanted(api.sts) && !Carried(api, n)) && exists p :: Owned(api, p) && !InService(p))
    || ClaimAbsentOrStuck(api)
    || (Wanted(api.sts) != 0 && api.sts.readyReplicas < Wanted(api.sts) && api.sts.readyReplicas <= 0)
  }

  ghost predicate SetShaky(api: SetApi) {
    || (api.sts.serviceName != "" && (api.service.NotFound? || (api.service.Got? && !api.service.value)))
    || (Wanted(api.sts) != 0 && 0 < api.sts.readyReplicas < Wanted(api.sts))
  }

  lemma SomeBlocker(api: SetApi)
    ensures (exists p :: Blocks(api, p)) <==> exists p :: Owned(api, p) && !InService(p)
  {
    var ps := OwnedPods(api);
    BlockerIs(api);
    FirstWhereFound(LacksReadiness, ps);
    forall p ensures (p in ps <==> Owned(api, p)) && (LacksReadiness(p) <==> !InService(p)) {
      InOwnedPods(api, p);
      ReadyIff(p);
    }
    if FirstUnready(ps).Some? {
      assert Blocks(api, FirstUnready(ps).value);
      assert FirstUnready(ps).value in ps;
    }
  }

  lemma SetSeverities(api: SetApi)
    ensures SetBroken(api) <==> exists m: Mark :: m.severity == Critical && SetSays(api, m)
    ensures SetShaky(api) <==> exists m: Mark :: m.severity == Warning && SetSays(api, m)
  {
    var sts, r := api.sts, Ref(api.sts);
    SomeBlocker(api);
    CriticalClaims(api);
    assert SaysShort(sts, Mark(StatefulSetUnavailableReplicas, r, "", Critical)) <==> Wanted(sts) != 0 && sts.readyReplicas < Wanted(sts) && sts.readyReplicas <= 0;
    assert SaysShort(sts, Mark(StatefulSetUnavailableReplicas, r, "", Warning)) <==> Wanted(sts) != 0 && 0 < sts.readyReplicas < Wanted(sts);
    assert SaysService(api, Mark(StatefulSetServiceNotFound, r, "", Warning)) <==> sts.serviceName != "" && api.service.NotFound?;
    assert SaysService(api, Mark(StatefulSetServiceNotHeadless, ResourceRef("Service", sts.ns, sts.serviceName), "", Warning))
      <==> sts.serviceName != "" && api.service.Got? && !api.service.value;
    forall p | Blocks(api, p) && !sts.parallel && Wanted(sts) != 0 && exists n :: 0 <= n < Wanted(sts) && !Carried(api, n)
      ensures SaysBlocked(api, Mark(StatefulSetOrderedRolloutBlocked, r, p.name, Critical))
    {
    }
  }

  lemma CriticalClaims(api: SetApi)
    ensures ClaimAbsentOrStuck(api) <==> exists m: Mark :: m.severity == Critical && SaysSomeClaim(api, m)
    ensures forall m: Mark :: SaysSomeClaim(api, m) ==> m.severity != Warning
  {
    if ClaimAbsentOrStuck(api) {
      var name :| ReplicaNeeds(api.sts, name)
                  && (|| api.claim(name).NotFound?
                      || (api.claim(name).Got? && api.claim(name).value.phase != Bound && !WaitsOnPurpose(api.claim(name).value, api.classes(name))));
      var ref := ResourceRef("PersistentVolumeClaim", api.sts.ns, name);
      var m := Mark(if api.claim(name).NotFound? then StatefulSetClaimNotFound else StatefulSetClaimNotBound, ref, "", Critical);
      assert SaysClaim(api, name, m);
    }
  }

  ghost function SetStatus(env: Env, api: SetApi, ords: seq<MapOrder>): Status
    requires |ords| == |OwnedPods(api)|
  {
    var found := SetPodFindings(env, CollectedSet(api, []), ords);
    if SetBroken(api) || Has(found, Critical) then Unhealthy
    else if SetShaky(api) || Has(found, Warning) then Degraded
    else if EverythingRead(api) then Healthy
    else Status.Unknown
  }

  /** The exact status of a StatefulSet report, for every API behaviour, schedule and wording. */
  lemma ExactSetStatus(env: Env, api: SetApi, goroutines: seq<int>, order: seq<string>, ords: seq<MapOrder>)
    requires Backends.Covers(goroutines, |Backends.NeedEvents(OwnedPods(api))|)
    requires Enumerates(order, CollectedSet(api, goroutines).claims.Keys) && |ords| == |OwnedPods(api)|
    ensures Verdict(SetDiagnoses(env, CollectedSet(api, goroutines), order, ords), CollectedSet(api, goroutines).degradations)
         == SetStatus(env, api, ords)
  {
    var snap := CollectedSet(api, goroutines);
    var ds, found := SetDiagnoses(env, snap, order, ords), SetPodFindings(env, snap, ords);
    PodFindingsAlike(env, snap, CollectedSet(api, []), ords);
    HasMarked(ds, Critical);
    HasMarked(ds, Warning);
    HasMarked(found, Critical);
    HasMarked(found, Warning);
    forall m ensures Marked(ds, m) <==> SetSays(api, m) || Marked(found, m) {
      SetReportSays(env, api, goroutines, order, ords, m);
    }
    SetSeverities(api);
    SetReadIff(api, goroutines);
  }

  /** What the Pods show depends on the set's claims and name, not on what was recorded meanwhile. */
  lemma PodFindingsAlike(env: Env, a: SetSnap, b: SetSnap, ords: seq<MapOrder>)
    requires a.sts == b.sts && a.claims == b.claims && a.pods == b.pods && |ords| == |a.pods|
    ensures SetPodFindings(env, a, ords) == SetPodFindings(env, b, ords)
  {
    GatheredAlike(ShownBy(env, a), ShownBy(env, b), a.pods, ords);
  }

  lemma {:induction false} GatheredAlike(f: (PodSnap, MapOrder) -> seq<Diagnosis>, g: (PodSnap, MapOrder) -> seq<Diagnosis>, pods: seq<PodSnap>, ords: seq<MapOrder>)
    requires |pods| == |ords| && forall p, o :: f(p, o) == g(p, o)
    ensures Gathered(f, pods, ords) == Gathered(g, pods, ords)
  {
    if pods != [] {
      GatheredAlike(f, g, Front(pods), Front(ords));
    }
  }
}
