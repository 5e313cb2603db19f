/** PersistentVolumeClaims: collection, rules and report (internal/collect/pvc.go,
    internal/diagnosis/rules/pvc, internal/analyze/pvc.go). */
module Claims {
  import opened Sequences
  import opened Model
  import opened Events
  import opened Collecting
  import opened Pods
  import opened Storage
  import Backends
  import Reports
  import Engine

  datatype ClaimSnap = ClaimSnap(
    claim: ClaimObject, events: seq<Event>, storageClass: ClassInfo, consumers: Option<seq<PodSnap>>,
    degradations: seq<Degradation>, now: int)
  {
    function Ref(): ResourceRef {
      ResourceRef("PersistentVolumeClaim", claim.ns, claim.name)
    }

    predicate IsBound() {
      claim.phase == Bound
    }

    /** Known and unused, as opposed to nobody could look. */
    predicate Unused() {
      consumers == Some([])
    }
  }

  // ---- Rules ----

  function StorageClassRule(say: Wording, snap: ClaimSnap): seq<Diagnosis> {
    if snap.IsBound() || snap.storageClass.explicitlyNone then []
    else if snap.storageClass.requested && snap.storageClass.existence == Missing then
      [Finding(PVCStorageClassNotFound, snap.Ref(), "", Critical, Certain, say(PVCStorageClassNotFound, 0, [Text(snap.storageClass.name)]))]
    else if !snap.storageClass.requested && snap.storageClass.defaultExists == Missing then
      [Finding(PVCNoDefaultClass, snap.Ref(), "", Critical, Certain, say(PVCNoDefaultClass, 0, []))]
    else []
  }

  function ProvisioningCause(c: ClassInfo): FindingID {
    if c.existence != Missing then NoID
    else if c.requested then PVCStorageClassNotFound else PVCNoDefaultClass
  }

  function ProvisioningRule(say: Wording, snap: ClaimSnap): seq<Diagnosis> {
    if snap.IsBound() then []
    else if LatestOf(snap.events, ["ProvisioningFailed"]).Some? then
      [Finding(PVCProvisioningFailed, snap.Ref(), "", Critical, Certain, say(PVCProvisioningFailed, 0, []))
       .(causedBy := ProvisioningCause(snap.storageClass))]
    else if LatestOf(snap.events, ["FailedBinding"]).Some? then
      [Finding(PVCNoMatchingVolume, snap.Ref(), "", Critical, Certain, say(PVCNoMatchingVolume, 0, []))]
    else []
  }

  function ConsumerRule(say: Wording, snap: ClaimSnap): seq<Diagnosis> {
    if snap.IsBound() || !snap.storageClass.WaitsForConsumer() then []
    else if snap.Unused() then [Finding(PVCNoConsumer, snap.Ref(), "", Warning, Certain, say(PVCNoConsumer, 0, []))]
    else [Finding(PVCWaitingForConsumer, snap.Ref(), "", Info, Certain, say(PVCWaitingForConsumer, 0, []))]
  }

  function LostRule(say: Wording, snap: ClaimSnap): seq<Diagnosis> {
    if snap.claim.phase != Lost then []
    else [Finding(PVCLost, snap.Ref(), "", Critical, Certain, say(PVCLost, 0, []))]
  }

  function Fallback(say: Wording, snap: ClaimSnap): seq<Diagnosis> {
    if snap.IsBound() || snap.claim.phase == Lost then []
    else [Finding(PVCPending, snap.Ref(), "", Critical, Certain, say(PVCPending, 0, [Age(snap.now - snap.claim.createdAt)]))]
  }

  function ClaimRules(say: Wording): seq<Engine.Rule<ClaimSnap>> {
    [(s: ClaimSnap) => StorageClassRule(say, s), (s: ClaimSnap) => ProvisioningRule(say, s),
     (s: ClaimSnap) => ConsumerRule(say, s), (s: ClaimSnap) => LostRule(say, s)]
  }

  function ClaimFindings(say: Wording, snap: ClaimSnap): seq<Diagnosis> {
    Engine.Evaluated(ClaimRules(say), snap, |ClaimRules(say)|)
  }

  function ClaimDiagnoses(say: Wording, snap: ClaimSnap): seq<Diagnosis> {
    if ClaimFindings(say, snap) == [] then Fallback(say, snap) else ClaimFindings(say, snap)
  }

  // ---- Collection ----

  datatype ClaimApi = ClaimApi(
    claim: ClaimObject, events: Read<seq<Event>>, classes: StorageApi,
    pods: Read<seq<PodObject>>, podEvents: Backends.Fetch, now: int)

  const EVENT_PURPOSE := "explaining why provisioning or binding has not completed"
  const POD_PURPOSE := "finding which Pods use this claim"

  function Mounts(claim: string): Volume -> bool {
    (v: Volume) => v.claim == Some(claim)
  }

  function UsesClaim(claim: string): PodObject -> bool {
    (p: PodObject) => FirstWhere(Mounts(claim), p.volumes).Some?
  }

  function Consumers(api: ClaimApi): seq<PodObject> {
    if api.pods.Got? then Filter(UsesClaim(api.claim.name), api.pods.value) else []
  }

  method FindConsumers(pods: seq<PodObject>, claim: string) returns (out: seq<PodObject>)
    ensures out == Filter(UsesClaim(claim), pods)
  {
    out := [];
    for i := 0 to |pods|
      invariant out == Filter(UsesClaim(claim), pods[..i])
    {
      PrefixStep(pods, i);
      var uses := false;
      for j := 0 to |pods[i].volumes|
        invariant !uses && FirstWhere(Mounts(claim), pods[i].volumes[..j]).None?
      {
        PrefixStep(pods[i].volumes, j);
        if pods[i].volumes[j].claim == Some(claim) {
          FirstWherePrefix(Mounts(claim), pods[i].volumes, j + 1);
          uses := true;
          break;
        }
      }
      assert pods[i].volumes[..|pods[i].volumes|] == pods[i].volumes;
      if uses {
        out := out + [pods[i]];
      }
    }
    assert pods[..|pods|] == pods;
  }

  function ConsumerDoubts(api: ClaimApi, order: seq<int>): seq<Degradation> {
    Complaint("pods", POD_PURPOSE, api.pods) + Backends.BackendComplaints(Consumers(api), api.podEvents, order)
  }

  function ClaimDoubts(api: ClaimApi, order: seq<int>): seq<Degradation> {
    Complaint("events", EVENT_PURPOSE, api.events)
    + if api.claim.phase == Bound then [] else ClassDoubts(api.claim, api.classes) + ConsumerDoubts(api, order)
  }

  function ConsumerSnaps(api: ClaimApi): Option<seq<PodSnap>> {
    if api.pods.Got? then Some(Backends.BackendSnaps(Consumers(api), api.now, api.podEvents)) else None
  }

  function CollectedClaim(api: ClaimApi, order: seq<int>): ClaimSnap {
    if api.claim.phase == Bound then
      ClaimSnap(api.claim, Backends.EventsFrom(api.events), NO_CLASS, None, Recorded([], ClaimDoubts(api, order)), api.now)
    else
      ClaimSnap(api.claim, Backends.EventsFrom(api.events), ClassOf(api.claim, api.classes), ConsumerSnaps(api), Recorded([], ClaimDoubts(api, order)), api.now)
  }

  method CollectConsumers(coll: Collection, api: ClaimApi) returns (consumers: Option<seq<PodSnap>>, ghost order: seq<int>)
    requires coll.Valid()
    modifies coll`degradations
    ensures coll.Valid() && Backends.Covers(order, |Backends.NeedEvents(Consumers(api))|)
    ensures coll.degradations == Recorded(old(coll.degradations), ConsumerDoubts(api, order))
    ensures consumers == ConsumerSnaps(api)
  {
    order, consumers := [], None;
    assert Backends.NeedEvents([]) == [] by {
      Backends.NeedEventsAreFirstUnready([]);
    }
    ghost var log := coll.degradations;
    DegradeRead(coll, "pods", POD_PURPOSE, api.pods);
    RecordedNothing(coll.degradations);
    if api.pods.Got? {
      var users := FindConsumers(api.pods.value, api.claim.name);
      var out;
      out, order := Backends.BackendSnapshots(coll, users, api.now, api.podEvents);
      consumers := Some(out);
    }
    RecordedTwice(log, Complaint("pods", POD_PURPOSE, api.pods), Backends.BackendComplaints(Consumers(api), api.podEvents, order));
  }

  /** What is only read for a claim that has not bound. */
  method CollectUnbound(coll: Collection, api: ClaimApi) returns (info: ClassInfo, consumers: Option<seq<PodSnap>>, ghost order: seq<int>)
    requires coll.Valid()
    modifies coll`degradations
    ensures coll.Valid() && Backends.Covers(order, |Backends.NeedEvents(Consumers(api))|)
    ensures coll.degradations == Recorded(old(coll.degradations), ClassDoubts(api.claim, api.classes) + ConsumerDoubts(api, order))
    ensures info == ClassOf(api.claim, api.classes) && consumers == ConsumerSnaps(api)
  {
    ghost var log := coll.degradations;
    info := StorageClassInfo(coll, api.claim, api.classes);
    consumers, order := CollectConsumers(coll, api);
    RecordedTwice(log, ClassDoubts(api.claim, api.classes), ConsumerDoubts(api, order));
  }

  method CollectClaim(api: ClaimApi) returns (snap: ClaimSnap, ghost order: seq<int>)
    ensures api.claim.phase != Bound ==> Backends.Covers(order, |Backends.NeedEvents(Consumers(api))|)
    ensures snap == CollectedClaim(api, order)
  {
    var coll := new Collection();
    order := [];
    ghost var doubts := Complaint("events", EVENT_PURPOSE, api.events);
    DegradeRead(coll, "events", EVENT_PURPOSE, api.events);
    var events := [];
    if api.events.Got? {
      events := Dedup(api.events.value);
    }
    if api.claim.phase == Bound {
      assert doubts + [] == doubts;
      return ClaimSnap(api.claim, events, NO_CLASS, None, coll.degradations, api.now), order;
    }
    var info, consumers;
    info, consumers, order := CollectUnbound(coll, api);
    RecordedTwice([], doubts, ClassDoubts(api.claim, api.classes) + ConsumerDoubts(api, order));
    snap := ClaimSnap(api.claim, events, info, consumers, coll.degradations, api.now);
  }

  // ---- Results ----

  lemma InFour<S>(rules: seq<Engine.Rule<S>>, snap: S, d: Diagnosis)
    requires |rules| == 4
    ensures d in Engine.Evaluated(rules, snap, |rules|) <==> d in rules[0](snap) || d in rules[1](snap) || d in rules[2](snap) || d in rules[3](snap)
  {
    Engine.InEvaluated(rules, snap, d);
  }

  lemma ClaimRuleOutputs(say: Wording, snap: ClaimSnap)
    ensures |ClaimRules(say)| == 4
    ensures ClaimRules(say)[0](snap) == StorageClassRule(say, snap) && ClaimRules(say)[1](snap) == ProvisioningRule(say, snap)
    ensures ClaimRules(say)[2](snap) == ConsumerRule(say, snap) && ClaimRules(say)[3](snap) == LostRule(say, snap)
  {
  }

  lemma InClaimFindings(say: Wording, snap: ClaimSnap, d: Diagnosis)
    ensures d in ClaimFindings(say, snap) <==>
              || d in StorageClassRule(say, snap) || d in ProvisioningRule(say, snap)
              || d in ConsumerRule(say, snap) || d in LostRule(say, snap)
  {
    ClaimRuleOutputs(say, snap);
    InFour(ClaimRules(say), snap, d);
  }

  /** The class a collector resolves: whoever asked, "missing" means the same thing to both rules. */
  ghost predicate ClassShaped(c: ClassInfo) {
    c.existence == Missing ==> !c.explicitlyNone && (c.requested || c.defaultExists == Missing)
  }

  lemma CollectedClassShaped(claim: ClaimObject, api: StorageApi)
    ensures ClassShaped(ClassOf(claim, api))
  {
  }

  lemma ProvisioningBlames(say: Wording, snap: ClaimSnap, d: Diagnosis)
    requires ClassShaped(snap.storageClass) && d in ProvisioningRule(say, snap) && d.causedBy != NoID
    ensures exists e :: e in StorageClassRule(say, snap) && e.id == d.causedBy
  {
    assert StorageClassRule(say, snap)[0] in StorageClassRule(say, snap);
  }

  lemma OthersUncaused(say: Wording, snap: ClaimSnap, d: Diagnosis)
    requires d in StorageClassRule(say, snap) || d in ConsumerRule(say, snap) || d in LostRule(say, snap) || d in Fallback(say, snap)
    ensures d.causedBy == NoID
  {
  }

  /** The class a provisioning failure blames is reported beside it. */
  lemma ClaimNoDanglingCause(say: Wording, snap: ClaimSnap)
    requires ClassShaped(snap.storageClass)
    ensures NoDanglingCause(ClaimDiagnoses(say, snap))
  {
    var out := ClaimDiagnoses(say, snap);
    forall d | d in out && d.causedBy != NoID ensures exists e :: e in out && e.id == d.causedBy {
      InClaimFindings(say, snap, d);
      if d in ProvisioningRule(say, snap) {
        ProvisioningBlames(say, snap, d);
        var e :| e in StorageClassRule(say, snap) && e.id == d.causedBy;
        InClaimFindings(say, snap, e);
      } else {
        OthersUncaused(say, snap, d);
      }
    }
  }

  lemma ClaimReportNoDanglingCause(say: Wording, api: ClaimApi, order: seq<int>)
    ensures NoDanglingCause(ClaimDiagnoses(say, CollectedClaim(api, order)))
  {
    CollectedClassShaped(api.claim, api.classes);
    ClaimNoDanglingCause(say, CollectedClaim(api, order));
  }

  /** Nothing was reported against the claim's volume. */
  ghost predicate NoFailureEvent(events: seq<Event>) {
    LatestOf(events, ["ProvisioningFailed"]).None? && LatestOf(events, ["FailedBinding"]).None?
  }

  lemma ClassCalm(say: Wording, snap: ClaimSnap)
    ensures Reports.Calm(StorageClassRule(say, snap)) <==> StorageClassRule(say, snap) == []
    ensures Reports.Calm(LostRule(say, snap)) <==> snap.claim.phase != Lost
  {
    assert StorageClassRule(say, snap) != [] ==> StorageClassRule(say, snap)[0] in StorageClassRule(say, snap);
    assert LostRule(say, snap) != [] ==> LostRule(say, snap)[0] in LostRule(say, snap);
  }

  lemma ProvisioningCalm(say: Wording, snap: ClaimSnap)
    ensures Reports.Calm(ProvisioningRule(say, snap)) <==> snap.IsBound() || NoFailureEvent(snap.events)
  {
    var out := ProvisioningRule(say, snap);
    assert out != [] ==> out[0] in out && out[0].severity == Critical;
  }

  lemma ConsumerCalm(say: Wording, snap: ClaimSnap)
    ensures Reports.Calm(ConsumerRule(say, snap)) <==> snap.IsBound() || !snap.storageClass.WaitsForConsumer() || !snap.Unused()
    ensures ConsumerRule(say, snap) == [] <==> snap.IsBound() || !snap.storageClass.WaitsForConsumer()
  {
    var out := ConsumerRule(say, snap);
    assert out != [] ==> out[0] in out && out == [out[0]];
  }

  lemma UnionOfFour(found: seq<Diagnosis>, a: seq<Diagnosis>, b: seq<Diagnosis>, c: seq<Diagnosis>, e: seq<Diagnosis>)
    requires forall d :: d in found <==> d in a || d in b || d in c || d in e
    ensures Reports.Calm(found) <==> Reports.Calm(a) && Reports.Calm(b) && Reports.Calm(c) && Reports.Calm(e)
    ensures found == [] <==> a == [] && b == [] && c == [] && e == []
  {
    assert found != [] ==> found[0] in found;
    assert forall s :: s in [a, b, c, e] && s != [] ==> s[0] in s;
    assert a in [a, b, c, e] && b in [a, b, c, e] && c in [a, b, c, e] && e in [a, b, c, e];
  }

  lemma ClaimRulesCalm(say: Wording, snap: ClaimSnap)
    ensures Reports.Calm(ClaimFindings(say, snap))
       <==> && Reports.Calm(StorageClassRule(say, snap)) && Reports.Calm(ProvisioningRule(say, snap))
            && Reports.Calm(ConsumerRule(say, snap)) && Reports.Calm(LostRule(say, snap))
    ensures ClaimFindings(say, snap) == []
       <==> StorageClassRule(say, snap) == [] && ProvisioningRule(say, snap) == [] && ConsumerRule(say, snap) == [] && LostRule(say, snap) == []
  {
    forall d ensures d in ClaimFindings(say, snap) <==> || d in StorageClassRule(say, snap) || d in ProvisioningRule(say, snap)
                                                        || d in ConsumerRule(say, snap) || d in LostRule(say, snap)
    {
      InClaimFindings(say, snap, d);
    }
    UnionOfFour(ClaimFindings(say, snap), StorageClassRule(say, snap), ProvisioningRule(say, snap), ConsumerRule(say, snap), LostRule(say, snap));
  }

  lemma FallbackCalm(say: Wording, snap: ClaimSnap)
    ensures Reports.Calm(Fallback(say, snap)) <==> snap.IsBound() || snap.claim.phase == Lost
  {
    assert Fallback(say, snap) != [] ==> Fallback(say, snap)[0] in Fallback(say, snap);
  }

  /** What a collector resolves when somebody found the class: a default one only if there is one. */
  lemma SilentVerdict(say: Wording, snap: ClaimSnap)
    requires ClassShaped(snap.storageClass) && (snap.storageClass.WaitsForConsumer() ==> snap.storageClass.existence == Found)
    requires !snap.storageClass.requested && snap.storageClass.existence == Found ==> snap.storageClass.defaultExists == Found
    ensures Reports.Calm(ClaimDiagnoses(say, snap))
       <==> snap.IsBound() || (snap.storageClass.WaitsForConsumer() && !snap.Unused() && snap.claim.phase != Lost && NoFailureEvent(snap.events))
  {
    ClassCalm(say, snap);
    ProvisioningCalm(say, snap);
    ConsumerCalm(say, snap);
    ClaimRulesCalm(say, snap);
    FallbackCalm(say, snap);
  }

  lemma HealthySnapIff(say: Wording, snap: ClaimSnap)
    requires ClassShaped(snap.storageClass) && (snap.storageClass.WaitsForConsumer() ==> snap.storageClass.existence == Found)
    requires !snap.storageClass.requested && snap.storageClass.existence == Found ==> snap.storageClass.defaultExists == Found
    ensures Reports.Verdict(ClaimDiagnoses(say, snap), snap.degradations) == Reports.Healthy
       <==> && snap.degradations == []
            && (snap.IsBound() || (snap.storageClass.WaitsForConsumer() && !snap.Unused() && snap.claim.phase != Lost && NoFailureEvent(snap.events)))
  {
    SilentVerdict(say, snap);
    Reports.HealthyIff(ClaimDiagnoses(say, snap), snap.degradations);
  }

  lemma ConsumersCounted(api: ClaimApi)
    ensures ConsumerSnaps(api) == Some([]) <==> api.pods.Got? && Consumers(api) == []
  {
    assert |Backends.BackendSnaps(Consumers(api), api.now, api.podEvents)| == |Consumers(api)|;
  }

  /** Every read the analysis of this claim depends on succeeded. */
  ghost predicate EverythingRead(api: ClaimApi) {
    && api.events.Got?
    && (api.claim.phase == Bound
        || (&& ClassDoubts(api.claim, api.classes) == [] && api.pods.Got?
            && forall j :: j in Backends.NeedEvents(Consumers(api)) ==> api.podEvents(j).Got?))
  }

  /** Bound, or waiting on purpose for a Pod that does mount it. */
  ghost predicate BoundOrAwaited(api: ClaimApi) {
    || api.claim.phase == Bound
    || (&& ClassOf(api.claim, api.classes).WaitsForConsumer() && Consumers(api) != []
        && api.claim.phase != Lost && NoFailureEvent(Backends.EventsFrom(api.events)))
  }

  lemma ClaimReadIff(api: ClaimApi, order: seq<int>)
    requires api.claim.phase != Bound ==> Backends.Covers(order, |Backends.NeedEvents(Consumers(api))|)
    ensures CollectedClaim(api, order).degradations == [] <==> EverythingRead(api)
  {
    RecordedFacts([], ClaimDoubts(api, order));
    if api.claim.phase != Bound {
      Backends.SilentBackends(Consumers(api), api.podEvents, order);
    }
  }

  /** For every API behaviour and every schedule, a claim is reported healthy exactly when every read
      succeeded and it is bound, or waiting on purpose for a Pod that does mount it. */
  lemma HealthyClaimIff(say: Wording, api: ClaimApi, order: seq<int>)
    requires api.claim.phase != Bound ==> Backends.Covers(order, |Backends.NeedEvents(Consumers(api))|)
    ensures Reports.Verdict(ClaimDiagnoses(say, CollectedClaim(api, order)), CollectedClaim(api, order).degradations) == Reports.Healthy
       <==> EverythingRead(api) && BoundOrAwaited(api)
  {
    ClaimReadIff(api, order);
    ClassMissingIff(api.claim, api.classes);
    CollectedClassShaped(api.claim, api.classes);
    ConsumersCounted(api);
    HealthySnapIff(say, CollectedClaim(api, order));
  }
}
