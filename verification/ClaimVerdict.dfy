/** The findings and the verdict about a claim as a table over the answers of the API. */
module ClaimVerdict {
  import opened Sequences
  import opened Model
  import opened Events
  import opened Collecting
  import opened Pods
  import opened Storage
  import opened Reports
  import opened Claims
  import Backends

  // ---- The table ----

  function Ref(api: ClaimApi): ResourceRef {
    ResourceRef("PersistentVolumeClaim", api.claim.ns, api.claim.name)
  }

  ghost predicate Reported(api: ClaimApi, reason: string) {
    api.events.Got? && exists e :: e in api.events.value && e.reason == reason
  }

  ghost predicate Mounted(api: ClaimApi) {
    api.pods.Got? && exists p, v :: p in api.pods.value && v in p.volumes && v.claim == Some(api.claim.name)
  }

  ghost predicate SaysClass(api: ClaimApi, m: Mark) {
    || (NamedClassAbsent(api.claim, api.classes) && m == Mark(PVCStorageClassNotFound, Ref(api), "", Critical))
    || (NoDefault(api.claim, api.classes) && m == Mark(PVCNoDefaultClass, Ref(api), "", Critical))
  }

  ghost predicate SaysProvisioning(api: ClaimApi, m: Mark) {
    || (Reported(api, "ProvisioningFailed") && m == Mark(PVCProvisioningFailed, Ref(api), "", Critical))
    || (!Reported(api, "ProvisioningFailed") && Reported(api, "FailedBinding") && m == Mark(PVCNoMatchingVolume, Ref(api), "", Critical))
  }

  ghost predicate SaysConsumer(api: ClaimApi, m: Mark) {
    && WaitsOnPurpose(api.claim, api.classes)
    && m == if api.pods.Got? && !Mounted(api) then Mark(PVCNoConsumer, Ref(api), "", Warning) else Mark(PVCWaitingForConsumer, Ref(api), "", Info)
  }

  predicate SaysLost(api: ClaimApi, m: Mark) {
    api.claim.phase == Lost && m == Mark(PVCLost, Ref(api), "", Critical)
  }

  /** What is to be reported about a claim, if anything explains it. */
  ghost predicate ClaimSays(api: ClaimApi, m: Mark) {
    api.claim.phase != Bound && (SaysClass(api, m) || SaysProvisioning(api, m) || SaysConsumer(api, m) || SaysLost(api, m))
  }

  /** Nothing explains why the claim is not bound. */
  ghost predicate ClaimUnexplained(api: ClaimApi) {
    api.claim.phase != Bound && api.claim.phase != Lost && forall m :: !ClaimSays(api, m)
  }

  // ---- The rules agree with it ----

  lemma ReportedIff(api: ClaimApi, reason: string)
    ensures LatestOf(Backends.EventsFrom(api.events), [reason]).Some? <==> Reported(api, reason)
  {
    if api.events.Got? {
      var evs := api.events.value;
      LatestAfterDedup(evs, [reason]);
      LatestIsMostRecent(evs, [reason]);
      assert forall r: string :: r in [reason] <==> r == reason;
    } else {
      LatestIsMostRecent([], [reason]);
    }
  }

  lemma MountedIff(api: ClaimApi)
    ensures api.pods.Got? ==> (Consumers(api) != [] <==> Mounted(api))
  {
    if api.pods.Got? {
      var f, pods := UsesClaim(api.claim.name), api.pods.value;
      FilterLength(f, pods);
      forall p ensures f(p) <==> exists v :: v in p.volumes && v.claim == Some(api.claim.name) {
        FirstWhereFound(Mounts(api.claim.name), p.volumes);
      }
      if Mounted(api) {
        var p, v :| p in pods && v in p.volumes && v.claim == Some(api.claim.name);
        assert f(p);
        var i :| 0 <= i < |pods| && pods[i] == p;
      }
      if Consumers(api) != [] {
        var i :| 0 <= i < |pods| && f(pods[i]);
        assert pods[i] in pods;
      }
    }
  }

  lemma ClassSays(say: Wording, api: ClaimApi, order: seq<int>, m: Mark)
    requires api.claim.phase != Bound
    ensures Marked(StorageClassRule(say, CollectedClaim(api, order)), m) <==> SaysClass(api, m)
  {
    ClassIs(api.claim, api.classes);
    MarkedOne(StorageClassRule(say, CollectedClaim(api, order)), m);
  }

  lemma ProvisioningSays(say: Wording, api: ClaimApi, order: seq<int>, m: Mark)
    requires api.claim.phase != Bound
    ensures Marked(ProvisioningRule(say, CollectedClaim(api, order)), m) <==> SaysProvisioning(api, m)
  {
    ReportedIff(api, "ProvisioningFailed");
    ReportedIff(api, "FailedBinding");
    MarkedOne(ProvisioningRule(say, CollectedClaim(api, order)), m);
  }

  lemma ConsumerSays(say: Wording, api: ClaimApi, order: seq<int>, m: Mark)
    requires api.claim.phase != Bound
    ensures Marked(ConsumerRule(say, CollectedClaim(api, order)), m) <==> SaysConsumer(api, m)
  {
    ClassIs(api.claim, api.classes);
    MountedIff(api);
    ConsumersCounted(api);
    MarkedOne(ConsumerRule(say, CollectedClaim(api, order)), m);
  }

  lemma BoundSaysNothing(say: Wording, api: ClaimApi, order: seq<int>)
    requires api.claim.phase == Bound
    ensures ClaimFindings(say, CollectedClaim(api, order)) == []
  {
    var out := ClaimFindings(say, CollectedClaim(api, order));
    if out != [] {
      InClaimFindings(say, CollectedClaim(api, order), out[0]);
    }
  }

  lemma ClaimRulesMark(say: Wording, snap: ClaimSnap, m: Mark)
    ensures Marked(ClaimFindings(say, snap), m) <==>
              || Marked(StorageClassRule(say, snap), m) || Marked(ProvisioningRule(say, snap), m)
              || Marked(ConsumerRule(say, snap), m) || Marked(LostRule(say, snap), m)
  {
    ClaimRuleOutputs(say, snap);
    MarkedEvaluated(ClaimRules(say), snap, m);
  }

  /** The claim rules report exactly what the table says, for every API behaviour and schedule. */
  lemma ClaimRulesSay(say: Wording, api: ClaimApi, order: seq<int>, m: Mark)
    ensures Marked(ClaimFindings(say, CollectedClaim(api, order)), m) <==> ClaimSays(api, m)
  {
    var snap := CollectedClaim(api, order);
    if api.claim.phase == Bound {
      BoundSaysNothing(say, api, order);
    } else {
      ClassSays(say, api, order, m);
      ProvisioningSays(say, api, order, m);
      ConsumerSays(say, api, order, m);
      MarkedOne(LostRule(say, snap), m);
      ClaimRulesMark(say, snap, m);
    }
  }

  lemma SilentClaimIff(say: Wording, api: ClaimApi, order: seq<int>)
    ensures ClaimFindings(say, CollectedClaim(api, order)) == [] <==> forall m :: !ClaimSays(api, m)
  {
    var out := ClaimFindings(say, CollectedClaim(api, order));
    forall m ensures Marked(out, m) <==> ClaimSays(api, m) {
      ClaimRulesSay(say, api, order, m);
    }
    if out != [] {
      var m := Mark(out[0].id, out[0].subject, out[0].component, out[0].severity);
      assert Bears(out[0], m);
      assert Marked(out, m);
    }
  }

  /** What a claim report says. */
  lemma ClaimReportSays(say: Wording, api: ClaimApi, order: seq<int>, m: Mark)
    ensures Marked(ClaimDiagnoses(say, CollectedClaim(api, order)), m)
       <==> ClaimSays(api, m) || (ClaimUnexplained(api) && m == Mark(PVCPending, Ref(api), "", Critical))
  {
    ClaimRulesSay(say, api, order, m);
    SilentClaimIff(say, api, order);
    MarkedOne(Fallback(say, CollectedClaim(api, order)), m);
  }

  ghost predicate ClaimBroken(api: ClaimApi) {
    && api.claim.phase != Bound
    && (|| NamedClassAbsent(api.claim, api.classes) || NoDefault(api.claim, api.classes)
        || Reported(api, "ProvisioningFailed") || Reported(api, "FailedBinding") || api.claim.phase == Lost
        || !WaitsOnPurpose(api.claim, api.classes))
  }

  ghost predicate ClaimShaky(api: ClaimApi) {
    api.claim.phase != Bound && WaitsOnPurpose(api.claim, api.classes) && api.pods.Got? && !Mounted(api)
  }

  lemma CriticalClaim(api: ClaimApi)
    requires ClaimBroken(api) && !ClaimUnexplained(api)
    ensures exists m: Mark :: m.severity == Critical && ClaimSays(api, m)
  {
    var r := Ref(api);
    if api.claim.phase == Lost {
      assert ClaimSays(api, Mark(PVCLost, r, "", Critical));
    } else if NamedClassAbsent(api.claim, api.classes) {
      assert ClaimSays(api, Mark(PVCStorageClassNotFound, r, "", Critical));
    } else if NoDefault(api.claim, api.classes) {
      assert ClaimSays(api, Mark(PVCNoDefaultClass, r, "", Critical));
    } else if Reported(api, "ProvisioningFailed") {
      assert ClaimSays(api, Mark(PVCProvisioningFailed, r, "", Critical));
    } else if Reported(api, "FailedBinding") {
      assert ClaimSays(api, Mark(PVCNoMatchingVolume, r, "", Critical));
    } else {
      assert false;
    }
  }

  lemma ClaimSeverities(api: ClaimApi)
    ensures ClaimBroken(api) <==> ClaimUnexplained(api) || exists m: Mark :: m.severity == Critical && ClaimSays(api, m)
    ensures ClaimShaky(api) <==> exists m: Mark :: m.severity == Warning && ClaimSays(api, m)
  {
    var r := Ref(api);
    if api.claim.phase != Bound {
      assert SaysClass(api, Mark(PVCStorageClassNotFound, r, "", Critical)) <==> NamedClassAbsent(api.claim, api.classes);
      assert SaysClass(api, Mark(PVCNoDefaultClass, r, "", Critical)) <==> NoDefault(api.claim, api.classes);
      assert SaysProvisioning(api, Mark(PVCProvisioningFailed, r, "", Critical)) <==> Reported(api, "ProvisioningFailed");
      assert SaysProvisioning(api, Mark(PVCNoMatchingVolume, r, "", Critical))
        <==> !Reported(api, "ProvisioningFailed") && Reported(api, "FailedBinding");
      assert SaysLost(api, Mark(PVCLost, r, "", Critical)) <==> api.claim.phase == Lost;
      assert SaysConsumer(api, Mark(PVCNoConsumer, r, "", Warning)) <==> ClaimShaky(api);
      assert SaysConsumer(api, Mark(PVCWaitingForConsumer, r, "", Info)) <==> WaitsOnPurpose(api.claim, api.classes) && !ClaimShaky(api);
      assert WaitsOnPurpose(api.claim, api.classes) ==> !ClaimUnexplained(api) by {
        assert ClaimSays(api, Mark(PVCNoConsumer, r, "", Warning)) || ClaimSays(api, Mark(PVCWaitingForConsumer, r, "", Info)) || !WaitsOnPurpose(api.claim, api.classes);
      }
      if ClaimBroken(api) && !ClaimUnexplained(api) {
        CriticalClaim(api);
      }
    }
  }

  ghost function ClaimStatus(api: ClaimApi): Status {
    if ClaimBroken(api) then Unhealthy
    else if ClaimShaky(api) then Degraded
    else if EverythingRead(api) then Healthy
    else Status.Unknown
  }

  /** The exact status of a claim report, for every API behaviour, schedule and wording. */
  lemma ExactClaimStatus(say: Wording, api: ClaimApi, order: seq<int>)
    requires api.claim.phase != Bound ==> Backends.Covers(order, |Backends.NeedEvents(Consumers(api))|)
    ensures Verdict(ClaimDiagnoses(say, CollectedClaim(api, order)), CollectedClaim(api, order).degradations)
         == ClaimStatus(api)
  {
    var ds := ClaimDiagnoses(say, CollectedClaim(api, order));
    HasMarked(ds, Critical);
    HasMarked(ds, Warning);
    forall m ensures Marked(ds, m) <==> ClaimSays(api, m) || (ClaimUnexplained(api) && m == Mark(PVCPending, Ref(api), "", Critical)) {
      ClaimReportSays(say, api, order, m);
    }
    ClaimSeverities(api);
    assert ClaimUnexplained(api) ==> Marked(ds, Mark(PVCPending, Ref(api), "", Critical));
    ClaimReadIff(api, order);
  }

  lemma ProvisioningCauseIs(api: ClaimApi)
    ensures ProvisioningCause(ClassOf(api.claim, api.classes))
         == if NamedClassAbsent(api.claim, api.classes) then PVCStorageClassNotFound
            else if NoDefault(api.claim, api.classes) then PVCNoDefaultClass else NoID
  {
    ClassIs(api.claim, api.classes);
  }

  lemma ProvisioningBlame(say: Wording, api: ClaimApi, order: seq<int>, d: Diagnosis)
    requires d in ProvisioningRule(say, CollectedClaim(api, order))
    ensures d.id == PVCProvisioningFailed || (d.id == PVCNoMatchingVolume && d.causedBy == NoID)
    ensures d.id == PVCProvisioningFailed ==>
              d.causedBy == if NamedClassAbsent(api.claim, api.classes) then PVCStorageClassNotFound
                            else if NoDefault(api.claim, api.classes) then PVCNoDefaultClass else NoID
  {
    var snap := CollectedClaim(api, order);
    assert ProvisioningRule(say, snap) != [];
    assert d == ProvisioningRule(say, snap)[0];
    ProvisioningCauseIs(api);
  }

  lemma NotProvisioning(say: Wording, snap: ClaimSnap, d: Diagnosis)
    requires d in StorageClassRule(say, snap) || d in ConsumerRule(say, snap) || d in LostRule(say, snap) || d in Fallback(say, snap)
    ensures d.id != PVCProvisioningFailed
  {
  }

  /** What a claim report blames: a provisioning failure the missing class, and nothing else anything. */
  lemma ClaimBlames(say: Wording, api: ClaimApi, order: seq<int>, d: Diagnosis)
    requires d in ClaimDiagnoses(say, CollectedClaim(api, order))
    ensures d.causedBy == if d.id == PVCProvisioningFailed && NamedClassAbsent(api.claim, api.classes) then PVCStorageClassNotFound
                          else if d.id == PVCProvisioningFailed && NoDefault(api.claim, api.classes) then PVCNoDefaultClass
                          else NoID
  {
    var snap := CollectedClaim(api, order);
    InClaimFindings(say, snap, d);
    if d in ProvisioningRule(say, snap) {
      ProvisioningBlame(say, api, order, d);
    } else {
      NotProvisioning(say, snap, d);
      OthersUncaused(say, snap, d);
    }
  }
}
