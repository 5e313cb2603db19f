/** The Pod rules that walk maps, as loops over some order of the keys
    (config.go, mount.go, claim.go and scheduling.go of internal/diagnosis/rules/pod). */
module PodRuleLoops {
  import opened Sequences
  import opened StableSort
  import opened Names
  import opened Model
  import opened Events
  import opened Collecting
  import opened Pods
  import opened PodRules
  import PodTheorems
  import Scheduling

  /** The same names whichever way the map is walked. */
  method ListMissing(refs: map<string, Existence>) returns (names: seq<string>)
    ensures forall order :: Enumerates(order, refs.Keys) ==> names == MissingNames(refs, order)
  {
    var walked := AnyKeys(refs.Keys);
    assert forall i :: 0 <= i < |walked| ==> walked[i] in refs.Keys by {
      assert forall i :: 0 <= i < |walked| ==> walked[i] in (set x | x in walked);
    }
    var out := [];
    for i := 0 to |walked|
      invariant out == Filter(IsMissing(refs), walked[..i])
    {
      PrefixStep(walked, i);
      if refs[walked[i]] == Missing {
        out := out + [walked[i]];
      }
    }
    assert walked[..|walked|] == walked;
    names := Sort(ByName(), out);
    forall order | Enumerates(order, refs.Keys) ensures names == MissingNames(refs, order) {
      PodTheorems.MissingNamesAgree(refs, walked, order);
    }
  }

  method EvaluateAbsent(env: Env, snap: PodSnap, id: FindingID, kind: string, names: seq<string>) returns (out: seq<Diagnosis>)
    ensures out == AbsentObjects(env, snap, id, kind, names)
  {
    out := [];
    for i := 0 to |names|
      invariant |out| == i && forall j :: 0 <= j < i ==> out[j] == MissingObject(env, snap, id, kind, names[j])
    {
      out := out + [MissingObject(env, snap, id, kind, names[i])];
    }
    var all := AbsentObjects(env, snap, id, kind, names);
    assert forall j :: 0 <= j < |names| ==> all[j] == MissingObject(env, snap, id, kind, names[j]);
  }

  method EvaluateConfigErrors(env: Env, snap: PodSnap, cms: seq<string>, secs: seq<string>) returns (out: seq<Diagnosis>)
    ensures out == ConfigErrors(env, snap, cms, secs)
  {
    out := [];
    var cs := Containers(snap.pod);
    for i := 0 to |cs|
      invariant out == FlatMap(ConfigErrorOf(env, snap, cms, secs), cs[..i])
    {
      PrefixStep(cs, i);
      out := out + ConfigError(env, snap, cms, secs, cs[i]);
    }
    assert cs[..|cs|] == cs;
  }

  method EvaluateConfigRefs(env: Env, snap: PodSnap) returns (out: seq<Diagnosis>)
    ensures forall ord :: OrderOf(ord, snap) ==> out == ConfigRule(env, snap, ord)
  {
    var cms := ListMissing(snap.configMaps);
    var secs := ListMissing(snap.secrets);
    var a := EvaluateAbsent(env, snap, PodMissingConfigMap, "configmap", cms);
    var b := EvaluateAbsent(env, snap, PodMissingSecret, "secret", secs);
    var c := EvaluateConfigErrors(env, snap, cms, secs);
    out := a + b + c;
  }

  method FindMissingClaim(claims: map<string, ClaimRef>) returns (cause: FindingID)
    ensures forall order :: Enumerates(order, claims.Keys) ==> cause == MissingClaimCause(claims, order)
  {
    var walked := AnyKeys(claims.Keys);
    assert forall i :: 0 <= i < |walked| ==> walked[i] in claims.Keys by {
      assert forall i :: 0 <= i < |walked| ==> walked[i] in (set x | x in walked);
    }
    cause := NoID;
    for i := 0 to |walked|
      invariant cause == MissingClaimCause(claims, walked[..i])
    {
      PrefixStep(walked, i);
      if claims[walked[i]].existence == Missing {
        cause := PodPVCNotFound;
      }
    }
    assert walked[..|walked|] == walked;
    forall order | Enumerates(order, claims.Keys) ensures cause == MissingClaimCause(claims, order) {
      PodTheorems.SameMembers(walked, order, claims.Keys);
      PodTheorems.MissingClaimCauseIff(claims, walked);
      PodTheorems.MissingClaimCauseIff(claims, order);
    }
  }

  method EvaluateMounts(env: Env, snap: PodSnap) returns (out: seq<Diagnosis>)
    ensures forall ord :: OrderOf(ord, snap) ==> out == MountRule(env, snap, ord)
  {
    var ev := Latest(snap.events, ["FailedMount", "FailedAttachVolume"]);
    if snap.IsTerminal() || ev.None? || !AnyWaiting(Containers(snap.pod)) {
      return [];
    }
    var cms := ListMissing(snap.configMaps);
    var secs := ListMissing(snap.secrets);
    var claim := FindMissingClaim(snap.claims);
    var d := Finding(PodFailedMount, snap.Ref(), "", Critical, Certain, env.say(PodFailedMount, 0, []));
    d := d.(causedBy := if cms != [] then PodMissingConfigMap else if secs != [] then PodMissingSecret else claim);
    out := [d];
  }

  method FindVolumeCause(claims: map<string, ClaimRef>) returns (cause: FindingID, ghost order: seq<string>)
    ensures Enumerates(order, claims.Keys) && cause == VolumeCause(claims, order)
  {
    var walked := AnyKeys(claims.Keys);
    order := walked;
    assert forall i :: 0 <= i < |walked| ==> walked[i] in claims.Keys by {
      assert forall i :: 0 <= i < |walked| ==> walked[i] in (set x | x in walked);
    }
    cause := NoID;
    for i := 0 to |walked|
      invariant cause == VolumeCause(claims, walked[..i])
    {
      PrefixStep(walked, i);
      var claim := claims[walked[i]];
      if claim.existence == Missing {
        cause := PodPVCNotFound;
      } else if claim.phase == ClaimPending {
        cause := PodPVCNotBound;
      }
    }
    assert walked[..|walked|] == walked;
  }

  method EvaluateUnschedulable(env: Env, snap: PodSnap, message: string) returns (d: Diagnosis, ghost order: seq<string>)
    ensures Enumerates(order, snap.claims.Keys)
    ensures forall ord: MapOrder :: ord.schedulingClaims == order ==> d == Unschedulable(env, snap, ord, Scheduling.Parsed(message))
  {
    var report := Scheduling.ParseSchedulerMessage(message);
    var id := Scheduling.DominantID(report.reasons);
    d := Finding(if id.Some? then id.value else PodUnschedulable, snap.Ref(), "", Critical, Certain, env.say(PodUnschedulable, 0, []));
    var cause;
    cause, order := FindVolumeCause(snap.claims);
    if Scheduling.HasCategory(report.reasons, Scheduling.VolumeCategory) {
      d := d.(causedBy := cause);
    }
  }

  /** The one rule whose result may depend on how the map is walked: see VolumeCauseDependsIff. */
  method EvaluateScheduling(env: Env, snap: PodSnap) returns (out: seq<Diagnosis>, ghost order: seq<string>)
    ensures Enumerates(order, snap.claims.Keys)
    ensures forall ord: MapOrder :: ord.schedulingClaims == order ==> out == SchedulingRule(env, snap, ord)
  {
    var d;
    var message := SchedulerMessage(snap);
    d, order := EvaluateUnschedulable(env, snap, message);
    if snap.pod.nodeName != "" || snap.IsTerminal() {
      return [], order;
    }
    if snap.pod.gates != [] {
      return [Finding(PodSchedulingGated, snap.Ref(), "", Warning, Certain, env.say(PodSchedulingGated, 0, []))], order;
    }
    if message == "" {
      return [], order;
    }
    out := [d];
  }

  method EvaluateClaims(env: Env, snap: PodSnap) returns (out: seq<Diagnosis>)
    ensures forall ord :: OrderOf(ord, snap) ==> out == ClaimRule(env, snap, ord)
  {
    out := [];
    if snap.IsTerminal() {
      return;
    }
    var walked := AnyKeys(snap.claims.Keys);
    var names := Sort(ByName(), walked);
    for i := 0 to |names|
      invariant out == FlatMap(ClaimOf(env, snap), names[..i])
    {
      PrefixStep(names, i);
      out := out + ClaimFindings(env, snap, names[i]);
    }
    assert names[..|names|] == names;
    forall ord | OrderOf(ord, snap) ensures Sort(ByName(), ord.claims) == names {
      EnumerationsPermute(ord.claims, walked, snap.claims.Keys);
      SortedNamesAgree(ord.claims, walked);
    }
  }
}
