/** What the Pod rules guarantee together. */
module PodTheorems {
  import opened Sequences
  import opened GroupBy
  import opened StableSort
  import opened Names
  import opened Model
  import opened Events
  import opened Collecting
  import opened Pods
  import opened PodRules
  import opened Reports
  import Engine

  // ---- One owner per failure ----

  ghost predicate OOMFires(env: Env, snap: PodSnap, c: Container) {
    OOMOf(env, snap)(c) != []
  }

  ghost predicate CrashFires(env: Env, snap: PodSnap, c: Container) {
    !snap.IsTerminal() && CrashOf(env, snap)(c) != []
  }

  ghost predicate EndedFires(env: Env, snap: PodSnap, c: Container) {
    snap.pod.phase != Succeeded && EndedOf(env, snap)(c) != []
  }

  ghost predicate RestartFires(env: Env, snap: PodSnap, c: Container) {
    !snap.IsTerminal() && RestartOf(env, snap)(c) != []
  }

  /** Each failure of a container is reported by one rule: OOM kill, crash loop and restart history
      exclude each other, and a container that is backing off or flapping is claimed by exactly one
      of the first two unless the Pod is finished. */
  lemma OneOwner(env: Env, snap: PodSnap, c: Container)
    ensures !(OOMFires(env, snap, c) && CrashFires(env, snap, c))
    ensures !(OOMFires(env, snap, c) && RestartFires(env, snap, c))
    ensures !(CrashFires(env, snap, c) && RestartFires(env, snap, c))
    ensures !snap.IsTerminal() && (InBackoff(c) || IsFlapping(c, snap.now)) ==> (OOMFires(env, snap, c) <==> !CrashFires(env, snap, c))
  {
  }

  /** The terminated rule fires beside the crash-loop rule exactly when the Pod never restarts its
      containers and this one ended in an error that no OOM kill explains. */
  lemma EndedBesideCrashIff(env: Env, snap: PodSnap, c: Container)
    ensures EndedFires(env, snap, c) && CrashFires(env, snap, c)
       <==> && snap.pod.restartPolicy == Never && !snap.IsTerminal() && (InBackoff(c) || IsFlapping(c, snap.now))
            && c.Ended().Some? && c.Ended().value.exitCode != 0 && OOMTermination(c) == NotOOM
  {
  }

  /** A container's contribution is all a rule says about it, and nothing else is in the rule's output. */
  lemma RuleIsItsContainers(env: Env, snap: PodSnap, d: Diagnosis)
    ensures d in OOMRule(env, snap) <==> exists i :: 0 <= i < |Containers(snap.pod)| && d in OOMOf(env, snap)(Containers(snap.pod)[i])
    ensures d in CrashRule(env, snap) <==>
              !snap.IsTerminal() && exists i :: 0 <= i < |Containers(snap.pod)| && d in CrashOf(env, snap)(Containers(snap.pod)[i])
    ensures d in RestartRule(env, snap) <==>
              !snap.IsTerminal() && exists i :: 0 <= i < |Containers(snap.pod)| && d in RestartOf(env, snap)(Containers(snap.pod)[i])
  {
    InFlatMap(OOMOf(env, snap), Containers(snap.pod), d);
    InFlatMap(CrashOf(env, snap), Containers(snap.pod), d);
    InFlatMap(RestartOf(env, snap), Containers(snap.pod), d);
  }

  ghost predicate UniqueNames(p: PodObject) {
    forall i, j :: 0 <= i < j < |Containers(p)| ==> Containers(p)[i].name != Containers(p)[j].name
  }

  lemma OOMOwner(env: Env, snap: PodSnap, d: Diagnosis) returns (i: nat)
    requires d in OOMRule(env, snap)
    ensures i < |Containers(snap.pod)| && Containers(snap.pod)[i].name == d.component && OOMFires(env, snap, Containers(snap.pod)[i])
  {
    RuleIsItsContainers(env, snap, d);
    i :| 0 <= i < |Containers(snap.pod)| && d in OOMOf(env, snap)(Containers(snap.pod)[i]);
  }

  lemma CrashOwner(env: Env, snap: PodSnap, d: Diagnosis) returns (i: nat)
    requires d in CrashRule(env, snap)
    ensures i < |Containers(snap.pod)| && Containers(snap.pod)[i].name == d.component && CrashFires(env, snap, Containers(snap.pod)[i])
  {
    RuleIsItsContainers(env, snap, d);
    i :| 0 <= i < |Containers(snap.pod)| && d in CrashOf(env, snap)(Containers(snap.pod)[i]);
  }

  lemma RestartOwner(env: Env, snap: PodSnap, d: Diagnosis) returns (i: nat)
    requires d in RestartRule(env, snap)
    ensures i < |Containers(snap.pod)| && Containers(snap.pod)[i].name == d.component && RestartFires(env, snap, Containers(snap.pod)[i])
  {
    RuleIsItsContainers(env, snap, d);
    i :| 0 <= i < |Containers(snap.pod)| && d in RestartOf(env, snap)(Containers(snap.pod)[i]);
  }

  /** Findings of two of the three rules are about two different containers, so they name different
      ones wherever containers have their own names. */
  lemma OneOwnerInReport(env: Env, snap: PodSnap, d: Diagnosis, e: Diagnosis) returns (i: nat, j: nat)
    requires (d in OOMRule(env, snap) && (e in CrashRule(env, snap) || e in RestartRule(env, snap)))
          || (d in CrashRule(env, snap) && e in RestartRule(env, snap))
    ensures i < |Containers(snap.pod)| && j < |Containers(snap.pod)| && i != j
    ensures Containers(snap.pod)[i].name == d.component && Containers(snap.pod)[j].name == e.component
    ensures UniqueNames(snap.pod) ==> d.component != e.component
  {
    if d in OOMRule(env, snap) && e in CrashRule(env, snap) {
      i := OOMOwner(env, snap, d);
      j := CrashOwner(env, snap, e);
    } else if d in OOMRule(env, snap) {
      i := OOMOwner(env, snap, d);
      j := RestartOwner(env, snap, e);
    } else {
      i := CrashOwner(env, snap, d);
      j := RestartOwner(env, snap, e);
    }
    OneOwner(env, snap, Containers(snap.pod)[i]);
  }

  // ---- No dangling cause ----

  /** A claim has a phase only if it was found: what the collectors build. */
  ghost predicate CollectorShaped(snap: PodSnap) {
    forall n :: n in snap.claims ==> snap.claims[n].phase == ClaimPending ==> snap.claims[n].existence == Found
  }

  ghost predicate Uncaused(ds: seq<Diagnosis>) {
    forall d :: d in ds ==> d.causedBy == NoID
  }

  lemma UncausedFlatMap<T>(f: T -> seq<Diagnosis>, s: seq<T>)
    requires forall x :: x in s ==> Uncaused(f(x))
    ensures Uncaused(FlatMap(f, s))
  {
    forall d | d in FlatMap(f, s) ensures d.causedBy == NoID {
      InFlatMap(f, s, d);
      var i :| 0 <= i < |s| && d in f(s[i]);
      assert s[i] in s;
    }
  }

  lemma UncausedContainerRules(env: Env, snap: PodSnap)
    ensures Uncaused(OOMRule(env, snap)) && Uncaused(CrashRule(env, snap)) && Uncaused(RestartRule(env, snap))
  {
    UncausedFlatMap(OOMOf(env, snap), Containers(snap.pod));
    UncausedFlatMap(CrashOf(env, snap), Containers(snap.pod));
    UncausedFlatMap(RestartOf(env, snap), Containers(snap.pod));
  }

  lemma UncausedEnded(env: Env, snap: PodSnap)
    ensures Uncaused(EndedRule(env, snap))
  {
    UncausedFlatMap(EndedOf(env, snap), Containers(snap.pod));
  }

  lemma UncausedImagePull(env: Env, snap: PodSnap)
    ensures Uncaused(ImagePullRule(env, snap))
  {
    UncausedFlatMap(ImagePullOf(env, snap), Containers(snap.pod));
  }

  lemma UncausedProbes(env: Env, snap: PodSnap)
    ensures Uncaused(ProbeRule(env, snap))
  {
    forall d | d in ProbeRule(env, snap) ensures d.causedBy == NoID {
      var hits := Firsts(ProbeKeyOf, FlatMap(ProbeHits, Ordered(Filter(HasReason(["Unhealthy"]), snap.events))));
      var i :| 0 <= i < |ProbeRule(env, snap)| && ProbeRule(env, snap)[i] == d;
      assert d == ProbeDiagnosis(env, snap, hits[i]);
    }
  }

  lemma UncausedClaim(env: Env, snap: PodSnap, name: string)
    ensures Uncaused(ClaimOf(env, snap)(name))
  {
    assert ClaimOf(env, snap)(name) == ClaimFindings(env, snap, name);
  }

  lemma UncausedClaims(env: Env, snap: PodSnap, ord: MapOrder)
    ensures Uncaused(ClaimRule(env, snap, ord)) && Uncaused(NodeRule(env, snap))
  {
    forall name ensures Uncaused(ClaimOf(env, snap)(name)) {
      UncausedClaim(env, snap, name);
    }
    UncausedFlatMap(ClaimOf(env, snap), Sort(ByName(), ord.claims));
  }

  lemma InMissingNames(refs: map<string, Existence>, order: seq<string>, name: string)
    requires Enumerates(order, refs.Keys)
    ensures name in MissingNames(refs, order) <==> name in refs && refs[name] == Missing
  {
    SortMembers(ByName(), Filter(IsMissing(refs), order), name);
    InFilter(IsMissing(refs), order, name);
    assert name in order <==> name in refs.Keys;
  }

  /** Which names count as missing does not depend on the iteration order of the map. */
  lemma MissingNamesAgree(refs: map<string, Existence>, a: seq<string>, b: seq<string>)
    requires Enumerates(a, refs.Keys) && Enumerates(b, refs.Keys)
    ensures MissingNames(refs, a) == MissingNames(refs, b)
  {
    EnumerationsPermute(a, b, refs.Keys);
    FilterPermutation(IsMissing(refs), a, b);
    SortedNamesAgree(Filter(IsMissing(refs), a), Filter(IsMissing(refs), b));
  }

  lemma ClaimRuleAgrees(env: Env, snap: PodSnap, a: MapOrder, b: MapOrder)
    requires OrderOf(a, snap) && OrderOf(b, snap)
    ensures ClaimRule(env, snap, a) == ClaimRule(env, snap, b) && ConfigRule(env, snap, a) == ConfigRule(env, snap, b)
  {
    EnumerationsPermute(a.claims, b.claims, snap.claims.Keys);
    SortedNamesAgree(a.claims, b.claims);
    MissingNamesAgree(snap.configMaps, a.configMaps, b.configMaps);
    MissingNamesAgree(snap.secrets, a.secrets, b.secrets);
  }

  ghost predicate HasID(ds: seq<Diagnosis>, id: FindingID) {
    exists d :: d in ds && d.id == id
  }

  lemma AbsentObjectsHaveID(env: Env, snap: PodSnap, id: FindingID, kind: string, names: seq<string>)
    ensures names != [] ==> HasID(AbsentObjects(env, snap, id, kind, names), id)
    ensures Uncaused(AbsentObjects(env, snap, id, kind, names))
  {
    var out := AbsentObjects(env, snap, id, kind, names);
    forall i | 0 <= i < |out| ensures out[i].causedBy == NoID && out[i].id == id {
      assert out[i] == MissingObject(env, snap, id, kind, names[i]);
    }
    if names != [] {
      assert out[0] in out;
    }
  }

  lemma HasIDConcat(a: seq<Diagnosis>, b: seq<Diagnosis>, id: FindingID)
    ensures HasID(a, id) || HasID(b, id) ==> HasID(a + b, id)
  {
    if HasID(a, id) {
      var d :| d in a && d.id == id;
      assert d in a + b;
    } else if HasID(b, id) {
      var d :| d in b && d.id == id;
      assert d in a + b;
    }
  }

  lemma ConfigCauseIs(message: string, cms: seq<string>, secs: seq<string>)
    ensures ConfigCause(message, cms, secs) == PodMissingConfigMap ==> cms != []
    ensures ConfigCause(message, cms, secs) == PodMissingSecret ==> secs != []
    ensures ConfigCause(message, cms, secs) in {NoID, PodMissingConfigMap, PodMissingSecret}
  {
  }

  lemma ConfigErrorCauses(env: Env, snap: PodSnap, cms: seq<string>, secs: seq<string>, d: Diagnosis)
    requires d in ConfigErrors(env, snap, cms, secs) && d.causedBy != NoID
    ensures (d.causedBy == PodMissingConfigMap && cms != []) || (d.causedBy == PodMissingSecret && secs != [])
  {
    var cs := Containers(snap.pod);
    var f := ConfigErrorOf(env, snap, cms, secs);
    InFlatMap(f, cs, d);
    var i :| 0 <= i < |cs| && d in f(cs[i]);
    ConfigErrorCause(env, snap, cms, secs, cs[i], d);
  }

  lemma ConfigErrorCause(env: Env, snap: PodSnap, cms: seq<string>, secs: seq<string>, c: Container, d: Diagnosis)
    requires d in ConfigErrorOf(env, snap, cms, secs)(c) && d.causedBy != NoID
    ensures (d.causedBy == PodMissingConfigMap && cms != []) || (d.causedBy == PodMissingSecret && secs != [])
  {
    ConfigCauseIs(c.Waits().value.message, cms, secs);
    assert d.causedBy == ConfigCause(c.Waits().value.message, cms, secs);
  }

  lemma ConfigRuleNames(env: Env, snap: PodSnap, ord: MapOrder)
    ensures MissingNames(snap.configMaps, ord.configMaps) != [] ==> HasID(ConfigRule(env, snap, ord), PodMissingConfigMap)
    ensures MissingNames(snap.secrets, ord.secrets) != [] ==> HasID(ConfigRule(env, snap, ord), PodMissingSecret)
  {
    var cms, secs := MissingNames(snap.configMaps, ord.configMaps), MissingNames(snap.secrets, ord.secrets);
    var a := AbsentObjects(env, snap, PodMissingConfigMap, "configmap", cms);
    var b := AbsentObjects(env, snap, PodMissingSecret, "secret", secs);
    var c := ConfigErrors(env, snap, cms, secs);
    AbsentObjectsHaveID(env, snap, PodMissingConfigMap, "configmap", cms);
    AbsentObjectsHaveID(env, snap, PodMissingSecret, "secret", secs);
    HasIDConcat(a, b, PodMissingConfigMap);
    HasIDConcat(a, b, PodMissingSecret);
    HasIDConcat(a + b, c, PodMissingConfigMap);
    HasIDConcat(a + b, c, PodMissingSecret);
  }

  lemma ConfigRuleCauses(env: Env, snap: PodSnap, ord: MapOrder, d: Diagnosis)
    requires d in ConfigRule(env, snap, ord) && d.causedBy != NoID
    ensures HasID(ConfigRule(env, snap, ord), d.causedBy)
  {
    var cms, secs := MissingNames(snap.configMaps, ord.configMaps), MissingNames(snap.secrets, ord.secrets);
    AbsentObjectsHaveID(env, snap, PodMissingConfigMap, "configmap", cms);
    AbsentObjectsHaveID(env, snap, PodMissingSecret, "secret", secs);
    ConfigRuleNames(env, snap, ord);
    ConfigErrorCauses(env, snap, cms, secs, d);
  }

  lemma ClaimContribution(env: Env, snap: PodSnap, name: string)
    requires name in snap.claims
    ensures snap.claims[name].existence == Missing ==> HasID(ClaimOf(env, snap)(name), PodPVCNotFound)
    ensures snap.claims[name].existence == Found && snap.claims[name].phase != Bound ==> HasID(ClaimOf(env, snap)(name), PodPVCNotBound)
  {
    var out := ClaimFindings(env, snap, name);
    assert ClaimOf(env, snap)(name) == out;
    if out != [] {
      assert out[0] in out;
    }
  }

  lemma FlatMapHasID<T>(f: T -> seq<Diagnosis>, s: seq<T>, x: T, id: FindingID)
    requires x in s && HasID(f(x), id)
    ensures HasID(FlatMap(f, s), id)
  {
    var d :| d in f(x) && d.id == id;
    var i :| 0 <= i < |s| && s[i] == x;
    InFlatMap(f, s, d);
    assert d in f(s[i]);
  }

  lemma ClaimRuleNames(env: Env, snap: PodSnap, ord: MapOrder, name: string)
    requires name in ord.claims && name in snap.claims && !snap.IsTerminal()
    ensures snap.claims[name].existence == Missing ==> HasID(ClaimRule(env, snap, ord), PodPVCNotFound)
    ensures snap.claims[name].existence == Found && snap.claims[name].phase != Bound ==> HasID(ClaimRule(env, snap, ord), PodPVCNotBound)
  {
    var names := Sort(ByName(), ord.claims);
    SortMembers(ByName(), ord.claims, name);
    ClaimContribution(env, snap, name);
    if HasID(ClaimOf(env, snap)(name), PodPVCNotFound) {
      FlatMapHasID(ClaimOf(env, snap), names, name, PodPVCNotFound);
    }
    if HasID(ClaimOf(env, snap)(name), PodPVCNotBound) {
      FlatMapHasID(ClaimOf(env, snap), names, name, PodPVCNotBound);
    }
  }

  lemma {:induction false} MissingClaimCauseIs(claims: map<string, ClaimRef>, order: seq<string>)
    ensures MissingClaimCause(claims, order) != NoID ==>
              && MissingClaimCause(claims, order) == PodPVCNotFound
              && exists n :: n in order && n in claims && claims[n].existence == Missing
  {
    if order != [] {
      MissingClaimCauseIs(claims, Front(order));
      assert Last(order) in order && forall n :: n in Front(order) ==> n in order;
    }
  }

  lemma {:induction false} VolumeCauseIs(claims: map<string, ClaimRef>, order: seq<string>)
    ensures match VolumeCause(claims, order)
            case NoID => true
            case PodPVCNotFound => exists n :: n in order && n in claims && claims[n].existence == Missing
            case PodPVCNotBound => exists n :: n in order && n in claims && claims[n].phase == ClaimPending
            case _ => false
  {
    if order != [] {
      VolumeCauseIs(claims, Front(order));
      assert Last(order) in order && forall n :: n in Front(order) ==> n in order;
    }
  }

  lemma {:induction false} MissingClaimCauseIff(claims: map<string, ClaimRef>, order: seq<string>)
    ensures MissingClaimCause(claims, order)
         == if exists n :: n in order && n in claims && claims[n].existence == Missing then PodPVCNotFound else NoID
  {
    if order != [] {
      MissingClaimCauseIff(claims, Front(order));
      Snoc(order);
    }
  }

  /** A claim that is pending and not missing: the other thing a volume cause can name. */
  predicate IsPending(c: ClaimRef) {
    c.existence != Missing && c.phase == ClaimPending
  }

  lemma {:induction false} VolumeCauseWithout(claims: map<string, ClaimRef>, order: seq<string>)
    ensures (forall n :: n in order && n in claims ==> claims[n].existence != Missing) ==>
              VolumeCause(claims, order) == if exists n :: n in order && n in claims && IsPending(claims[n]) then PodPVCNotBound else NoID
    ensures (forall n :: n in order && n in claims ==> !IsPending(claims[n])) ==>
              VolumeCause(claims, order) == if exists n :: n in order && n in claims && claims[n].existence == Missing then PodPVCNotFound else NoID
  {
    if order != [] {
      VolumeCauseWithout(claims, Front(order));
      Snoc(order);
    }
  }

  lemma {:induction false} EnumerationEndingIn(keys: set<string>, x: string) returns (order: seq<string>)
    requires x in keys
    ensures Enumerates(order, keys) && order != [] && Last(order) == x
    decreases |keys|, 0
  {
    var rest := keys - {x};
    var before := [];
    if rest != {} {
      var y :| y in rest;
      before := EnumerationEndingIn(rest, y);
    }
    order := before + [x];
    assert (set z | z in order) == (set z | z in before) + {x};
    assert x !in before by {
      assert x !in (set z | z in before);
    }
  }

  /** Which claim a scheduling finding blames depends on how the map is walked exactly when some claim
      is missing and another one is pending. */
  lemma VolumeCauseDependsIff(claims: map<string, ClaimRef>)
    ensures (exists a, b :: Enumerates(a, claims.Keys) && Enumerates(b, claims.Keys) && VolumeCause(claims, a) != VolumeCause(claims, b))
       <==> && (exists m :: m in claims && claims[m].existence == Missing)
            && (exists p :: p in claims && IsPending(claims[p]))
  {
    if (exists m :: m in claims && claims[m].existence == Missing) && (exists p :: p in claims && IsPending(claims[p])) {
      var m :| m in claims && claims[m].existence == Missing;
      var p :| p in claims && IsPending(claims[p]);
      var a := EnumerationEndingIn(claims.Keys, m);
      var b := EnumerationEndingIn(claims.Keys, p);
      assert VolumeCause(claims, a) == PodPVCNotFound && VolumeCause(claims, b) == PodPVCNotBound;
    } else {
      forall a, b | Enumerates(a, claims.Keys) && Enumerates(b, claims.Keys) ensures VolumeCause(claims, a) == VolumeCause(claims, b) {
        SameMembers(a, b, claims.Keys);
        VolumeCauseWithout(claims, a);
        VolumeCauseWithout(claims, b);
      }
    }
  }

  lemma SameMembers(a: seq<string>, b: seq<string>, keys: set<string>)
    requires Enumerates(a, keys) && Enumerates(b, keys)
    ensures forall n :: n in a <==> n in keys
    ensures forall n :: n in b <==> n in keys
  {
    assert forall n :: n in a <==> n in (set x | x in a);
    assert forall n :: n in b <==> n in (set x | x in b);
  }

  /** The mount finding does not depend on iteration orders. */
  lemma MountRuleAgrees(env: Env, snap: PodSnap, a: MapOrder, b: MapOrder)
    requires OrderOf(a, snap) && OrderOf(b, snap)
    ensures MountRule(env, snap, a) == MountRule(env, snap, b)
  {
    MissingNamesAgree(snap.configMaps, a.mountConfigMaps, b.mountConfigMaps);
    MissingNamesAgree(snap.secrets, a.mountSecrets, b.mountSecrets);
    SameMembers(a.mountClaims, b.mountClaims, snap.claims.Keys);
    MissingClaimCauseIff(snap.claims, a.mountClaims);
    MissingClaimCauseIff(snap.claims, b.mountClaims);
  }

  lemma MountRuleCauses(env: Env, snap: PodSnap, ord: MapOrder, d: Diagnosis)
    requires OrderOf(ord, snap)
    requires d in MountRule(env, snap, ord) && d.causedBy != NoID
    ensures HasID(ConfigRule(env, snap, ord), d.causedBy) || HasID(ClaimRule(env, snap, ord), d.causedBy)
  {
    ConfigRuleNames(env, snap, ord);
    MissingNamesAgree(snap.configMaps, ord.configMaps, ord.mountConfigMaps);
    MissingNamesAgree(snap.secrets, ord.secrets, ord.mountSecrets);
    if d.causedBy == MissingClaimCause(snap.claims, ord.mountClaims) {
      MissingClaimCauseIs(snap.claims, ord.mountClaims);
      var n :| n in ord.mountClaims && n in snap.claims && snap.claims[n].existence == Missing;
      assert n in snap.claims.Keys && n in ord.claims;
      ClaimRuleNames(env, snap, ord, n);
    }
  }

  lemma SchedulingRuleCauses(env: Env, snap: PodSnap, ord: MapOrder, d: Diagnosis)
    requires CollectorShaped(snap) && OrderOf(ord, snap)
    requires d in SchedulingRule(env, snap, ord) && d.causedBy != NoID
    ensures HasID(ClaimRule(env, snap, ord), d.causedBy)
  {
    var order := ord.schedulingClaims;
    VolumeCauseIs(snap.claims, order);
    if d.causedBy == PodPVCNotFound {
      var n :| n in order && n in snap.claims && snap.claims[n].existence == Missing;
      assert n in snap.claims.Keys && n in ord.claims;
      ClaimRuleNames(env, snap, ord, n);
    } else {
      var n :| n in order && n in snap.claims && snap.claims[n].phase == ClaimPending;
      assert n in snap.claims.Keys && n in ord.claims;
      ClaimRuleNames(env, snap, ord, n);
    }
  }

  /** The eleven rules, each alive. */
  function PodFindings(env: Env, snap: PodSnap, ord: MapOrder): seq<Diagnosis> {
    Engine.Evaluated(Rules(env, ord), snap, |Rules(env, ord)|)
  }

  lemma RuleOutputs0(env: Env, snap: PodSnap, ord: MapOrder)
    ensures |Rules(env, ord)| == 11
    ensures Rules(env, ord)[0](snap) == OOMRule(env, snap) && Rules(env, ord)[1](snap) == CrashRule(env, snap)
    ensures Rules(env, ord)[2](snap) == EndedRule(env, snap)
  {
  }

  lemma RuleOutputs3(env: Env, snap: PodSnap, ord: MapOrder)
    ensures |Rules(env, ord)| == 11
    ensures Rules(env, ord)[3](snap) == ImagePullRule(env, snap) && Rules(env, ord)[4](snap) == SchedulingRule(env, snap, ord)
    ensures Rules(env, ord)[5](snap) == ProbeRule(env, snap)
  {
  }

  lemma RuleOutputs6(env: Env, snap: PodSnap, ord: MapOrder)
    ensures |Rules(env, ord)| == 11
    ensures Rules(env, ord)[6](snap) == ConfigRule(env, snap, ord) && Rules(env, ord)[7](snap) == MountRule(env, snap, ord)
  {
  }

  lemma RuleOutputs8(env: Env, snap: PodSnap, ord: MapOrder)
    ensures |Rules(env, ord)| == 11
    ensures Rules(env, ord)[8](snap) == ClaimRule(env, snap, ord) && Rules(env, ord)[9](snap) == NodeRule(env, snap)
    ensures Rules(env, ord)[10](snap) == RestartRule(env, snap)
  {
  }

  lemma InEleven(rules: seq<Engine.Rule<PodSnap>>, snap: PodSnap, d: Diagnosis)
    requires |rules| == 11
    ensures d in Engine.Evaluated(rules, snap, |rules|) <==>
              || d in rules[0](snap) || d in rules[1](snap) || d in rules[2](snap) || d in rules[3](snap) || d in rules[4](snap)
              || d in rules[5](snap) || d in rules[6](snap) || d in rules[7](snap) || d in rules[8](snap) || d in rules[9](snap)
              || d in rules[10](snap)
  {
    Engine.InEvaluated(rules, snap, d);
  }

  lemma InPodFindings(env: Env, snap: PodSnap, ord: MapOrder, d: Diagnosis)
    ensures d in PodFindings(env, snap, ord) <==>
              || d in OOMRule(env, snap) || d in CrashRule(env, snap) || d in EndedRule(env, snap) || d in ImagePullRule(env, snap)
              || d in SchedulingRule(env, snap, ord) || d in ProbeRule(env, snap) || d in ConfigRule(env, snap, ord)
              || d in MountRule(env, snap, ord) || d in ClaimRule(env, snap, ord) || d in NodeRule(env, snap) || d in RestartRule(env, snap)
  {
    RuleOutputs0(env, snap, ord);
    RuleOutputs3(env, snap, ord);
    RuleOutputs6(env, snap, ord);
    RuleOutputs8(env, snap, ord);
    InEleven(Rules(env, ord), snap, d);
  }

  /** Every cause a Pod finding names is a finding of the same report, for every iteration order. */
  lemma PodNoDanglingCause(env: Env, snap: PodSnap, ord: MapOrder)
    requires CollectorShaped(snap) && OrderOf(ord, snap)
    ensures NoDanglingCause(PodFindings(env, snap, ord))
  {
    var out := PodFindings(env, snap, ord);
    forall d ensures d in out <==>
              || d in OOMRule(env, snap) || d in CrashRule(env, snap) || d in EndedRule(env, snap) || d in ImagePullRule(env, snap)
              || d in SchedulingRule(env, snap, ord) || d in ProbeRule(env, snap) || d in ConfigRule(env, snap, ord)
              || d in MountRule(env, snap, ord) || d in ClaimRule(env, snap, ord) || d in NodeRule(env, snap) || d in RestartRule(env, snap)
    {
      InPodFindings(env, snap, ord, d);
    }
    UncausedContainerRules(env, snap);
    UncausedEnded(env, snap);
    UncausedImagePull(env, snap);
    UncausedProbes(env, snap);
    UncausedClaims(env, snap, ord);
    forall d | d in out && d.causedBy != NoID ensures exists e :: e in out && e.id == d.causedBy {
      if d in SchedulingRule(env, snap, ord) {
        SchedulingRuleCauses(env, snap, ord, d);
      } else if d in ConfigRule(env, snap, ord) {
        ConfigRuleCauses(env, snap, ord, d);
      } else {
        MountRuleCauses(env, snap, ord, d);
      }
    }
  }
}
