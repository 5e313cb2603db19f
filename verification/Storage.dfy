/** Which storage class a claim relies on (internal/collect/storageclass.go). */
module Storage {
  import opened Sequences
  import opened Model
  import opened Collecting
  import opened Pods

  /** `className` is the spec field, `annotation` the older way of asking, empty when absent. */
  datatype ClaimObject = ClaimObject(name: string, ns: string, phase: ClaimPhase, className: Option<string>, annotation: string, createdAt: int)

  datatype StorageClass = StorageClass(name: string, isDefault: bool, bindingMode: Option<string>, provisioner: string)

  /** What the API answers about storage classes while one claim is resolved. */
  datatype StorageApi = StorageApi(get: string -> Read<StorageClass>, list: Read<seq<StorageClass>>)

  datatype ClassInfo = ClassInfo(
    name: string, requested: bool, explicitlyNone: bool, existence: Existence, defaultExists: Existence,
    bindingMode: string, provisioner: string)
  {
    predicate WaitsForConsumer() {
      bindingMode == "WaitForFirstConsumer"
    }
  }

  const IMMEDIATE := "Immediate"
  const NO_CLASS := ClassInfo("", false, false, Existence.Unknown, Existence.Unknown, "", "")
  const CLASS_PURPOSE := "checking the requested storage class exists"
  const DEFAULT_PURPOSE := "identifying the default storage class"

  function BindingMode(c: StorageClass): string {
    if c.bindingMode.Some? then c.bindingMode.value else IMMEDIATE
  }

  predicate WantsNone(claim: ClaimObject) {
    claim.className == Some("")
  }

  function ClassName(claim: ClaimObject): string {
    if claim.className.Some? && claim.className.value != "" then claim.className.value else claim.annotation
  }

  function IsDefault(c: StorageClass): bool {
    c.isDefault
  }

  function DefaultClass(list: Read<seq<StorageClass>>): ClassInfo {
    if !list.Got? then NO_CLASS
    else
      match FirstWhere(IsDefault, list.value)
      case Some(c) => ClassInfo(c.name, false, false, Found, Found, BindingMode(c), c.provisioner)
      case None => NO_CLASS.(existence := Missing, defaultExists := Missing)
  }

  function RequestedClass(name: string, r: Read<StorageClass>): ClassInfo {
    if r.Got? then ClassInfo(name, true, false, Found, Existence.Unknown, BindingMode(r.value), r.value.provisioner)
    else ClassInfo(name, true, false, ExistenceIn(r), Existence.Unknown, "", "")
  }

  function ClassOf(claim: ClaimObject, api: StorageApi): ClassInfo {
    if WantsNone(claim) then NO_CLASS.(explicitlyNone := true, bindingMode := IMMEDIATE)
    else if ClassName(claim) == "" then DefaultClass(api.list)
    else RequestedClass(ClassName(claim), api.get(ClassName(claim)))
  }

  function ClassDoubts(claim: ClaimObject, api: StorageApi): seq<Degradation> {
    if WantsNone(claim) then []
    else if ClassName(claim) == "" then Complaint("storageclasses", DEFAULT_PURPOSE, api.list)
    else Doubt("storageclasses", CLASS_PURPOSE, api.get(ClassName(claim)))
  }

  method DefaultStorageClassInfo(coll: Collection, list: Read<seq<StorageClass>>) returns (info: ClassInfo)
    requires coll.Valid()
    modifies coll`degradations
    ensures coll.Valid() && coll.degradations == Recorded(old(coll.degradations), Complaint("storageclasses", DEFAULT_PURPOSE, list))
    ensures info == DefaultClass(list)
  {
    DegradeRead(coll, "storageclasses", DEFAULT_PURPOSE, list);
    info := NO_CLASS;
    if !list.Got? {
      return;
    }
    for i := 0 to |list.value|
      invariant FirstWhere(IsDefault, list.value[..i]).None?
      invariant coll.Valid() && coll.degradations == Recorded(old(coll.degradations), Complaint("storageclasses", DEFAULT_PURPOSE, list))
    {
      PrefixStep(list.value, i);
      var c := list.value[i];
      if c.isDefault {
        FirstWherePrefix(IsDefault, list.value, i + 1);
        return ClassInfo(c.name, false, false, Found, Found, BindingMode(c), c.provisioner);
      }
    }
    assert list.value[..|list.value|] == list.value;
    info := info.(existence := Missing, defaultExists := Missing);
  }

  method StorageClassInfo(coll: Collection, claim: ClaimObject, api: StorageApi) returns (info: ClassInfo)
    requires coll.Valid()
    modifies coll`degradations
    ensures coll.Valid() && coll.degradations == Recorded(old(coll.degradations), ClassDoubts(claim, api))
    ensures info == ClassOf(claim, api)
  {
    RecordedNothing(coll.degradations);
    if WantsNone(claim) {
      return NO_CLASS.(explicitlyNone := true, bindingMode := IMMEDIATE);
    }
    var name := ClassName(claim);
    if name == "" {
      info := DefaultStorageClassInfo(coll, api.list);
      return;
    }
    var answer := api.get(name);
    var e := CheckExistence(coll, "storageclasses", CLASS_PURPOSE, answer);
    info := NO_CLASS.(name := name, requested := true, existence := e);
    if answer.Got? {
      info := info.(bindingMode := BindingMode(answer.value), provisioner := answer.value.provisioner);
    }
  }

  /** A class is called missing only on the API's word: NotFound for the requested name, or a list
      without a default; and a class nobody could look up leaves a degradation behind. */
  lemma ClassMissingIff(claim: ClaimObject, api: StorageApi)
    ensures ClassOf(claim, api).existence == Missing <==>
              && !WantsNone(claim)
              && (if ClassName(claim) == "" then api.list.Got? && forall c :: c in api.list.value ==> !c.isDefault
                  else api.get(ClassName(claim)).NotFound?)
    ensures ClassDoubts(claim, api) != [] <==> ClassOf(claim, api).existence == Existence.Unknown && !WantsNone(claim)
    ensures ClassOf(claim, api).WaitsForConsumer() ==> ClassOf(claim, api).existence == Found
  {
    if api.list.Got? {
      FirstWhereFound(IsDefault, api.list.value);
    }
  }

  // ---- The storage class, in the claim's and the API's own words ----

  /** The class the claim names: in its spec, or in the older annotation when the spec is silent. */
  predicate AsksFor(c: ClaimObject, name: string) {
    name != "" && match c.className case Some(n) => n == name case None => c.annotation == name
  }

  predicate AsksForNothing(c: ClaimObject) {
    c.className.None? && c.annotation == ""
  }

  ghost predicate NamedClassAbsent(c: ClaimObject, api: StorageApi) {
    exists name :: AsksFor(c, name) && api.get(name).NotFound?
  }

  ghost predicate NoDefault(c: ClaimObject, api: StorageApi) {
    AsksForNothing(c) && api.list.Got? && forall s :: s in api.list.value ==> !s.isDefault
  }

  ghost predicate FirstDefault(list: seq<StorageClass>, s: StorageClass) {
    exists k :: 0 <= k < |list| && list[k] == s && s.isDefault && forall j :: 0 <= j < k ==> !list[j].isDefault
  }

  /** The class the claim relies on binds only once a Pod needs it. */
  ghost predicate WaitsOnPurpose(c: ClaimObject, api: StorageApi) {
    || (exists name :: AsksFor(c, name) && api.get(name).Got? && api.get(name).value.bindingMode == Some("WaitForFirstConsumer"))
    || (AsksForNothing(c) && api.list.Got?
        && exists s :: FirstDefault(api.list.value, s) && s.bindingMode == Some("WaitForFirstConsumer"))
  }

  lemma DefaultFound(list: seq<StorageClass>)
    ensures FirstWhere(IsDefault, list).None? <==> forall s :: s in list ==> !s.isDefault
    ensures forall s :: FirstDefault(list, s) <==> FirstWhere(IsDefault, list) == Some(s)
  {
    FirstWhereFound(IsDefault, list);
    assert forall k :: 0 <= k < |list| ==> list[k] in list;
  }

  /** What is found out about the class a claim relies on. */
  lemma ClassIs(c: ClaimObject, api: StorageApi)
    ensures var info := ClassOf(c, api);
            && (NamedClassAbsent(c, api) <==> !info.explicitlyNone && info.requested && info.existence == Missing)
            && (NoDefault(c, api) <==> !info.explicitlyNone && !info.requested && info.defaultExists == Missing)
            && (WaitsOnPurpose(c, api) <==> info.WaitsForConsumer())
            && (NamedClassAbsent(c, api) || NoDefault(c, api) <==> info.existence == Missing)
            && (NamedClassAbsent(c, api) ==> info.requested) && (NoDefault(c, api) ==> !info.requested)
  {
    if api.list.Got? {
      DefaultFound(api.list.value);
    }
    var name := ClassName(c);
    assert AsksFor(c, name) <==> !WantsNone(c) && name != "";
    assert forall n :: AsksFor(c, n) ==> n == name;
  }
}
