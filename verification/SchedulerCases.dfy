/** Which category a scheduler's reason falls in, and which identifier its message leads to. */
module SchedulerCases {
  import opened Sequences
  import opened Text
  import opened Model
  import opened Scheduling

  /** The reason mentions the word, in whatever case. */
  ghost predicate Mentions(text: string, word: string) {
    exists j :: 0 <= j <= |text| && word <= Lower(text)[j..]
  }

  lemma MentionsIff(text: string, word: string)
    ensures Mentions(text, word) <==> Contains(Lower(text), word)
  {
    ContainsIff(Lower(text), word);
  }

  ghost predicate AboutResources(text: string) {
    !Mentions(text, "anti-affinity") && Mentions(text, "insufficient")
  }

  ghost predicate AboutTaints(text: string) {
    !Mentions(text, "anti-affinity") && !Mentions(text, "insufficient") && Mentions(text, "taint")
  }

  ghost predicate AboutPlacement(text: string) {
    && !Mentions(text, "anti-affinity") && !Mentions(text, "insufficient") && !Mentions(text, "taint")
    && (Mentions(text, "affinity") || Mentions(text, "node selector") || Mentions(text, "didn't match"))
  }

  ghost predicate OtherwiseUnplaced(text: string) {
    && !Mentions(text, "anti-affinity") && !Mentions(text, "insufficient") && !Mentions(text, "taint")
    && !Mentions(text, "affinity") && !Mentions(text, "node selector") && !Mentions(text, "didn't match")
  }

  ghost predicate AboutVolumes(text: string) {
    OtherwiseUnplaced(text) && (Mentions(text, "volume") || Mentions(text, "persistentvolumeclaim"))
  }

  lemma InsufficientPrefix(text: string, word: string)
    requires Mentions(text, word) && "insufficient" <= word
    ensures Mentions(text, "insufficient")
  {
    var j :| 0 <= j <= |text| && word <= Lower(text)[j..];
    assert "insufficient" <= Lower(text)[j..];
  }

  /** How the twelve words decide. */
  function Decided(anti: bool, cpu: bool, memory: bool, insufficient: bool, taint: bool, placement: bool, volume: bool, many: bool, cordoned: bool): Category {
    if anti then AntiAffinity
    else if insufficient then if cpu then CPU else if memory then Memory else Resource
    else if taint then Taint else if placement then Affinity else if volume then VolumeCategory
    else if many then Capacity else if cordoned then Cordoned else Other
  }

  lemma ResourceWords(text: string)
    ensures Contains(Lower(text), "insufficient cpu") ==> Contains(Lower(text), "insufficient")
    ensures Contains(Lower(text), "insufficient memory") ==> Contains(Lower(text), "insufficient")
  {
    MentionsIff(text, "insufficient");
    MentionsIff(text, "insufficient cpu");
    MentionsIff(text, "insufficient memory");
    if Mentions(text, "insufficient cpu") {
      InsufficientPrefix(text, "insufficient cpu");
    }
    if Mentions(text, "insufficient memory") {
      InsufficientPrefix(text, "insufficient memory");
    }
  }

  lemma ClassifyDecides(text: string)
    ensures var l := Lower(text);
            Classify(text) == Decided(Contains(l, "anti-affinity"), Contains(l, "insufficient cpu"), Contains(l, "insufficient memory"),
                                      Contains(l, "insufficient"), Contains(l, "taint"),
                                      Contains(l, "affinity") || Contains(l, "node selector") || Contains(l, "didn't match"),
                                      Contains(l, "volume") || Contains(l, "persistentvolumeclaim"),
                                      Contains(l, "too many pods"), Contains(l, "unschedulable"))
  {
    ResourceWords(text);
  }

  lemma MentionsEach(text: string)
    ensures Classify(text) == Decided(Mentions(text, "anti-affinity"), Mentions(text, "insufficient cpu"), Mentions(text, "insufficient memory"),
                                      Mentions(text, "insufficient"), Mentions(text, "taint"),
                                      Mentions(text, "affinity") || Mentions(text, "node selector") || Mentions(text, "didn't match"),
                                      Mentions(text, "volume") || Mentions(text, "persistentvolumeclaim"),
                                      Mentions(text, "too many pods"), Mentions(text, "unschedulable"))
  {
    ClassifyDecides(text);
    MentionsIff(text, "anti-affinity");
    MentionsIff(text, "insufficient cpu");
    MentionsIff(text, "insufficient memory");
    MentionsIff(text, "insufficient");
    MentionsIff(text, "taint");
    MentionsIff(text, "affinity");
    MentionsIff(text, "node selector");
    MentionsIff(text, "didn't match");
    MentionsIff(text, "volume");
    MentionsIff(text, "persistentvolumeclaim");
    MentionsIff(text, "too many pods");
    MentionsIff(text, "unschedulable");
  }

  /** What puts a reason in its category. */
  lemma CategoryIff(text: string)
    ensures Classify(text) == AntiAffinity <==> Mentions(text, "anti-affinity")
    ensures Classify(text) == CPU <==> AboutResources(text) && Mentions(text, "insufficient cpu")
    ensures Classify(text) == Memory <==> AboutResources(text) && !Mentions(text, "insufficient cpu") && Mentions(text, "insufficient memory")
    ensures Classify(text) == Resource <==> AboutResources(text) && !Mentions(text, "insufficient cpu") && !Mentions(text, "insufficient memory")
    ensures Classify(text) == Taint <==> AboutTaints(text)
    ensures Classify(text) == Affinity <==> AboutPlacement(text)
    ensures Classify(text) == VolumeCategory <==> AboutVolumes(text)
    ensures Classify(text) == Capacity <==> OtherwiseUnplaced(text) && !AboutVolumes(text) && Mentions(text, "too many pods")
    ensures Classify(text) == Cordoned <==>
              OtherwiseUnplaced(text) && !AboutVolumes(text) && !Mentions(text, "too many pods") && Mentions(text, "unschedulable")
  {
    MentionsEach(text);
  }

  /** A message with one counted reason leads to the identifier of that reason's category. */
  lemma OneReason(free: nat, nodes: nat, n: int, text: string, preemption: Option<string>)
    requires nodes <= MAX_INT && Countable(Tally(n, text)) && WellFormed(text)
    ensures var id := Dominant(Parsed(Message(free, nodes, [Tally(n, text)], preemption)).reasons);
            && (id == Some(PodUnschedulableCPU) <==> AboutResources(text) && Mentions(text, "insufficient cpu"))
            && (id == Some(PodUnschedulableMemory) <==>
                  AboutResources(text) && !Mentions(text, "insufficient cpu") && Mentions(text, "insufficient memory"))
            && (id == Some(PodUntoleratedTaint) <==> AboutTaints(text))
            && (id == Some(PodUnschedulableAffinity) <==> AboutPlacement(text))
            && (id == Some(PodUnschedulableVolume) <==> AboutVolumes(text))
  {
    var t := Tally(n, text);
    ParseUndoesMessage(free, nodes, [t], preemption);
    var rs := Map(Categorized, [t]);
    assert rs == [Reason(n, text, Classify(text))];
    DominantOne(rs[0]);
    CategoryIff(text);
  }

  lemma DominantOne(r: Reason)
    ensures Dominant([r]) == Some(PodUnschedulableCPU) <==> r.category == CPU
    ensures Dominant([r]) == Some(PodUnschedulableMemory) <==> r.category == Memory
    ensures Dominant([r]) == Some(PodUntoleratedTaint) <==> r.category == Taint
    ensures Dominant([r]) == Some(PodUnschedulableAffinity) <==> r.category == Affinity
    ensures Dominant([r]) == Some(PodUnschedulableVolume) <==> r.category == VolumeCategory
  {
    assert forall i :: 0 <= i < |[r]| ==> [r][i] == r;
  }

  // ---- The scheduler's own words ----

  lemma Absent(text: string, lower: string, word: string, i: nat)
    requires Lower(text) == lower && i < |word| && word[i] !in lower
    ensures !Mentions(text, word)
  {
    NeedsItsLetters(lower, word, i);
    MentionsIff(text, word);
  }

  lemma Present(text: string, before: string, word: string, after: string)
    requires Lower(text) == before + word + after
    ensures Mentions(text, word)
  {
    ContainsAt(Lower(text), before, word, after);
    MentionsIff(text, word);
  }

  lemma Decapitalized(c: char, rest: string)
    requires 'A' <= c <= 'Z' && forall x :: x in rest ==> !('A' <= x <= 'Z')
    ensures Lower([c] + rest) == [LowerChar(c)] + rest
  {
    LowerStays(rest);
    assert Lower([c] + rest) == [LowerChar(c)] + Lower(rest);
  }

  const NO_CPU := "Insufficient cpu"
  const NO_MEMORY := "Insufficient memory"

  lemma LoweredCpu()
    ensures Lower(NO_CPU) == "insufficient cpu"
  {
    Decapitalized('I', "nsufficient cpu");
    assert NO_CPU == ['I'] + "nsufficient cpu" && "insufficient cpu" == [LowerChar('I')] + "nsufficient cpu";
  }

  lemma LoweredMemory()
    ensures Lower(NO_MEMORY) == "insufficient memory"
  {
    Decapitalized('I', "nsufficient memory");
    assert NO_MEMORY == ['I'] + "nsufficient memory" && "insufficient memory" == [LowerChar('I')] + "nsufficient memory";
  }

  lemma InsufficientCpu()
    ensures AboutResources(NO_CPU) && Mentions(NO_CPU, "insufficient cpu")
  {
    var lower := "insufficient cpu";
    LoweredCpu();
    Absent(NO_CPU, lower, "anti-affinity", 0);
    Present(NO_CPU, "", lower, "");
    InsufficientPrefix(NO_CPU, lower);
  }

  lemma InsufficientMemory()
    ensures AboutResources(NO_MEMORY) && !Mentions(NO_MEMORY, "insufficient cpu") && Mentions(NO_MEMORY, "insufficient memory")
  {
    var lower := "insufficient memory";
    LoweredMemory();
    Absent(NO_MEMORY, lower, "anti-affinity", 0);
    Absent(NO_MEMORY, lower, "insufficient cpu", 14);
    Present(NO_MEMORY, "", lower, "");
    InsufficientPrefix(NO_MEMORY, lower);
  }

  const TAINTED := "node(s) had untolerated taint"
  const MISMATCHED := "node selector unmet"
  const UNBOUND := "no persistent volumes"

  lemma Tainted()
    ensures AboutTaints(TAINTED)
  {
    LowerStays(TAINTED);
    Absent(TAINTED, TAINTED, "anti-affinity", 6);
    Absent(TAINTED, TAINTED, "insufficient", 4);
    Present(TAINTED, "node(s) had untolerated ", "taint", "");
  }

  lemma Mismatched()
    ensures AboutPlacement(MISMATCHED)
  {
    LowerStays(MISMATCHED);
    Absent(MISMATCHED, MISMATCHED, "anti-affinity", 0);
    Absent(MISMATCHED, MISMATCHED, "insufficient", 0);
    Absent(MISMATCHED, MISMATCHED, "taint", 1);
    Present(MISMATCHED, "", "node selector", " unmet");
  }

  lemma Unbound()
    ensures AboutVolumes(UNBOUND)
  {
    LowerStays(UNBOUND);
    Absent(UNBOUND, UNBOUND, "anti-affinity", 0);
    Absent(UNBOUND, UNBOUND, "insufficient", 4);
    Absent(UNBOUND, UNBOUND, "taint", 1);
    Absent(UNBOUND, UNBOUND, "affinity", 0);
    Absent(UNBOUND, UNBOUND, "node selector", 2);
    Absent(UNBOUND, UNBOUND, "didn't match", 0);
    Present(UNBOUND, "no persistent ", "volume", "s");
  }

  lemma SimpleText(text: string)
    requires text != [] && (forall c :: c in text ==> 'a' <= c <= 'z' || 'A' <= c <= 'Z' || c == ' ' || c == '(' || c == ')')
    requires text[0] != ' ' && Last(text) != ' '
    ensures WellFormed(text)
  {
    assert ':' == PREEMPTION[10];
    NeedsItsLetters(text, PREEMPTION, 10);
    assert text[0] in text && Last(text) in text;
  }

  ghost predicate LeadsTo(free: nat, nodes: nat, n: int, text: string, id: FindingID) {
    Dominant(Parsed(Message(free, nodes, [Tally(n, text)], None)).reasons) == Some(id)
  }

  lemma CpuMessage(free: nat, nodes: nat, n: int)
    requires nodes <= MAX_INT && 0 < n <= MAX_INT
    ensures LeadsTo(free, nodes, n, NO_CPU, PodUnschedulableCPU)
  {
    SimpleText(NO_CPU);
    InsufficientCpu();
    OneReason(free, nodes, n, NO_CPU, None);
  }

  lemma MemoryMessage(free: nat, nodes: nat, n: int)
    requires nodes <= MAX_INT && 0 < n <= MAX_INT
    ensures LeadsTo(free, nodes, n, NO_MEMORY, PodUnschedulableMemory)
  {
    SimpleText(NO_MEMORY);
    InsufficientMemory();
    OneReason(free, nodes, n, NO_MEMORY, None);
  }

  lemma TaintMessage(free: nat, nodes: nat, n: int)
    requires nodes <= MAX_INT && 0 < n <= MAX_INT
    ensures LeadsTo(free, nodes, n, TAINTED, PodUntoleratedTaint)
  {
    SimpleText(TAINTED);
    Tainted();
    OneReason(free, nodes, n, TAINTED, None);
  }

  lemma PlacementMessage(free: nat, nodes: nat, n: int)
    requires nodes <= MAX_INT && 0 < n <= MAX_INT
    ensures LeadsTo(free, nodes, n, MISMATCHED, PodUnschedulableAffinity)
  {
    SimpleText(MISMATCHED);
    Mismatched();
    OneReason(free, nodes, n, MISMATCHED, None);
  }

  lemma VolumeMessage(free: nat, nodes: nat, n: int)
    requires nodes <= MAX_INT && 0 < n <= MAX_INT
    ensures LeadsTo(free, nodes, n, UNBOUND, PodUnschedulableVolume)
  {
    SimpleText(UNBOUND);
    Unbound();
    OneReason(free, nodes, n, UNBOUND, None);
  }

  /** For any node count the messages lead where an operator would look. */
  lemma MessagesLeadTo(free: nat, nodes: nat, n: int)
    requires nodes <= MAX_INT && 0 < n <= MAX_INT
    ensures LeadsTo(free, nodes, n, NO_CPU, PodUnschedulableCPU) && LeadsTo(free, nodes, n, NO_MEMORY, PodUnschedulableMemory)
    ensures LeadsTo(free, nodes, n, TAINTED, PodUntoleratedTaint) && LeadsTo(free, nodes, n, MISMATCHED, PodUnschedulableAffinity)
    ensures LeadsTo(free, nodes, n, UNBOUND, PodUnschedulableVolume)
  {
    CpuMessage(free, nodes, n);
    MemoryMessage(free, nodes, n);
    TaintMessage(free, nodes, n);
    PlacementMessage(free, nodes, n);
    VolumeMessage(free, nodes, n);
  }
}
