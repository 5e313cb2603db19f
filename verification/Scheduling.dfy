/** Reading the scheduler's message and sizing a Pod (internal/diagnosis/rules/pod/scheduling.go). */
module Scheduling {
  import opened Sequences
  import opened Text
  import opened Model
  import opened Pods

  datatype Category = CPU | Memory | Resource | Taint | Affinity | AntiAffinity | VolumeCategory | Capacity | Cordoned | Other

  datatype Reason = Reason(count: int, text: string, category: Category)

  datatype SchedulerReport = SchedulerReport(evaluated: int, reasons: seq<Reason>)

  const PREEMPTION := "preemption:"
  const AVAILABLE := " nodes are available"

  function Classify(text: string): Category {
    var lower := Lower(text);
    if Contains(lower, "anti-affinity") then AntiAffinity
    else if Contains(lower, "insufficient cpu") then CPU
    else if Contains(lower, "insufficient memory") then Memory
    else if Contains(lower, "insufficient") then Resource
    else if Contains(lower, "taint") then Taint
    else if Contains(lower, "affinity") || Contains(lower, "node selector") || Contains(lower, "didn't match") then Affinity
    else if Contains(lower, "volume") || Contains(lower, "persistentvolumeclaim") then VolumeCategory
    else if Contains(lower, "too many pods") then Capacity
    else if Contains(lower, "unschedulable") then Cordoned
    else Other
  }

  // ---- Parsing ----

  /** A reason before it is classified. */
  datatype Tally = Tally(count: int, text: string)

  function Categorized(t: Tally): Reason {
    Reason(t.count, t.text, Classify(t.text))
  }

  function Cut(message: string, needle: string): string {
    match Index(message, needle)
    case Some(i) => if i > 0 then message[..i] else message
    case None => message
  }

  /** The second number when `(\d+)/(\d+)` followed by `words` matches at the start of `s`. */
  function NodesAt(s: string, words: string): Option<string> {
    var d := DigitRun(s);
    if d == 0 || d == |s| || s[d] != '/' then None
    else
      var rest := s[d + 1..];
      var e := DigitRun(rest);
      if e > 0 && words <= rest[e..] then Some(rest[..e]) else None
  }

  function FindNodes(s: string, words: string): Option<string> {
    if NodesAt(s, words).Some? then NodesAt(s, words) else if s == [] then None else FindNodes(s[1..], words)
  }

  function BodyOf(message: string): string {
    match Find(message, ':')
    case Some(i) => message[i + 1..]
    case None => message
  }

  function CleanPart(part: string): string {
    Trim(IsSpace, Trim(IsDot, Trim(IsSpace, part)))
  }

  /** The groups of `^(\d+)\s+(.*)$`. */
  function LeadingCount(part: string): Option<(string, string)> {
    var d := DigitRun(part);
    if d == 0 || d == |part| || !IsRegexpSpace(part[d]) then None
    else
      var rest := TrimLeft(IsRegexpSpace, part[d..]);
      if '\n' in rest then None else Some((part[..d], rest))
  }

  function TallyOf(clean: string): Tally {
    match LeadingCount(clean)
    case Some((digits, text)) => Tally(AtoiClamped(digits), text)
    case None => Tally(0, clean)
  }

  function TallyFrom(part: string): seq<Tally> {
    if CleanPart(part) == "" then [] else [TallyOf(CleanPart(part))]
  }

  function Tallies(m: string): seq<Tally> {
    FlatMap(TallyFrom, Split(BodyOf(m), ','))
  }

  function Evaluated(m: string): int {
    match FindNodes(m, AVAILABLE)
    case Some(digits) => AtoiClamped(digits)
    case None => 0
  }

  function Parsed(message: string): SchedulerReport {
    var m := Cut(message, PREEMPTION);
    SchedulerReport(Evaluated(m), Map(Categorized, Tallies(m)))
  }

  method ParseSchedulerMessage(message: string) returns (report: SchedulerReport)
    ensures report == Parsed(message)
  {
    var m := Cut(message, PREEMPTION);
    var parts := Split(BodyOf(m), ',');
    var reasons := [];
    ghost var tallies := [];
    for i := 0 to |parts|
      invariant tallies == FlatMap(TallyFrom, parts[..i]) && reasons == Map(Categorized, tallies)
    {
      PrefixStep(parts, i);
      var clean := CleanPart(parts[i]);
      if clean == "" {
        continue;
      }
      MapSnoc(Categorized, tallies, TallyOf(clean));
      tallies := tallies + [TallyOf(clean)];
      reasons := reasons + [Categorized(TallyOf(clean))];
    }
    assert parts[..|parts|] == parts;
    report := SchedulerReport(Evaluated(m), reasons);
  }

  // ---- Printing ----

  ghost predicate Countable(t: Tally) {
    0 < t.count <= MAX_INT
  }

  /** What a reason's text must look like to survive the comma-separated message. */
  ghost predicate WellFormed(text: string) {
    && text != [] && !IsRegexpSpace(text[0]) && !IsSpace(Last(text)) && Last(text) != '.'
    && ',' !in text && '\n' !in text && !Contains(text, PREEMPTION)
  }

  function PrintTally(t: Tally): string {
    DecimalInt(t.count) + [' '] + t.text
  }

  function Join(ts: seq<Tally>): string {
    if ts == [] then ""
    else if |ts| == 1 then PrintTally(ts[0])
    else PrintTally(ts[0]) + [','] + ([] + [' '] + Join(ts[1..]))
  }

  function Header(free: nat, nodes: nat, words: string): string {
    Decimal(free) + ['/'] + (Decimal(nodes) + words)
  }

  /** The message up to and including its final dot. */
  function Core(free: nat, nodes: nat, words: string, ts: seq<Tally>): string {
    Header(free, nodes, words) + [':'] + ([] + [' '] + (Join(ts) + ['.'] + []))
  }

  function Message(free: nat, nodes: nat, ts: seq<Tally>, preemption: Option<string>): string {
    match preemption
    case None => Core(free, nodes, AVAILABLE, ts)
    case Some(clause) => Core(free, nodes, AVAILABLE, ts) + [' '] + (PREEMPTION + clause)
  }

  /** What is left of a preemption clause once it is cut. */
  function Remnant(preemption: Option<string>): string {
    if preemption.Some? then [' '] else []
  }

  // ---- Parsing undoes printing ----

  lemma DigitsOnly(s: string, c: char)
    requires AllDigits(s) && !IsDigit(c)
    ensures c !in s
  {
  }

  /** The needle cannot hide in the punctuation: a space, comma, dot, slash, colon or digit breaks it. */
  ghost predicate Word(needle: string) {
    && needle != [] && !IsDigit(needle[0])
    && ' ' !in needle && ',' !in needle && '.' !in needle && '/' !in needle
  }

  lemma {:induction false} JoinWithout(ts: seq<Tally>, needle: string)
    requires Word(needle)
    requires forall t :: t in ts ==> Countable(t) && !Contains(t.text, needle)
    ensures !Contains(Join(ts), needle)
  {
    NotInWithout([], needle);
    if ts != [] {
      assert ts[0] in ts;
      var d := Decimal(ts[0].count);
      DigitsOnly(d, needle[0]);
      NotInWithout(d, needle);
      NotInAcross(d, ' ', ts[0].text, needle);
      if |ts| > 1 {
        JoinWithout(ts[1..], needle);
        NotInAcross([], ' ', Join(ts[1..]), needle);
        NotInAcross(PrintTally(ts[0]), ',', [] + [' '] + Join(ts[1..]), needle);
      }
    }
  }

  lemma HeaderWithout(free: nat, nodes: nat, words: string, needle: string)
    requires Word(needle) && needle[0] !in words && needle[0] != ':'
    ensures !Contains(Header(free, nodes, words) + [':'], needle)
  {
    DigitsOnly(Decimal(free), needle[0]);
    DigitsOnly(Decimal(nodes), needle[0]);
    NotInWithout(Header(free, nodes, words) + [':'], needle);
  }

  lemma CoreWithout(free: nat, nodes: nat, words: string, ts: seq<Tally>, needle: string)
    requires Word(needle) && needle[0] !in words && needle[0] != ':'
    requires forall t :: t in ts ==> Countable(t) && !Contains(t.text, needle)
    ensures !Contains(Core(free, nodes, words, ts), needle)
  {
    var h := Header(free, nodes, words) + [':'];
    JoinWithout(ts, needle);
    NotInWithout([], needle);
    NotInAcross(Join(ts), '.', [], needle);
    HeaderWithout(free, nodes, words, needle);
    NotInAcross(h, ' ', Join(ts) + ['.'] + [], needle);
    CoreSplit(free, nodes, words, ts);
  }

  lemma CoreSplit(free: nat, nodes: nat, words: string, ts: seq<Tally>)
    ensures Core(free, nodes, words, ts) == Header(free, nodes, words) + [':'] + [' '] + (Join(ts) + ['.'] + [])
  {
  }

  lemma CutIs(core: string, clause: string, needle: string)
    requires Word(needle) && !Contains(core, needle)
    ensures Cut(core, needle) == core
    ensures Cut(core + [' '] + (needle + clause), needle) == core + [' ']
  {
    IndexAfter(core, ' ', needle + clause, needle);
    assert (core + [' '] + (needle + clause))[..|core| + 1] == core + [' '];
  }

  lemma NodesAtIs(d: string, e: string, words: string, rest: string)
    requires d != [] && AllDigits(d) && e != [] && AllDigits(e) && words != [] && !IsDigit(words[0])
    ensures NodesAt(d + (['/'] + (e + (words + rest))), words) == Some(e)
  {
    var after := e + (words + rest);
    var s := d + (['/'] + after);
    DigitRunIs(d, ['/'] + after);
    assert s[|d| + 1..] == after;
    DigitRunIs(e, words + rest);
    assert after[|e|..] == words + rest && after[..|e|] == e;
  }

  lemma NodesIs(free: nat, nodes: nat, words: string, rest: string)
    requires words != [] && !IsDigit(words[0])
    ensures FindNodes(Header(free, nodes, words) + rest, words) == Some(Decimal(nodes))
  {
    var d, e := Decimal(free), Decimal(nodes);
    assert d + ['/'] + (e + words) + rest == d + (['/'] + (e + (words + rest)));
    NodesAtIs(d, e, words, rest);
  }

  lemma BodyIs(free: nat, nodes: nat, words: string, rest: string)
    requires ':' !in words
    ensures BodyOf(Header(free, nodes, words) + [':'] + rest) == rest
  {
    DigitsOnly(Decimal(free), ':');
    DigitsOnly(Decimal(nodes), ':');
    FindIs(Header(free, nodes, words), ':', rest);
  }

  lemma AtoiOfDecimal(n: nat)
    requires n <= MAX_INT
    ensures AtoiClamped(Decimal(n)) == n
  {
    ParseUndoesPrint(n);
  }

  /** Padding spaces, one final dot and a space after it are all that trimming removes. */
  lemma CleanIs(p: string, dot: string, tail: string)
    requires p != [] && !IsSpace(p[0]) && p[0] != '.' && !IsSpace(Last(p)) && Last(p) != '.'
    requires dot == [] || dot == ['.']
    requires tail == [] || tail == [' ']
    ensures CleanPart([' '] + (p + dot) + tail) == p
  {
    TrimIs(IsSpace, [' '], p + dot, tail);
    assert [] + p + dot == p + dot;
    TrimIs(IsDot, [], p, dot);
    assert [] + p + [] == p;
    TrimIs(IsSpace, [], p, []);
  }

  lemma TallyIs(t: Tally)
    requires Countable(t) && t.text != [] && !IsRegexpSpace(t.text[0]) && '\n' !in t.text
    ensures TallyOf(PrintTally(t)) == t
  {
    var d := Decimal(t.count);
    var p := PrintTally(t);
    assert p == d + ([' '] + t.text);
    DigitRunIs(d, [' '] + t.text);
    assert p[|d|..] == [' '] + t.text && p[..|d|] == d;
    TrimLeftIs(IsRegexpSpace, [' '], t.text);
    AtoiOfDecimal(t.count);
  }

  lemma PartRoundTrip(t: Tally, dot: string, tail: string)
    requires Countable(t) && WellFormed(t.text)
    requires dot == [] || dot == ['.']
    requires tail == [] || tail == [' ']
    ensures TallyFrom([' '] + (PrintTally(t) + dot) + tail) == [t]
  {
    var p := PrintTally(t);
    assert Last(p) == Last(t.text) && p[0] == Decimal(t.count)[0];
    CleanIs(p, dot, tail);
    TallyIs(t);
  }

  lemma EmptyPart(tail: string)
    requires tail == [] || tail == [' ']
    ensures TallyFrom([' '] + ([] + ['.']) + tail) == []
  {
    TrimIs(IsSpace, [' '], [] + ['.'], tail);
    assert [] + [] + ['.'] == ['.'];
    TrimIs(IsDot, [], [], ['.']);
    TrimIs(IsSpace, [], [], []);
  }

  /** The comma-separated parts of a printed body. */
  function Parts(ts: seq<Tally>, tail: string): seq<string> {
    if ts == [] then [[' '] + ([] + ['.']) + tail]
    else if |ts| == 1 then [[' '] + (PrintTally(ts[0]) + ['.']) + tail]
    else [[' '] + (PrintTally(ts[0]) + []) + []] + Parts(ts[1..], tail)
  }

  lemma PrintedWithoutComma(t: Tally)
    requires Countable(t) && ',' !in t.text
    ensures ',' !in PrintTally(t)
  {
    DigitsOnly(Decimal(t.count), ',');
  }

  lemma JoinedBody(p: string, j: string, tail: string)
    ensures [' '] + (p + [','] + ([] + [' '] + j) + ['.']) + tail
         == ([' '] + (p + []) + []) + [','] + ([' '] + (j + ['.']) + tail)
  {
  }

  lemma SplitStep(part: string, rest: string)
    requires ',' !in part
    ensures Split(part + [','] + rest, ',') == [part] + Split(rest, ',')
  {
    var s := part + [','] + rest;
    FindIs(part, ',', rest);
    assert s[..|part|] == part && s[|part| + 1..] == rest;
  }

  lemma {:induction false} SplitIsParts(ts: seq<Tally>, tail: string)
    requires forall t :: t in ts ==> Countable(t) && ',' !in t.text
    requires tail == [] || tail == [' ']
    ensures Split([' '] + (Join(ts) + ['.']) + tail, ',') == Parts(ts, tail)
  {
    FindNone([' '] + (Join(ts) + ['.']) + tail, ',');
    if ts != [] {
      assert ts[0] in ts;
      PrintedWithoutComma(ts[0]);
      if |ts| > 1 {
        JoinedBody(PrintTally(ts[0]), Join(ts[1..]), tail);
        SplitStep([' '] + (PrintTally(ts[0]) + []) + [], [' '] + (Join(ts[1..]) + ['.']) + tail);
        SplitIsParts(ts[1..], tail);
      }
    }
  }

  lemma OneTally(part: string)
    ensures FlatMap(TallyFrom, [part]) == TallyFrom(part)
  {
    assert Front([part]) == [] && FlatMap(TallyFrom, []) == [];
  }

  lemma FirstPart(part: string, rest: seq<string>)
    ensures FlatMap(TallyFrom, [part] + rest) == TallyFrom(part) + FlatMap(TallyFrom, rest)
  {
    OneTally(part);
    FlatMapConcat(TallyFrom, [part], rest);
  }

  lemma {:induction false} PartsRoundTrip(ts: seq<Tally>, tail: string)
    requires forall t :: t in ts ==> Countable(t) && WellFormed(t.text)
    requires tail == [] || tail == [' ']
    ensures FlatMap(TallyFrom, Parts(ts, tail)) == ts
  {
    if ts == [] {
      OneTally([' '] + ([] + ['.']) + tail);
      EmptyPart(tail);
    } else {
      assert ts[0] in ts;
      if |ts| == 1 {
        OneTally([' '] + (PrintTally(ts[0]) + ['.']) + tail);
        PartRoundTrip(ts[0], ['.'], tail);
      } else {
        PartsRoundTrip(ts[1..], tail);
        PartRoundTrip(ts[0], [], []);
        FirstPart([' '] + (PrintTally(ts[0]) + []) + [], Parts(ts[1..], tail));
        assert ts == [ts[0]] + ts[1..];
      }
    }
  }

  lemma LiteralFacts()
    ensures Word(PREEMPTION) && PREEMPTION[0] !in AVAILABLE && PREEMPTION[0] != ':'
    ensures AVAILABLE != [] && !IsDigit(AVAILABLE[0]) && ':' !in AVAILABLE
  {
  }

  lemma CoreIsHeaderAndBody(free: nat, nodes: nat, words: string, ts: seq<Tally>, tail: string)
    ensures Core(free, nodes, words, ts) + tail == Header(free, nodes, words) + ([':'] + ([' '] + (Join(ts) + ['.']) + tail))
    ensures Core(free, nodes, words, ts) + tail == Header(free, nodes, words) + [':'] + ([' '] + (Join(ts) + ['.']) + tail)
  {
  }

  lemma MessageCut(free: nat, nodes: nat, ts: seq<Tally>, preemption: Option<string>)
    requires forall t :: t in ts ==> Countable(t) && !Contains(t.text, PREEMPTION)
    ensures Cut(Message(free, nodes, ts, preemption), PREEMPTION) == Core(free, nodes, AVAILABLE, ts) + Remnant(preemption)
  {
    LiteralFacts();
    var core := Core(free, nodes, AVAILABLE, ts);
    CoreWithout(free, nodes, AVAILABLE, ts, PREEMPTION);
    CutIs(core, if preemption.Some? then preemption.value else [], PREEMPTION);
    assert core + [] == core;
  }

  /** Parsing a printed message gives back the node count and the reasons in order. */
  lemma ParseUndoesMessage(free: nat, nodes: nat, ts: seq<Tally>, preemption: Option<string>)
    requires nodes <= MAX_INT
    requires forall t :: t in ts ==> Countable(t) && WellFormed(t.text)
    ensures Parsed(Message(free, nodes, ts, preemption)) == SchedulerReport(nodes, Map(Categorized, ts))
  {
    LiteralFacts();
    MessageCut(free, nodes, ts, preemption);
    var tail := Remnant(preemption);
    var body := [' '] + (Join(ts) + ['.']) + tail;
    CoreIsHeaderAndBody(free, nodes, AVAILABLE, ts, tail);
    NodesIs(free, nodes, AVAILABLE, [':'] + body);
    BodyIs(free, nodes, AVAILABLE, body);
    AtoiOfDecimal(nodes);
    SplitIsParts(ts, tail);
    PartsRoundTrip(ts, tail);
  }

  // ---- The conditions on a reason's text are exactly the ones needed ----

  lemma CleanSlice(part: string) returns (lo: nat, hi: nat)
    ensures lo <= hi <= |part| && CleanPart(part) == part[lo..hi]
    ensures lo < hi ==> !IsSpace(part[hi - 1])
  {
    var s1 := Trim(IsSpace, part);
    var lo1, hi1 := TrimSlice(IsSpace, part);
    var lo2, hi2 := TrimSlice(IsDot, s1);
    var lo3, hi3 := TrimSlice(IsSpace, Trim(IsDot, s1));
    SliceOfSlice(part, lo1, hi1, lo2, hi2);
    SliceOfSlice(part, lo1 + lo2, lo1 + hi2, lo3, hi3);
    lo, hi := lo1 + lo2 + lo3, lo1 + lo2 + hi3;
    assert lo < hi ==> part[lo1 + lo2..lo1 + hi2][hi3 - 1] == part[hi - 1];
  }

  /** What a counted reason looks like, whatever the part it was read from. */
  lemma CountedText(clean: string) returns (from: nat)
    requires clean != [] && !IsSpace(Last(clean)) && TallyOf(clean).count > 0
    ensures DigitRun(clean) < from < |clean| && TallyOf(clean).text == clean[from..]
    ensures !IsRegexpSpace(clean[from]) && '\n' !in clean[from..]
  {
    var d := DigitRun(clean);
    assert LeadingCount(clean).Some?;
    var lo := TrimLeftSlice(IsRegexpSpace, clean[d..]);
    from := d + lo;
    assert clean[d..][lo..] == clean[from..];
    assert clean[d..][0] == clean[d];
    assert Last(clean) == clean[d..][|clean| - d - 1];
    assert lo < |clean[d..]|;
  }

  lemma TallyFacts(part: string, t: Tally)
    requires t in TallyFrom(part) && t.count > 0
    ensures t.text != [] && !IsRegexpSpace(t.text[0]) && !IsSpace(Last(t.text)) && '\n' !in t.text
    ensures exists lo, hi :: 0 <= lo <= hi <= |part| && t.text == part[lo..hi]
  {
    var clean := CleanPart(part);
    assert clean != [] && t == TallyOf(clean);
    var lo, hi := CleanSlice(part);
    var from := SliceText(part, clean, lo, hi);
    assert t.text == part[lo + from..hi];
  }

  lemma SliceText(part: string, clean: string, lo: nat, hi: nat) returns (from: nat)
    requires lo < hi <= |part| && clean == part[lo..hi] && !IsSpace(part[hi - 1]) && TallyOf(clean).count > 0
    ensures lo + from < hi && TallyOf(clean).text == part[lo + from..hi]
    ensures !IsRegexpSpace(part[lo + from]) && '\n' !in part[lo + from..hi]
  {
    assert Last(clean) == part[hi - 1];
    from := CountedText(clean);
    SliceOfSlice(part, lo, hi, from, hi - lo);
    assert clean[from..] == part[lo..hi][from..hi - lo];
  }

  lemma CutHasNoNeedle(m: string, needle: string)
    requires needle != [] && !(needle <= m)
    ensures !Contains(Cut(m, needle), needle)
  {
    IndexIsFirst(m, needle);
    match Index(m, needle) {
      case None =>
      case Some(i) =>
        assert m[0..] == m;
        ContainsIff(m[..i], needle);
        forall j | 0 <= j <= i ensures !(needle <= m[..i][j..]) {
          assert m[..i] == m[0..i];
          OccursInSlice(m, needle, 0, i, j);
          assert j == i ==> m[..i][j..] == [];
        }
    }
  }

  lemma TalliesFacts(c: string, t: Tally, needle: string)
    requires t in Tallies(c) && t.count > 0 && !Contains(c, needle)
    ensures t.text != [] && !IsRegexpSpace(t.text[0]) && !IsSpace(Last(t.text)) && '\n' !in t.text
    ensures ',' !in t.text && !Contains(t.text, needle)
  {
    var body := BodyOf(c);
    var parts := Split(body, ',');
    InFlatMap(TallyFrom, parts, t);
    var i :| 0 <= i < |parts| && t in TallyFrom(parts[i]);
    TallyInPart(c, body, parts[i], t, needle);
  }

  lemma TallyInPart(c: string, body: string, part: string, t: Tally, needle: string)
    requires body == BodyOf(c) && part in Split(body, ',') && t in TallyFrom(part) && t.count > 0 && !Contains(c, needle)
    ensures t.text != [] && !IsRegexpSpace(t.text[0]) && !IsSpace(Last(t.text)) && '\n' !in t.text
    ensures ',' !in t.text && !Contains(t.text, needle)
  {
    TallyFacts(part, t);
    SplitPieces(body, ',', part);
    assert body == c[|c| - |body|..|c|];
    PieceWithout(c, body, part, t.text, needle);
  }

  lemma PieceWithout(c: string, body: string, part: string, text: string, needle: string)
    requires |body| <= |c| && body == c[|c| - |body|..|c|] && !Contains(c, needle)
    requires exists lo, hi :: 0 <= lo <= hi <= |body| && part == body[lo..hi]
    requires exists lo, hi :: 0 <= lo <= hi <= |part| && text == part[lo..hi]
    ensures !Contains(text, needle)
  {
    var plo, phi :| 0 <= plo <= phi <= |body| && part == body[plo..phi];
    var lo, hi :| 0 <= lo <= hi <= |part| && text == part[lo..hi];
    NotInSlice(c, needle, |c| - |body|, |c|);
    NotInSlice(body, needle, plo, phi);
    NotInSlice(part, needle, lo, hi);
  }

  lemma DotTrimmed(p: string, dot: string, tail: string) returns (k: nat)
    requires p != [] && !IsSpace(p[0]) && p[0] != '.' && Last(p) == '.'
    requires dot == [] || dot == ['.']
    requires tail == [] || tail == [' ']
    ensures k < |p| && CleanPart([' '] + (p + dot) + tail) == p[..k]
  {
    var s1 := p + dot;
    TrimIs(IsSpace, [' '], s1, tail);
    var lo := TrimLeftSlice(IsDot, s1);
    assert s1[0] == p[0] && s1[|p| - 1] == '.' && s1[|s1| - 1] == '.';
    assert lo == 0 && s1[0..] == s1;
    var hi := TrimRightSlice(IsDot, s1);
    assert hi < |p|;
    var s2 := p[..hi];
    assert s1[..hi] == s2 && Trim(IsDot, s1) == s2;
    var lo' := TrimLeftSlice(IsSpace, s2);
    assert hi > 0 ==> s2[0] == p[0];
    assert lo' == 0 && s2[0..] == s2;
    k := TrimRightSlice(IsSpace, s2);
    assert s2[..k] == p[..k];
  }

  lemma ShortenedTally(d: string, rest: string)
    requires AllDigits(d) && rest != [] && rest[0] == ' ' && TallyOf(d + rest).count > 0
    ensures |TallyOf(d + rest).text| < |rest|
  {
    DigitRunIs(d, rest);
    assert (d + rest)[|d|..] == rest;
    var lo := TrimLeftSlice(IsRegexpSpace, rest);
  }

  lemma PrintedPrefix(d: string, text: string, k: nat)
    requires AllDigits(d) && k <= |d| + 1 + |text|
    ensures var p := d + ([' '] + text);
            && (k > |d| ==> p[..k] == d + p[|d|..k] && p[|d|..k][0] == ' ')
            && (k <= |d| ==> AllDigits(p[..k]))
  {
  }

  lemma DotIsLost(t: Tally, dot: string, tail: string)
    requires Countable(t) && t.text != [] && Last(t.text) == '.'
    requires dot == [] || dot == ['.']
    requires tail == [] || tail == [' ']
    ensures TallyFrom([' '] + (PrintTally(t) + dot) + tail) != [t]
  {
    var d, p := Decimal(t.count), PrintTally(t);
    assert p[0] == d[0] && Last(p) == Last(t.text) && p == d + ([' '] + t.text);
    var k := DotTrimmed(p, dot, tail);
    PrintedPrefix(d, t.text, k);
    if p[..k] != [] && TallyOf(p[..k]).count > 0 && k > |d| {
      ShortenedTally(d, p[|d|..k]);
    } else if p[..k] != [] && k <= |d| {
      assert p[..k] + [] == p[..k];
      DigitRunIs(p[..k], []);
    }
  }

  lemma {:induction false} AtMostOneTallyEach(parts: seq<string>)
    ensures |FlatMap(TallyFrom, parts)| <= |parts|
  {
    if parts != [] {
      AtMostOneTallyEach(Front(parts));
    }
  }

  lemma {:induction false} PartsLength(ts: seq<Tally>, tail: string)
    ensures |Parts(ts, tail)| == if ts == [] then 1 else |ts|
  {
    if |ts| > 1 {
      PartsLength(ts[1..], tail);
    }
  }

  /** If as many reasons come back as were printed, each part gave back its own reason, so none of
      them can have lost a final dot. */
  lemma {:induction false} PartsKeepDots(ts: seq<Tally>, tail: string)
    requires forall t :: t in ts ==> Countable(t) && t.text != []
    requires tail == [] || tail == [' ']
    requires FlatMap(TallyFrom, Parts(ts, tail)) == ts
    ensures forall t :: t in ts ==> Last(t.text) != '.'
  {
    if ts != [] {
      var t := ts[0];
      assert t in ts;
      if |ts| == 1 {
        OneTally([' '] + (PrintTally(t) + ['.']) + tail);
        if Last(t.text) == '.' {
          DotIsLost(t, ['.'], tail);
        }
      } else {
        var first, rest := [' '] + (PrintTally(t) + []) + [], Parts(ts[1..], tail);
        FirstPart(first, rest);
        AtMostOneTallyEach(rest);
        PartsLength(ts[1..], tail);
        assert ts == [t] + ts[1..];
        assert TallyFrom(first) == [t] && FlatMap(TallyFrom, rest) == ts[1..];
        if Last(t.text) == '.' {
          DotIsLost(t, [], []);
        }
        PartsKeepDots(ts[1..], tail);
      }
    }
  }

  lemma UncategorizedIs(ts: seq<Tally>, us: seq<Tally>)
    requires Map(Categorized, ts) == Map(Categorized, us)
    ensures ts == us
  {
    assert |ts| == |Map(Categorized, ts)| == |us|;
    forall i | 0 <= i < |ts| ensures ts[i] == us[i] {
      assert Map(Categorized, ts)[i] == Categorized(ts[i]) && Map(Categorized, us)[i] == Categorized(us[i]);
    }
  }

  lemma TalliesOfMessage(free: nat, nodes: nat, ts: seq<Tally>, preemption: Option<string>)
    requires forall t :: t in ts ==> Countable(t) && ',' !in t.text && !Contains(t.text, PREEMPTION)
    ensures Tallies(Cut(Message(free, nodes, ts, preemption), PREEMPTION)) == FlatMap(TallyFrom, Parts(ts, Remnant(preemption)))
  {
    var tail := Remnant(preemption);
    MessageCut(free, nodes, ts, preemption);
    CoreIsHeaderAndBody(free, nodes, AVAILABLE, ts, tail);
    LiteralFacts();
    BodyIs(free, nodes, AVAILABLE, [' '] + (Join(ts) + ['.']) + tail);
    SplitIsParts(ts, tail);
  }

  /** Whatever comes back through the message is well formed. */
  lemma SurvivorsAreWellFormed(free: nat, nodes: nat, ts: seq<Tally>, preemption: Option<string>)
    requires forall t :: t in ts ==> Countable(t)
    requires Tallies(Cut(Message(free, nodes, ts, preemption), PREEMPTION)) == ts
    ensures forall t :: t in ts ==> WellFormed(t.text)
  {
    var m := Message(free, nodes, ts, preemption);
    LiteralFacts();
    assert m[0] == Decimal(free)[0];
    CutHasNoNeedle(m, PREEMPTION);
    forall t | t in ts
      ensures t.text != [] && !IsRegexpSpace(t.text[0]) && !IsSpace(Last(t.text)) && '\n' !in t.text && ',' !in t.text && !Contains(t.text, PREEMPTION)
    {
      TalliesFacts(Cut(m, PREEMPTION), t, PREEMPTION);
    }
    TalliesOfMessage(free, nodes, ts, preemption);
    PartsKeepDots(ts, Remnant(preemption));
  }

  /** Counted reasons survive the message, all of them and in order, exactly when every text is well
      formed. */
  lemma RoundTripIff(free: nat, nodes: nat, ts: seq<Tally>, preemption: Option<string>)
    requires nodes <= MAX_INT && forall t :: t in ts ==> Countable(t)
    ensures Parsed(Message(free, nodes, ts, preemption)) == SchedulerReport(nodes, Map(Categorized, ts))
       <==> forall t :: t in ts ==> WellFormed(t.text)
  {
    if forall t :: t in ts ==> WellFormed(t.text) {
      ParseUndoesMessage(free, nodes, ts, preemption);
    }
    if Parsed(Message(free, nodes, ts, preemption)) == SchedulerReport(nodes, Map(Categorized, ts)) {
      UncategorizedIs(Tallies(Cut(Message(free, nodes, ts, preemption), PREEMPTION)), ts);
      SurvivorsAreWellFormed(free, nodes, ts, preemption);
    }
  }

  // ---- Choosing an identifier ----

  predicate HasCategory(rs: seq<Reason>, c: Category) {
    exists i :: 0 <= i < |rs| && rs[i].category == c
  }

  /** The identifier of a category that has one of its own. */
  function NamedID(c: Category): FindingID {
    match c
    case CPU => PodUnschedulableCPU
    case Memory => PodUnschedulableMemory
    case Taint => PodUntoleratedTaint
    case Affinity => PodUnschedulableAffinity
    case VolumeCategory => PodUnschedulableVolume
    case _ => NoID
  }

  /** A specific identifier is honest only when one named category explains every node. */
  function Dominant(rs: seq<Reason>): (id: Option<FindingID>)
    ensures id.Some? <==> exists c :: NamedID(c) != NoID && rs != [] && forall i :: 0 <= i < |rs| ==> rs[i].category == c
    ensures forall c :: id.Some? && HasCategory(rs, c) ==> id.value == NamedID(c)
  {
    if rs != [] && NamedID(rs[0].category) != NoID && forall i :: 0 <= i < |rs| ==> rs[i].category == rs[0].category
    then Some(NamedID(rs[0].category))
    else None
  }

  lemma SingletonSet(categories: set<Category>, a: Category, b: Category)
    requires |categories| == 1 && a in categories && b in categories
    ensures a == b
  {
    assert |categories - {a}| == 0;
    assert b !in categories - {a};
  }

  method DominantID(rs: seq<Reason>) returns (id: Option<FindingID>)
    ensures id == Dominant(rs)
  {
    var categories := {};
    for i := 0 to |rs|
      invariant categories == set j | 0 <= j < i :: rs[j].category
    {
      categories := categories + {rs[i].category};
    }
    assert rs != [] && (forall i :: 0 <= i < |rs| ==> rs[i].category == rs[0].category) ==> categories == {rs[0].category};
    if |categories| != 1 {
      return None;
    }
    var c :| c in categories;
    forall i | 0 <= i < |rs| ensures rs[i].category == c {
      SingletonSet(categories, rs[i].category, c);
    }
    id := if NamedID(c) != NoID then Some(NamedID(c)) else None;
  }

  // ---- Effective requests ----

  function CPUOf(c: ContainerSpec): int {
    c.cpu
  }

  function MemoryOf(c: ContainerSpec): int {
    c.memory
  }

  function IsSidecar(c: ContainerSpec): bool {
    c.alwaysRestart
  }

  function Larger(f: ContainerSpec -> int, start: int, s: seq<ContainerSpec>): int {
    if s == [] then start
    else if f(Last(s)) > Larger(f, start, Front(s)) then f(Last(s)) else Larger(f, start, Front(s))
  }

  /** What runs at the same time: regular containers and sidecars. */
  function RunningTogether(f: ContainerSpec -> int, p: PodObject): int {
    Sum(f, p.containers) + Sum(f, Filter(IsSidecar, p.initContainers))
  }

  function Effective(f: ContainerSpec -> int, p: PodObject): int {
    Larger(f, RunningTogether(f, p), p.initContainers)
  }

  lemma SidecarStep(f: ContainerSpec -> int, inits: seq<ContainerSpec>, i: nat)
    requires i < |inits|
    ensures Sum(f, Filter(IsSidecar, inits[..i + 1]))
         == Sum(f, Filter(IsSidecar, inits[..i])) + if inits[i].alwaysRestart then f(inits[i]) else 0
  {
    PrefixStep(inits, i);
    var before := Filter(IsSidecar, inits[..i]);
    assert Front(before + [inits[i]]) == before;
  }

  method AddContainers(cs: seq<ContainerSpec>) returns (cpu: int, memory: int)
    ensures cpu == Sum(CPUOf, cs) && memory == Sum(MemoryOf, cs)
  {
    cpu, memory := 0, 0;
    for i := 0 to |cs|
      invariant cpu == Sum(CPUOf, cs[..i]) && memory == Sum(MemoryOf, cs[..i])
    {
      PrefixStep(cs, i);
      cpu, memory := cpu + cs[i].cpu, memory + cs[i].memory;
    }
    assert cs[..|cs|] == cs;
  }

  method AddSidecars(inits: seq<ContainerSpec>, c0: int, m0: int) returns (cpu: int, memory: int)
    ensures cpu == c0 + Sum(CPUOf, Filter(IsSidecar, inits)) && memory == m0 + Sum(MemoryOf, Filter(IsSidecar, inits))
  {
    cpu, memory := c0, m0;
    for i := 0 to |inits|
      invariant cpu == c0 + Sum(CPUOf, Filter(IsSidecar, inits[..i]))
      invariant memory == m0 + Sum(MemoryOf, Filter(IsSidecar, inits[..i]))
    {
      SidecarStep(CPUOf, inits, i);
      SidecarStep(MemoryOf, inits, i);
      if inits[i].alwaysRestart {
        cpu, memory := cpu + inits[i].cpu, memory + inits[i].memory;
      }
    }
    assert inits[..|inits|] == inits;
  }

  /** What a container asks for counts towards what runs together, unless only sidecars do. */
  ghost function TotalCPU(cs: seq<ContainerSpec>, onlySidecars: bool): int {
    if cs == [] then 0
    else TotalCPU(Front(cs), onlySidecars) + if onlySidecars && !Last(cs).alwaysRestart then 0 else Last(cs).cpu
  }

  ghost function TotalMemory(cs: seq<ContainerSpec>, onlySidecars: bool): int {
    if cs == [] then 0
    else TotalMemory(Front(cs), onlySidecars) + if onlySidecars && !Last(cs).alwaysRestart then 0 else Last(cs).memory
  }

  /** Enough for what runs together and for every init container on its own, and no more. */
  ghost predicate PeakCPU(p: PodObject, cpu: int) {
    var together := TotalCPU(p.containers, false) + TotalCPU(p.initContainers, true);
    && cpu >= together && (forall c :: c in p.initContainers ==> cpu >= c.cpu)
    && (cpu == together || exists c :: c in p.initContainers && cpu == c.cpu)
  }

  ghost predicate PeakMemory(p: PodObject, memory: int) {
    var together := TotalMemory(p.containers, false) + TotalMemory(p.initContainers, true);
    && memory >= together && (forall c :: c in p.initContainers ==> memory >= c.memory)
    && (memory == together || exists c :: c in p.initContainers && memory == c.memory)
  }

  lemma {:induction false} TotalsAre(cs: seq<ContainerSpec>)
    ensures Sum(CPUOf, cs) == TotalCPU(cs, false) && Sum(CPUOf, Filter(IsSidecar, cs)) == TotalCPU(cs, true)
    ensures Sum(MemoryOf, cs) == TotalMemory(cs, false) && Sum(MemoryOf, Filter(IsSidecar, cs)) == TotalMemory(cs, true)
  {
    if cs != [] {
      TotalsAre(Front(cs));
      var before := Filter(IsSidecar, Front(cs));
      assert Front(before + [Last(cs)]) == before;
    }
  }

  lemma EffectiveMeans(p: PodObject)
    ensures PeakCPU(p, Effective(CPUOf, p)) && PeakMemory(p, Effective(MemoryOf, p))
  {
    TotalsAre(p.containers);
    TotalsAre(p.initContainers);
    EffectiveIsMax(CPUOf, p);
    EffectiveIsMax(MemoryOf, p);
  }

  method EffectiveRequests(p: PodObject) returns (cpu: int, memory: int)
    ensures cpu == Effective(CPUOf, p) && memory == Effective(MemoryOf, p)
    ensures PeakCPU(p, cpu) && PeakMemory(p, memory)
  {
    EffectiveMeans(p);
    cpu, memory := AddContainers(p.containers);
    cpu, memory := AddSidecars(p.initContainers, cpu, memory);
    var inits := p.initContainers;
    ghost var c1, m1 := cpu, memory;
    for i := 0 to |inits|
      invariant cpu == Larger(CPUOf, c1, inits[..i]) && memory == Larger(MemoryOf, m1, inits[..i])
    {
      PrefixStep(inits, i);
      if inits[i].cpu > cpu {
        cpu := inits[i].cpu;
      }
      if inits[i].memory > memory {
        memory := inits[i].memory;
      }
    }
    assert inits[..|inits|] == inits;
  }

  lemma {:induction false} LargerIsMax(f: ContainerSpec -> int, start: int, s: seq<ContainerSpec>)
    ensures Larger(f, start, s) >= start && forall c :: c in s ==> Larger(f, start, s) >= f(c)
    ensures Larger(f, start, s) == start || exists c :: c in s && Larger(f, start, s) == f(c)
  {
    if s != [] {
      Snoc(s);
      LargerIsMax(f, start, Front(s));
      assert Last(s) in s && forall c :: c in Front(s) ==> c in s;
    }
  }

  /** The maximum of what runs together and the largest single init container. */
  lemma EffectiveIsMax(f: ContainerSpec -> int, p: PodObject)
    ensures Effective(f, p) >= RunningTogether(f, p) && forall c :: c in p.initContainers ==> Effective(f, p) >= f(c)
    ensures Effective(f, p) == RunningTogether(f, p) || exists c :: c in p.initContainers && Effective(f, p) == f(c)
  {
    LargerIsMax(f, RunningTogether(f, p), p.initContainers);
  }

  /** The order of either container list does not matter. */
  lemma EffectivePermutation(f: ContainerSpec -> int, p: PodObject, q: PodObject)
    requires multiset(p.containers) == multiset(q.containers) && multiset(p.initContainers) == multiset(q.initContainers)
    ensures Effective(f, p) == Effective(f, q)
  {
    SumPermutation(f, p.containers, q.containers);
    FilterPermutation(IsSidecar, p.initContainers, q.initContainers);
    SumPermutation(f, Filter(IsSidecar, p.initContainers), Filter(IsSidecar, q.initContainers));
    EffectiveIsMax(f, p);
    EffectiveIsMax(f, q);
    assert forall c :: c in p.initContainers <==> c in multiset(p.initContainers);
    assert forall c :: c in q.initContainers <==> c in multiset(q.initContainers);
  }
}
