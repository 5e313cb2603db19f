/** The text renderer (internal/output/text.go). What is printed is specified as lines of spans, laid
    out on plain text; colour only decides how a span is shown. */
module Rendering {
  import opened Sequences
  import opened Text
  import opened Model
  import opened Reports
  import opened Layout
  import opened Colour
  import Engine

  // ---- Spans ----

  datatype Ink = InkBold | InkDim | InkRed | InkGreen | InkYellow | InkCyan | InkMagenta | InkBoldRed | InkBoldYellow | InkBoldBlue

  function Code(ink: Ink): string {
    match ink
    case InkBold => Sgr(BOLD)
    case InkDim => Sgr(DIM)
    case InkRed => Sgr(RED)
    case InkGreen => Sgr(GREEN)
    case InkYellow => Sgr(YELLOW)
    case InkCyan => Sgr(CYAN)
    case InkMagenta => Sgr(MAGENTA)
    case InkBoldRed => Sgr(BOLD) + Sgr(RED)
    case InkBoldYellow => Sgr(BOLD) + Sgr(YELLOW)
    case InkBoldBlue => Sgr(BOLD) + Sgr(BLUE)
  }

  datatype Span = Plain(text: string) | Painted(ink: Ink, text: string) | Valued(text: string) | Noted(text: string)

  type Line = seq<Span>

  function ShowSpan(st: Style, s: Span): string {
    match s
    case Plain(text) => text
    case Painted(ink, text) => Paint(st, Code(ink), text)
    case Valued(text) => Value(st, text)
    case Noted(text) => Note(st, text)
  }

  function Show(st: Style, line: Line): string {
    if line == [] then "" else Show(st, Front(line)) + ShowSpan(st, Last(line))
  }

  /** Every line ends in a newline. */
  function Printed(st: Style, lines: seq<Line>): string {
    if lines == [] then "" else Printed(st, Front(lines)) + (Show(st, Last(lines)) + "\n")
  }

  lemma Show1(st: Style, a: Span)
    ensures Show(st, [a]) == ShowSpan(st, a)
  {
    assert Front([a]) == [];
  }

  lemma Show2(st: Style, a: Span, b: Span)
    ensures Show(st, [a, b]) == ShowSpan(st, a) + ShowSpan(st, b)
  {
    Show1(st, a);
    assert Front([a, b]) == [a];
  }

  lemma Show3(st: Style, a: Span, b: Span, c: Span)
    ensures Show(st, [a, b, c]) == ShowSpan(st, a) + ShowSpan(st, b) + ShowSpan(st, c)
  {
    Show2(st, a, b);
    assert Front([a, b, c]) == [a, b];
  }

  lemma Show4(st: Style, a: Span, b: Span, c: Span, d: Span)
    ensures Show(st, [a, b, c, d]) == ShowSpan(st, a) + ShowSpan(st, b) + ShowSpan(st, c) + ShowSpan(st, d)
  {
    Show3(st, a, b, c);
    assert Front([a, b, c, d]) == [a, b, c];
  }

  // ---- Colour is erasable ----

  ghost predicate CleanLine(line: Line) {
    forall i :: 0 <= i < |line| ==> ESC !in line[i].text
  }

  ghost predicate Clean(lines: seq<Line>) {
    forall i :: 0 <= i < |lines| ==> CleanLine(lines[i])
  }

  lemma CodeIsCode(ink: Ink)
    ensures IsCode(Code(ink))
  {
    SgrIsCode(BOLD);
    SgrIsCode(DIM);
    SgrIsCode(RED);
    SgrIsCode(GREEN);
    SgrIsCode(YELLOW);
    SgrIsCode(CYAN);
    SgrIsCode(MAGENTA);
    SgrIsCode(BLUE);
    CodesConcat(Sgr(BOLD), Sgr(RED));
    CodesConcat(Sgr(BOLD), Sgr(YELLOW));
    CodesConcat(Sgr(BOLD), Sgr(BLUE));
  }

  lemma SpanErases(st: Style, s: Span)
    requires ESC !in s.text
    ensures Erases(ShowSpan(st, s), s.text)
  {
    match s {
      case Plain(text) => PlainErases(text);
      case Painted(ink, text) =>
        CodeIsCode(ink);
        PaintErases(st, Code(ink), text);
      case Valued(text) => ValueErases(st, text);
      case Noted(text) => ValueErases(st, text);
    }
  }

  lemma SpanPlain(st: Style, s: Span)
    requires !st.color
    ensures ShowSpan(st, s) == s.text
  {
  }

  lemma {:induction false} LineErases(on: Style, off: Style, line: Line)
    requires CleanLine(line) && !off.color
    ensures Erases(Show(on, line), Show(off, line))
  {
    if line == [] {
      PlainErases("");
    } else {
      assert forall i :: 0 <= i < |line| - 1 ==> Front(line)[i] == line[i];
      LineErases(on, off, Front(line));
      SpanErases(on, Last(line));
      SpanPlain(off, Last(line));
      ConcatErases(Show(on, Front(line)), Show(off, Front(line)), ShowSpan(on, Last(line)), Last(line).text);
    }
  }

  lemma {:induction false} PrintedErases(on: Style, off: Style, lines: seq<Line>)
    requires Clean(lines) && !off.color
    ensures Erases(Printed(on, lines), Printed(off, lines))
  {
    if lines == [] {
      PlainErases("");
    } else {
      assert forall i :: 0 <= i < |lines| - 1 ==> Front(lines)[i] == lines[i];
      PrintedErases(on, off, Front(lines));
      LineErases(on, off, Last(lines));
      PlainErases("\n");
      ConcatErases(Show(on, Last(lines)), Show(off, Last(lines)), "\n", "\n");
      ConcatErases(Printed(on, Front(lines)), Printed(off, Front(lines)), Show(on, Last(lines)) + "\n", Show(off, Last(lines)) + "\n");
    }
  }

  // ---- The document ----

  /** What the layout depends on; colour is not part of it. */
  datatype Options = Options(unicode: bool, width: int, verbose: bool, idText: FindingID -> string)

  /** The renderer's settings. `idText` spells out the identifiers. */
  datatype TextOptions = TextOptions(style: Style, verbose: bool, idText: FindingID -> string) {
    function Plan(): Options {
      Options(style.unicode, style.width, verbose, idText)
    }
  }

  function OK(o: Options): string {
    if o.unicode then "\U{2713}" else "[ok]"
  }

  function Warn(o: Options): string {
    if o.unicode then "!" else "[!]"
  }

  function Fail(o: Options): string {
    if o.unicode then "\U{2717}" else "[x]"
  }

  function BulletMark(o: Options): string {
    if o.unicode then "\U{2022}" else "-"
  }

  function Branch(o: Options): string {
    if o.unicode then "\U{2514}\U{2500}" else "\\_"
  }

  function Spaces(n: int): string {
    if n <= 0 then "" else Spaces(n - 1) + " "
  }

  /** The spaces that fill a column of this width behind a text. */
  function Fill(text: string, width: int): string {
    Spaces(width - |text|)
  }

  function Bare(text: string): Line {
    [Plain(text)]
  }

  function Indented(indent: string): string -> Line {
    (text: string) => Bare(indent + text)
  }

  /** What is left of the width beside `used` columns. */
  function Room(o: Options, used: int): int {
    o.width - used
  }

  function Paragraph(o: Options, text: string, indent: string): seq<Line> {
    Map(Indented(indent), Wrapped(text, Room(o, |indent|)))
  }

  function Headline(o: Options, r: Contents): Line {
    match r.status
    case Healthy => [Painted(InkGreen, OK(o)), Plain(" "), Painted(InkBold, r.headline)]
    case Unhealthy => [Painted(InkRed, Fail(o)), Plain(" "), Painted(InkBold, r.headline)]
    case _ => [Painted(InkYellow, Warn(o)), Plain(" "), Painted(InkBold, r.headline)]
  }

  datatype Heading = Consequence | AlsoDetected | RootCause | WarningHeading | Observation

  /** `shown` are the identifiers printed before this finding. */
  function HeadingOf(d: Diagnosis, first: bool, shown: set<FindingID>): Heading {
    if d.causedBy != NoID && d.causedBy in shown then Consequence
    else if !first then AlsoDetected
    else if d.severity == Critical then RootCause
    else if d.severity == Warning then WarningHeading
    else Observation
  }

  function HeadingText(h: Heading): string {
    match h
    case Consequence => "CONSEQUENCE"
    case AlsoDetected => "ALSO DETECTED"
    case RootCause => "ROOT CAUSE"
    case WarningHeading => "WARNING"
    case Observation => "OBSERVATION"
  }

  function Tone(s: Severity): Ink {
    if s == Critical then InkBoldRed else if s == Warning then InkBoldYellow else InkBoldBlue
  }

  function Summary(d: Diagnosis): string {
    if d.aggregate.Some? && d.aggregate.value.count > 1
    then d.summary + " (" + DecimalInt(d.aggregate.value.count) + " of " + DecimalInt(d.aggregate.value.total) + " Pods)"
    else d.summary
  }

  function Explaining(o: Options, d: Diagnosis): seq<Line> {
    if d.explanation == "" then [] else [Bare("")] + Paragraph(o, d.explanation, "  ")
  }

  // Evidence: fields and values aligned in a column, at most eight unless verbose.

  function Label(e: Evidence): string {
    if e.field != "" then e.field else e.source
  }

  function LabelWidth(es: seq<Evidence>): nat {
    if es == [] then 0
    else if |Label(Last(es))| > LabelWidth(Front(es)) then |Label(Last(es))| else LabelWidth(Front(es))
  }

  function EvidenceLine(e: Evidence, width: int): Line {
    if e.value != "" then [Plain("    "), Painted(InkDim, Label(e)), Plain(Fill(Label(e), width) + "  "), Valued(e.value)]
    else [Plain("    "), Painted(InkDim, Label(e))]
  }

  function EvidenceItem(o: Options, width: int): Evidence -> seq<Line> {
    (e: Evidence) => [EvidenceLine(e, width)] + Paragraph(o, e.message, "      ")
  }

  function ShownEvidence(o: Options, es: seq<Evidence>): seq<Evidence> {
    if !o.verbose && |es| > 8 then es[..8] else es
  }

  function MoreLine(n: int): Line {
    [Plain("    "), Painted(InkDim, "... " + DecimalInt(n) + " more (use --verbose)")]
  }

  function EvidenceLines(o: Options, es: seq<Evidence>): seq<Line> {
    var shown := ShownEvidence(o, es);
    FlatMap(EvidenceItem(o, LabelWidth(shown)), shown) + if |shown| < |es| then [MoreLine(|es| - |shown|)] else []
  }

  function EvidencePart(o: Options, es: seq<Evidence>): seq<Line> {
    if es == [] then [] else [Bare(""), Bare("  Evidence")] + EvidenceLines(o, es)
  }

  // Causes and suggestions.

  function BulletLine(first: string, hanging: string, lines: seq<string>, i: int): Line
    requires 0 <= i < |lines|
  {
    Bare((if i == 0 then first else hanging) + lines[i])
  }

  function BulletLines(first: string, hanging: string, lines: seq<string>): seq<Line> {
    seq(|lines|, i requires 0 <= i < |lines| => BulletLine(first, hanging, lines, i))
  }

  /** The bullet and the text under it; continuation lines hang under the text. */
  function OneBullet(o: Options, text: string): seq<Line> {
    var marker := BulletMark(o) + " ";
    var hanging := "    " + Spaces(|marker|);
    BulletLines("    " + marker, hanging, Wrapped(text, Room(o, |hanging|)))
  }

  function Bullet(o: Options): string -> seq<Line> {
    (text: string) => OneBullet(o, text)
  }

  function CausesPart(o: Options, causes: seq<string>): seq<Line> {
    if causes == [] then [] else [Bare(""), Bare("  Possible causes")] + FlatMap(Bullet(o), causes)
  }

  function CommandLine(cmd: string): Line {
    [Plain("      "), Painted(InkCyan, cmd)]
  }

  function SuggestionLines(o: Options, s: Suggestion): seq<Line> {
    Paragraph(o, s.description, "    ") + Map(CommandLine, s.commands)
  }

  /** Suggestions are separated by blank lines. */
  function AllSuggestions(o: Options, ss: seq<Suggestion>): seq<Line> {
    if ss == [] then []
    else AllSuggestions(o, Front(ss)) + (if |ss| > 1 then [Bare("")] else []) + SuggestionLines(o, Last(ss))
  }

  function SuggestionsPart(o: Options, ss: seq<Suggestion>): seq<Line> {
    if ss == [] then []
    else [Bare(""), Bare(if |ss| == 1 then "  Suggested action" else "  Suggested actions")] + AllSuggestions(o, ss)
  }

  function SeverityText(s: Severity): string {
    match s
    case Critical => "critical"
    case Warning => "warning"
    case Info => "info"
    case OtherSeverity(text) => text
  }

  function ConfidenceText(c: Confidence): string {
    match c
    case Certain => "certain"
    case Likely => "likely"
    case Possible => "possible"
    case OtherConfidence(text) => text
  }

  function RuleLine(o: Options, d: Diagnosis): Line {
    [Plain("  "), Painted(InkDim, "rule "), Painted(InkMagenta, o.idText(d.id)),
     Painted(InkDim, ", confidence " + ConfidenceText(d.confidence) + ", severity " + SeverityText(d.severity))]
  }

  function RulePart(o: Options, d: Diagnosis): seq<Line> {
    if o.verbose then [Bare(""), RuleLine(o, d)] else []
  }

  function FindingLines(o: Options, d: Diagnosis, h: Heading): seq<Line> {
    [[Painted(Tone(d.severity), HeadingText(h))]] + Paragraph(o, Summary(d), "  ") + Explaining(o, d)
    + EvidencePart(o, d.evidence) + CausesPart(o, d.possibleCauses) + SuggestionsPart(o, d.suggestions) + RulePart(o, d)
  }

  function IDs(ds: seq<Diagnosis>): set<FindingID> {
    set i | 0 <= i < |ds| :: ds[i].id
  }

  function AllFindings(o: Options, ds: seq<Diagnosis>): seq<Line> {
    if ds == [] then []
    else AllFindings(o, Front(ds)) + [Bare("")] + FindingLines(o, Last(ds), HeadingOf(Last(ds), |ds| == 1, IDs(Front(ds))))
  }

  // Overview sections: keys in one column, values in another when notes follow.

  function KeyWidth(items: seq<Item>): nat {
    if items == [] then 0
    else if |Last(items).key| > KeyWidth(Front(items)) then |Last(items).key| else KeyWidth(Front(items))
  }

  function ValueWidth(items: seq<Item>): nat {
    if items == [] then 0
    else if Last(items).note != "" && |Last(items).value| > ValueWidth(Front(items)) then |Last(items).value|
    else ValueWidth(Front(items))
  }

  function ItemLine(kw: int, vw: int): Item -> Line {
    (i: Item) => OneItem(kw, vw, i)
  }

  function OneItem(kw: int, vw: int, i: Item): Line {
    var left := Plain("  " + i.key + Fill(i.key, kw) + "  ");
    if i.note == "" then [left, Valued(i.value)]
    else [left, Valued(i.value), Plain(Fill(i.value, vw) + "  "), Noted(i.note)]
  }

  function TreeLine(o: Options, tree: seq<string>, i: int): Line
    requires 0 <= i < |tree|
  {
    if i == 0 then Bare("  " + tree[0]) else Bare("  " + Spaces(3 * (i - 1)) + Branch(o) + " " + tree[i])
  }

  function TreeLines(o: Options, tree: seq<string>): seq<Line> {
    seq(|tree|, i requires 0 <= i < |tree| => TreeLine(o, tree, i))
  }

  function SectionLines(o: Options): Section -> seq<Line> {
    (s: Section) => [Bare("")] + OneSection(o, s)
  }

  function OneSection(o: Options, s: Section): seq<Line> {
    [[Painted(InkBold, s.title)]] + Map(ItemLine(KeyWidth(s.items), ValueWidth(s.items)), s.items) + TreeLines(o, s.tree)
  }

  // What could not be read.

  function Detail(d: Degradation): string {
    if Trim(IsSpace, d.detail) != "" then d.detail else d.reason
  }

  function OneDegradation(o: Options, d: Degradation): seq<Line> {
    [Bare("")] + Paragraph(o, "KubeWhy could not read " + d.resource + " in this cluster.", "  ")
    + (if d.requiredFor == "" then [] else [Bare(""), Bare("  Required for")] + Paragraph(o, d.requiredFor, "    "))
    + ([Bare(""), Bare("  Kubernetes returned")] + Paragraph(o, Detail(d), "    "))
  }

  function DegradationLines(o: Options): Degradation -> seq<Line> {
    (d: Degradation) => OneDegradation(o, d)
  }

  function Incomplete(o: Options, ds: seq<Degradation>): seq<Line> {
    if ds == [] then []
    else [Bare(""), [Painted(InkYellow, Warn(o)), Plain(" "), Painted(InkBold, "Diagnosis is incomplete")]] + FlatMap(DegradationLines(o), ds)
  }

  function Reassurance(r: Contents): seq<Line> {
    if r.status == Healthy then [Bare(""), Bare("No obvious Kubernetes-level issue detected.")] else []
  }

  function InspectedPart(o: Options, items: seq<string>): seq<Line> {
    if !o.verbose || items == [] then [] else [Bare(""), [Painted(InkBold, "Inspected")]] + Map(Indented("  "), items)
  }

  function Document(o: Options, r: Contents): seq<Line> {
    [Headline(o, r)] + AllFindings(o, r.diagnoses) + FlatMap(SectionLines(o), r.overview)
    + Incomplete(o, r.degradations) + Reassurance(r) + InspectedPart(o, r.inspected)
  }

  function Rendered(t: TextOptions, r: Contents): string {
    Printed(t.style, Document(t.Plan(), r))
  }

  // ---- Headings ----

  /** The finding at position `i` is headed CONSEQUENCE exactly when its cause was printed before it. */
  lemma HeadedConsequenceIff(ds: seq<Diagnosis>, i: nat)
    requires i < |ds|
    ensures HeadingOf(ds[i], i == 0, IDs(ds[..i])) == Consequence <==>
              ds[i].causedBy != NoID && exists j :: 0 <= j < i && ds[j].id == ds[i].causedBy
  {
    var before := ds[..i];
    assert forall j :: 0 <= j < i ==> before[j] == ds[j];
    if exists j :: 0 <= j < i && ds[j].id == ds[i].causedBy {
      var j :| 0 <= j < i && ds[j].id == ds[i].causedBy;
      assert before[j].id in IDs(before);
    }
  }

  /** In a prioritised report, a consequence that causes nothing itself is headed so exactly when one
      of the findings it blames is at least as serious. */
  lemma ConsequenceHeading(ds: seq<Diagnosis>, j: nat)
    requires Engine.KnownSeverities(ds) && j < |Engine.Prioritized(ds)|
    requires Engine.Prioritized(ds)[j].causedBy != NoID && Engine.Prioritized(ds)[j].id !in Engine.CausesOf(ds)
    ensures HeadingOf(Engine.Prioritized(ds)[j], j == 0, IDs(Engine.Prioritized(ds)[..j])) == Consequence
       <==> exists i :: 0 <= i < |Engine.Prioritized(ds)| && Engine.Prioritized(ds)[i].id == Engine.Prioritized(ds)[j].causedBy
                     && SeverityRank(Engine.Prioritized(ds)[i].severity) <= SeverityRank(Engine.Prioritized(ds)[j].severity)
  {
    var r := Engine.Prioritized(ds);
    HeadedConsequenceIff(r, j);
    forall i | 0 <= i < |r| && r[i].id == r[j].causedBy
      ensures i < j <==> SeverityRank(r[i].severity) <= SeverityRank(r[j].severity)
    {
      Engine.CausePrecedesConsequenceIff(ds, i, j);
    }
  }

  /** A finding of the list that blames another and causes nothing itself is headed CONSEQUENCE exactly
      when one of the findings it blames is at least as serious. */
  ghost predicate ConsequencesHeaded(ds: seq<Diagnosis>) {
    forall j :: 0 <= j < |ds| && ds[j].causedBy != NoID && ds[j].id !in Engine.CausesOf(ds) ==>
      (HeadingOf(ds[j], j == 0, IDs(ds[..j])) == Consequence
       <==> exists i :: 0 <= i < |ds| && ds[i].id == ds[j].causedBy && SeverityRank(ds[i].severity) <= SeverityRank(ds[j].severity))
  }

  lemma ReportHeadings(ds: seq<Diagnosis>)
    requires Engine.InOrder(ds)
    ensures ConsequencesHeaded(ds)
  {
    forall j | 0 <= j < |ds| && ds[j].causedBy != NoID && ds[j].id !in Engine.CausesOf(ds)
      ensures HeadingOf(ds[j], j == 0, IDs(ds[..j])) == Consequence
         <==> exists i :: 0 <= i < |ds| && ds[i].id == ds[j].causedBy && SeverityRank(ds[i].severity) <= SeverityRank(ds[j].severity)
    {
      ConsequenceHeading(ds, j);
    }
  }
}
