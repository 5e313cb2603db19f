/** What a rendered report says: a list of texts without layout, and the theorem that the document's
    words are exactly theirs, in order. */
module Outline {
  import opened Sequences
  import opened Text
  import opened Model
  import opened Reports
  import opened Layout
  import opened Colour
  import opened Rendering

  // ---- Words across lines ----

  /** The text of a line, whatever its colours are. */
  function Said(line: Line): string {
    if line == [] then "" else Said(Front(line)) + Last(line).text
  }

  function WordsOf(line: Line): seq<string> {
    Fields(Said(line))
  }

  function WordsIn(lines: seq<Line>): seq<string> {
    FlatMap(WordsOf, lines)
  }

  function WordsOfAll(texts: seq<string>): seq<string> {
    FlatMap(Fields, texts)
  }

  lemma {:induction false} ShownIsSaid(off: Style, line: Line)
    requires !off.color
    ensures Show(off, line) == Said(line)
  {
    if line != [] {
      ShownIsSaid(off, Front(line));
      SpanPlain(off, Last(line));
    }
  }

  ghost predicate Blank(s: string) {
    forall i :: 0 <= i < |s| ==> IsSpace(s[i])
  }

  lemma {:induction false} SkipSpaceConcat(a: string, b: string)
    ensures SkipSpace(a + b) == if SkipSpace(a) == [] then SkipSpace(b) else SkipSpace(a) + b
  {
    if a == [] {
      assert a + b == b;
    } else if IsSpace(a[0]) {
      assert (a + b)[1..] == a[1..] + b;
      SkipSpaceConcat(a[1..], b);
    } else {
      assert (a + b)[0] == a[0];
    }
  }

  lemma Regrouped<T>(a: seq<T>, b: seq<T>, c: seq<T>)
    ensures a + b + c == a + (b + c)
  {
  }

  lemma StartsBlank(a: string, b: string)
    requires (a == [] || IsSpace(a[0])) && (b == [] || IsSpace(b[0]))
    ensures a + b == [] || IsSpace((a + b)[0])
  {
  }

  lemma SpaceThen(c: char, s: string)
    requires IsSpace(c)
    ensures Fields([c] + s) == Fields(s)
  {
    assert ([c] + s)[1..] == s;
  }

  lemma WordThen(w: string, rest: string, b: string)
    requires IsWord(w) && (rest == [] || IsSpace(rest[0])) && (b == [] || IsSpace(b[0]))
    requires Fields(rest + b) == Fields(rest) + Fields(b)
    ensures Fields(w + rest + b) == Fields(w + rest) + Fields(b)
  {
    StartsBlank(rest, b);
    FieldsStep(w, rest);
    FieldsStep(w, rest + b);
    Regrouped(w, rest, b);
    Regrouped([w], Fields(rest), Fields(b));
  }

  lemma SplitWord(a: string) returns (w: string, rest: string)
    requires a != [] && !IsSpace(a[0])
    ensures a == w + rest && IsWord(w) && (rest == [] || IsSpace(rest[0])) && |rest| < |a|
  {
    w, rest := a[..WordRun(a)], a[WordRun(a)..];
  }

  lemma SplitSpace(a: string) returns (c: char, tail: string)
    requires a != [] && IsSpace(a[0])
    ensures a == [c] + tail && IsSpace(c) && |tail| < |a|
  {
    c, tail := a[0], a[1..];
  }

  /** Words do not run together where white space begins. */
  lemma {:induction false} FieldsBefore(a: string, b: string)
    requires b == [] || IsSpace(b[0])
    ensures Fields(a + b) == Fields(a) + Fields(b)
    decreases |a|
  {
    if a == [] {
      FieldsOfNothing();
      assert a + b == b;
    } else if IsSpace(a[0]) {
      var c, tail := SplitSpace(a);
      FieldsBefore(tail, b);
      SpaceBefore(c, tail, b);
    } else {
      var w, rest := SplitWord(a);
      FieldsBefore(rest, b);
      WordThen(w, rest, b);
    }
  }

  lemma SpaceBefore(c: char, tail: string, b: string)
    requires IsSpace(c) && Fields(tail + b) == Fields(tail) + Fields(b)
    ensures Fields([c] + tail + b) == Fields([c] + tail) + Fields(b)
  {
    SpaceThen(c, tail);
    SpaceThen(c, tail + b);
    Regrouped([c], tail, b);
  }

  lemma FieldsOfNothing()
    ensures Fields([]) == []
  {
    assert SkipSpace([]) == [];
  }

  lemma FieldsOfBlank(s: string)
    requires Blank(s)
    ensures Fields(s) == []
  {
    SkipAll(s);
  }

  lemma {:induction false} SkipAll(s: string)
    requires Blank(s)
    ensures SkipSpace(s) == []
  {
    if s != [] {
      SkipAll(s[1..]);
    }
  }

  /** Texts with white space between them keep their words. */
  lemma FieldsAround(a: string, gap: string, b: string)
    requires gap != [] && Blank(gap)
    ensures Fields(a + gap + b) == Fields(a) + Fields(b)
  {
    assert a + gap + b == a + (gap + b);
    FieldsBefore(a, gap + b);
    FieldsAfter(gap, b);
  }

  lemma FieldsAfter(gap: string, b: string)
    requires Blank(gap)
    ensures Fields(gap + b) == Fields(b)
  {
    SkipAll(gap);
    SkipSpaceConcat(gap, b);
  }

  lemma {:induction false} SpacesAreBlank(n: int)
    ensures Blank(Spaces(n))
    decreases n
  {
    if n > 0 {
      SpacesAreBlank(n - 1);
    }
  }

  lemma WordsConcat(a: seq<Line>, b: seq<Line>)
    ensures WordsIn(a + b) == WordsIn(a) + WordsIn(b)
  {
    FlatMapConcat(WordsOf, a, b);
  }

  lemma TextsConcat(a: seq<string>, b: seq<string>)
    ensures WordsOfAll(a + b) == WordsOfAll(a) + WordsOfAll(b)
  {
    FlatMapConcat(Fields, a, b);
  }

  lemma OneLine(line: Line)
    ensures WordsIn([line]) == WordsOf(line)
  {
    assert Front([line]) == [] && WordsIn([]) == [];
  }

  lemma OneText(text: string)
    ensures WordsOfAll([text]) == Fields(text)
  {
    assert Front([text]) == [] && WordsOfAll([]) == [];
  }

  lemma TwoTexts(a: string, b: string)
    ensures WordsOfAll([a, b]) == Fields(a) + Fields(b)
  {
    OneText(a);
    assert Front([a, b]) == [a];
  }

  lemma ThreeTexts(a: string, b: string, c: string)
    ensures WordsOfAll([a, b, c]) == Fields(a) + Fields(b) + Fields(c)
  {
    TwoTexts(a, b);
    assert Front([a, b, c]) == [a, b];
  }

  lemma Said1(a: Span)
    ensures Said([a]) == a.text
  {
    assert Front([a]) == [];
  }

  lemma Said2(a: Span, b: Span)
    ensures Said([a, b]) == a.text + b.text
  {
    Said1(a);
    assert Front([a, b]) == [a];
  }

  lemma Said3(a: Span, b: Span, c: Span)
    ensures Said([a, b, c]) == a.text + b.text + c.text
  {
    Said2(a, b);
    assert Front([a, b, c]) == [a, b];
  }

  lemma Said4(a: Span, b: Span, c: Span, d: Span)
    ensures Said([a, b, c, d]) == a.text + b.text + c.text + d.text
  {
    Said3(a, b, c);
    assert Front([a, b, c, d]) == [a, b, c];
  }

  lemma BareWords(text: string)
    ensures WordsIn([Bare(text)]) == Fields(text)
  {
    OneLine(Bare(text));
    Said1(Plain(text));
  }

  lemma BlankLine()
    ensures WordsIn([Bare("")]) == []
  {
    BareWords("");
    FieldsOfBlank("");
  }

  /** A list of lines says what a list of texts does, item by item. */
  lemma {:induction false} ItemByItem<T>(f: T -> seq<Line>, g: T -> seq<string>, s: seq<T>)
    requires forall x :: x in s ==> WordsIn(f(x)) == WordsOfAll(g(x))
    ensures WordsIn(FlatMap(f, s)) == WordsOfAll(FlatMap(g, s))
  {
    if s != [] {
      assert forall x :: x in Front(s) ==> x in s;
      assert Last(s) in s;
      ItemByItem(f, g, Front(s));
      WordsConcat(FlatMap(f, Front(s)), f(Last(s)));
      TextsConcat(FlatMap(g, Front(s)), g(Last(s)));
    }
  }

  lemma {:induction false} LineByLine<T>(f: T -> Line, g: T -> seq<string>, s: seq<T>)
    requires forall x :: x in s ==> WordsOf(f(x)) == WordsOfAll(g(x))
    ensures WordsIn(Map(f, s)) == WordsOfAll(FlatMap(g, s))
  {
    if s != [] {
      assert forall x :: x in Front(s) ==> x in s;
      assert Last(s) in s;
      LineByLine(f, g, Front(s));
      Snoc(s);
      MapSnoc(f, Front(s), Last(s));
      OneLine(f(Last(s)));
      WordsConcat(Map(f, Front(s)), [f(Last(s))]);
      TextsConcat(FlatMap(g, Front(s)), g(Last(s)));
    }
  }

  // ---- Wrapped text keeps its words ----

  lemma {:induction false} GreedyKeeps(lines: Lines, width: int)
    requires forall i :: 0 <= i < |lines| ==> AreWords(lines[i])
    ensures WordsOfAll(Map(Shown, lines)) == Concat(lines)
  {
    if lines != [] {
      GreedyKeeps(Front(lines), width);
      Snoc(lines);
      MapSnoc(Shown, Front(lines), Last(lines));
      FieldsOfJoined(Last(lines));
      OneText(Shown(Last(lines)));
      TextsConcat(Map(Shown, Front(lines)), [Shown(Last(lines))]);
    }
  }

  lemma {:induction false} PartsAreWords(lines: Lines)
    requires AreWords(Concat(lines))
    ensures forall i :: 0 <= i < |lines| ==> AreWords(lines[i])
  {
    if lines != [] {
      var a, b := Concat(Front(lines)), Last(lines);
      assert AreWords(a) by {
        assert forall i :: 0 <= i < |a| ==> a[i] == (a + b)[i];
      }
      assert AreWords(b) by {
        assert forall i :: 0 <= i < |b| ==> b[i] == (a + b)[|a| + i];
      }
      PartsAreWords(Front(lines));
      assert forall i :: 0 <= i < |lines| - 1 ==> lines[i] == Front(lines)[i];
    }
  }

  lemma WrappedKeeps(text: string, width: int)
    ensures WordsOfAll(Wrapped(text, width)) == Fields(text)
  {
    var ws := Fields(text);
    var g := Greedy(ws, width);
    GreedyBreaks(ws, width);
    FieldsAreWords(text);
    PartsAreWords(g);
    GreedyKeeps(g, width);
  }

  function Itself(text: string): seq<string> {
    [text]
  }

  lemma {:induction false} Singletons(s: seq<string>)
    ensures FlatMap(Itself, s) == s
  {
    if s != [] {
      Singletons(Front(s));
      Snoc(s);
    }
  }

  lemma IndentedKeeps(indent: string, lines: seq<string>)
    requires Blank(indent)
    ensures WordsIn(Map(Indented(indent), lines)) == WordsOfAll(lines)
  {
    forall text ensures WordsOf(Indented(indent)(text)) == WordsOfAll(Itself(text)) {
      Said1(Plain(indent + text));
      FieldsAfter(indent, text);
      OneText(text);
    }
    LineByLine(Indented(indent), Itself, lines);
    Singletons(lines);
  }

  lemma WrappedWords(text: string, width: int, indent: string)
    requires Blank(indent)
    ensures WordsIn(Map(Indented(indent), Wrapped(text, width))) == Fields(text)
  {
    WrappedKeeps(text, width);
    IndentedKeeps(indent, Wrapped(text, width));
  }

  lemma ParagraphWords(o: Options, text: string, indent: string)
    requires Blank(indent)
    ensures WordsIn(Paragraph(o, text, indent)) == Fields(text)
  {
    WrappedWords(text, Room(o, |indent|), indent);
  }

  // ---- What each part of a report says ----

  function EvidenceTexts(e: Evidence): seq<string> {
    [if e.field == "" then e.source else e.field, e.value, e.message]
  }

  /** At most eight pieces of evidence unless the output is verbose, and then how many more there are. */
  function EvidenceOutline(o: Options, es: seq<Evidence>): seq<string> {
    if |es| == 0 then [] else ["  Evidence"] + EvidenceList(o, es)
  }

  function EvidenceList(o: Options, es: seq<Evidence>): seq<string> {
    if o.verbose || |es| <= 8 then FlatMap(EvidenceTexts, es)
    else FlatMap(EvidenceTexts, es[..8]) + ["... " + DecimalInt(|es| - 8) + " more (use --verbose)"]
  }

  function BulletSign(o: Options): string {
    if o.unicode then "\U{2022}" else "-"
  }

  /** A bullet is only drawn in front of a text. */
  function CauseTexts(o: Options, cause: string): seq<string> {
    if Fields(cause) == [] then [] else [BulletSign(o), cause]
  }

  function CauseTextsIn(o: Options): string -> seq<string> {
    (cause: string) => CauseTexts(o, cause)
  }

  function CausesOutline(o: Options, causes: seq<string>): seq<string> {
    if |causes| == 0 then [] else ["  Possible causes"] + FlatMap(CauseTextsIn(o), causes)
  }

  function SuggestionTexts(s: Suggestion): seq<string> {
    [s.description] + s.commands
  }

  function SuggestionsOutline(ss: seq<Suggestion>): seq<string> {
    if |ss| == 0 then []
    else (if |ss| == 1 then ["  Suggested action"] else ["  Suggested actions"]) + FlatMap(SuggestionTexts, ss)
  }

  function SeverityWord(s: Severity): string {
    if s == Critical then "critical" else if s == Warning then "warning" else if s == Info then "info" else s.text
  }

  function ConfidenceWord(c: Confidence): string {
    if c == Certain then "certain" else if c == Likely then "likely" else if c == Possible then "possible" else c.name
  }

  function RuleOutline(o: Options, d: Diagnosis): seq<string> {
    if !o.verbose then []
    else ["rule " + o.idText(d.id) + ", confidence " + ConfidenceWord(d.confidence) + ", severity " + SeverityWord(d.severity)]
  }

  /** What a finding is called: by what was printed before it, and otherwise by its severity. */
  ghost function HeadingAt(ds: seq<Diagnosis>, i: nat): string
    requires i < |ds|
  {
    if ds[i].causedBy != NoID && exists j :: 0 <= j < i && ds[j].id == ds[i].causedBy then "CONSEQUENCE"
    else if i > 0 then "ALSO DETECTED"
    else if ds[i].severity == Critical then "ROOT CAUSE"
    else if ds[i].severity == Warning then "WARNING"
    else "OBSERVATION"
  }

  function SummaryText(d: Diagnosis): string {
    match d.aggregate
    case Some(Aggregate(count, total, _)) =>
      if count >= 2 then d.summary + " (" + DecimalInt(count) + " of " + DecimalInt(total) + " Pods)" else d.summary
    case None => d.summary
  }

  function FindingOutline(o: Options, d: Diagnosis, heading: string): seq<string> {
    [heading, SummaryText(d), d.explanation] + EvidenceOutline(o, d.evidence) + CausesOutline(o, d.possibleCauses)
    + SuggestionsOutline(d.suggestions) + RuleOutline(o, d)
  }

  ghost function FindingsOutline(o: Options, ds: seq<Diagnosis>): seq<string> {
    if ds == [] then [] else FindingsOutline(o, Front(ds)) + FindingOutline(o, Last(ds), HeadingAt(ds, |ds| - 1))
  }

  function ItemTexts(i: Item): seq<string> {
    [i.key, i.value, i.note]
  }

  function BranchSign(o: Options): string {
    if o.unicode then "\U{2514}\U{2500}" else "\\_"
  }

  function TreeOutline(o: Options, tree: seq<string>): seq<string> {
    if tree == [] then []
    else if |tree| == 1 then [tree[0]]
    else TreeOutline(o, Front(tree)) + [BranchSign(o), Last(tree)]
  }

  function SectionTexts(o: Options, s: Section): seq<string> {
    [s.title] + FlatMap(ItemTexts, s.items) + TreeOutline(o, s.tree)
  }

  function SectionTextsIn(o: Options): Section -> seq<string> {
    (s: Section) => SectionTexts(o, s)
  }

  function DegradationTexts(d: Degradation): seq<string> {
    ["KubeWhy could not read " + d.resource + " in this cluster."]
    + (if d.requiredFor == "" then [] else ["  Required for", d.requiredFor])
    + ["  Kubernetes returned", if Fields(d.detail) == [] then d.reason else d.detail]
  }

  function SignOf(o: Options, s: Status): string {
    match s
    case Healthy => if o.unicode then "\U{2713}" else "[ok]"
    case Unhealthy => if o.unicode then "\U{2717}" else "[x]"
    case Degraded => if o.unicode then "!" else "[!]"
    case Unknown => if o.unicode then "!" else "[!]"
  }

  /** What a report says, in order. */
  ghost function ReportOutline(o: Options, r: Contents): seq<string> {
    [SignOf(o, r.status), r.headline] + FindingsOutline(o, r.diagnoses) + FlatMap(SectionTextsIn(o), r.overview)
    + (if |r.degradations| == 0 then [] else [SignOf(o, Degraded), "Diagnosis is incomplete"] + FlatMap(DegradationTexts, r.degradations))
    + (if r.status == Healthy then ["No obvious Kubernetes-level issue detected."] else [])
    + (if o.verbose && |r.inspected| > 0 then ["Inspected"] + r.inspected else [])
  }

  // ---- The parts of the document say that ----

  lemma TitleWords(text: string)
    ensures WordsIn([Bare(""), Bare(text)]) == Fields(text)
  {
    assert [Bare(""), Bare(text)] == [Bare("")] + [Bare(text)];
    WordsConcat([Bare("")], [Bare(text)]);
    BlankLine();
    BareWords(text);
  }

  lemma FourSpaces()
    ensures Blank("  ") && Blank("    ") && Blank("      ")
  {
  }

  lemma ColumnsWords(indent: string, key: string, gap: string, value: string)
    requires Blank(indent) && Blank(gap) && gap != []
    ensures Fields(indent + key + gap + value) == Fields(key) + Fields(value)
  {
    Regrouped(indent, key, gap);
    Regrouped(indent, key + gap, value);
    FieldsAfter(indent, key + gap + value);
    FieldsAround(key, gap, value);
  }

  lemma WideGap(text: string, width: int)
    ensures Blank(Fill(text, width) + "  ") && Fill(text, width) + "  " != []
  {
    FourSpaces();
    SpacesAreBlank(width - |text|);
  }

  lemma ValuedWords(indent: string, ink: Ink, name: string, gap: string, value: string)
    requires Blank(indent) && Blank(gap) && gap != []
    ensures WordsOf([Plain(indent), Painted(ink, name), Plain(gap), Valued(value)]) == Fields(name) + Fields(value)
  {
    Said4(Plain(indent), Painted(ink, name), Plain(gap), Valued(value));
    ColumnsWords(indent, name, gap, value);
  }

  lemma NamedWords(indent: string, ink: Ink, name: string)
    requires Blank(indent)
    ensures WordsOf([Plain(indent), Painted(ink, name)]) == Fields(name)
  {
    Said2(Plain(indent), Painted(ink, name));
    FieldsAfter(indent, name);
  }

  lemma EvidenceLineWords(e: Evidence, width: int)
    ensures WordsOf(EvidenceLine(e, width)) == Fields(if e.field == "" then e.source else e.field) + Fields(e.value)
  {
    var name := if e.field == "" then e.source else e.field;
    assert Label(e) == name;
    FourSpaces();
    if e.value != "" {
      WideGap(name, width);
      ValuedWords("    ", InkDim, name, Fill(name, width) + "  ", e.value);
    } else {
      NamedWords("    ", InkDim, name);
      FieldsOfNothing();
    }
  }

  lemma EvidenceItemWords(o: Options, width: int, e: Evidence)
    ensures WordsIn(EvidenceItem(o, width)(e)) == WordsOfAll(EvidenceTexts(e))
  {
    FourSpaces();
    EvidenceLineWords(e, width);
    OneLine(EvidenceLine(e, width));
    ParagraphWords(o, e.message, "      ");
    WordsConcat([EvidenceLine(e, width)], Paragraph(o, e.message, "      "));
    ThreeTexts(if e.field == "" then e.source else e.field, e.value, e.message);
  }

  lemma MoreWords(n: int)
    ensures WordsIn([MoreLine(n)]) == Fields("... " + DecimalInt(n) + " more (use --verbose)")
  {
    var text := "... " + DecimalInt(n) + " more (use --verbose)";
    FourSpaces();
    OneLine(MoreLine(n));
    Said2(Plain("    "), Painted(InkDim, text));
    FieldsAfter("    ", text);
  }

  lemma EvidenceItemsWords(o: Options, width: int, es: seq<Evidence>)
    ensures WordsIn(FlatMap(EvidenceItem(o, width), es)) == WordsOfAll(FlatMap(EvidenceTexts, es))
  {
    forall e ensures WordsIn(EvidenceItem(o, width)(e)) == WordsOfAll(EvidenceTexts(e)) {
      EvidenceItemWords(o, width, e);
    }
    ItemByItem(EvidenceItem(o, width), EvidenceTexts, es);
  }

  lemma FewWords(o: Options, es: seq<Evidence>)
    requires o.verbose || |es| <= 8
    ensures WordsIn(EvidenceLines(o, es)) == WordsOfAll(EvidenceList(o, es))
  {
    EvidenceItemsWords(o, LabelWidth(es), es);
    var items := FlatMap(EvidenceItem(o, LabelWidth(es)), es);
    assert ShownEvidence(o, es) == es;
    assert EvidenceLines(o, es) == items + [] == items;
  }

  lemma ManyWords(o: Options, es: seq<Evidence>)
    requires !o.verbose && |es| > 8
    ensures WordsIn(EvidenceLines(o, es)) == WordsOfAll(EvidenceList(o, es))
  {
    var shown, more := es[..8], "... " + DecimalInt(|es| - 8) + " more (use --verbose)";
    var items := FlatMap(EvidenceItem(o, LabelWidth(shown)), shown);
    EvidenceItemsWords(o, LabelWidth(shown), shown);
    WordsConcat(items, [MoreLine(|es| - 8)]);
    MoreWords(|es| - 8);
    OneText(more);
    TextsConcat(FlatMap(EvidenceTexts, shown), [more]);
    assert EvidenceLines(o, es) == items + [MoreLine(|es| - 8)];
  }

  /** A titled part says its title and what stands under it. */
  lemma TitledWords(title: string, lines: seq<Line>, texts: seq<string>)
    requires WordsIn(lines) == WordsOfAll(texts)
    ensures WordsIn([Bare(""), Bare(title)] + lines) == WordsOfAll([title] + texts)
  {
    TitleWords(title);
    WordsConcat([Bare(""), Bare(title)], lines);
    OneText(title);
    TextsConcat([title], texts);
  }

  lemma EvidencePartWords(o: Options, es: seq<Evidence>)
    ensures WordsIn(EvidencePart(o, es)) == WordsOfAll(EvidenceOutline(o, es))
  {
    if es != [] {
      if o.verbose || |es| <= 8 {
        FewWords(o, es);
      } else {
        ManyWords(o, es);
      }
      TitledWords("  Evidence", EvidenceLines(o, es), EvidenceList(o, es));
    }
  }

  // ---- Causes and suggestions ----

  /** What starts with `first` says `sign` and then the rest. */
  ghost predicate Opens(first: string, sign: string) {
    forall text :: Fields(first + text) == Fields(sign) + Fields(text)
  }

  lemma MarkerOpens(marker: string)
    ensures Opens("    " + (marker + " "), marker)
  {
    FourSpaces();
    assert Blank(" ");
    forall text ensures Fields("    " + (marker + " ") + text) == Fields(marker) + Fields(text) {
      assert "    " + (marker + " ") + text == "    " + (marker + " " + text);
      FieldsAfter("    ", marker + " " + text);
      FieldsAround(marker, " ", text);
    }
  }

  lemma BulletLineWords(first: string, sign: string, hanging: string, lines: seq<string>, i: nat)
    requires i < |lines| && Blank(hanging) && Opens(first, sign)
    ensures WordsOf(BulletLine(first, hanging, lines, i)) == (if i == 0 then Fields(sign) else []) + Fields(lines[i])
  {
    Said1(Plain((if i == 0 then first else hanging) + lines[i]));
    FieldsAfter(hanging, lines[i]);
  }

  lemma {:induction false} BulletsWords(first: string, sign: string, hanging: string, lines: seq<string>, n: nat)
    requires n <= |lines| && Blank(hanging) && Opens(first, sign)
    ensures WordsIn(BulletLines(first, hanging, lines)[..n]) == (if n == 0 then [] else Fields(sign)) + WordsOfAll(lines[..n])
  {
    if n > 0 {
      var block := BulletLines(first, hanging, lines);
      BulletsWords(first, sign, hanging, lines, n - 1);
      PrefixStep(block, n - 1);
      PrefixStep(lines, n - 1);
      BulletLineWords(first, sign, hanging, lines, n - 1);
      OneLine(block[n - 1]);
      WordsConcat(block[..n - 1], [block[n - 1]]);
      OneText(lines[n - 1]);
      TextsConcat(lines[..n - 1], [lines[n - 1]]);
      SignFirst(Fields(sign), WordsOfAll(lines[..n - 1]), Fields(lines[n - 1]), n);
    }
  }

  lemma SignFirst(sign: seq<string>, before: seq<string>, more: seq<string>, n: nat)
    requires n > 0 && (n == 1 ==> before == [])
    ensures (if n - 1 == 0 then [] else sign) + before + ((if n - 1 == 0 then sign else []) + more) == sign + (before + more)
  {
  }

  lemma SignIsWord(o: Options)
    ensures BulletMark(o) == BulletSign(o)
  {
  }

  lemma {:induction false} NoLines(text: string, width: int)
    ensures Wrapped(text, width) == [] <==> Fields(text) == []
  {
    GreedyBreaks(Fields(text), width);
  }

  lemma CauseWords(o: Options, cause: string)
    ensures WordsIn(Bullet(o)(cause)) == WordsOfAll(CauseTexts(o, cause))
  {
    var mark := BulletMark(o);
    var hanging := "    " + Spaces(|mark + " "|);
    SpacesAreBlank(|mark + " "|);
    assert Blank(hanging);
    var lines := Wrapped(cause, Room(o, |hanging|));
    var block := BulletLines("    " + (mark + " "), hanging, lines);
    MarkerOpens(mark);
    BulletsWords("    " + (mark + " "), mark, hanging, lines, |lines|);
    assert block[..|lines|] == block && lines[..|lines|] == lines;
    WrappedKeeps(cause, Room(o, |hanging|));
    NoLines(cause, Room(o, |hanging|));
    TwoTexts(mark, cause);
    SignIsWord(o);
    assert OneBullet(o, cause) == block;
  }

  lemma CausesPartWords(o: Options, causes: seq<string>)
    ensures WordsIn(CausesPart(o, causes)) == WordsOfAll(CausesOutline(o, causes))
  {
    if causes != [] {
      forall cause ensures WordsIn(Bullet(o)(cause)) == WordsOfAll(CauseTextsIn(o)(cause)) {
        CauseWords(o, cause);
      }
      ItemByItem(Bullet(o), CauseTextsIn(o), causes);
      TitledWords("  Possible causes", FlatMap(Bullet(o), causes), FlatMap(CauseTextsIn(o), causes));
    }
  }

  lemma CommandWords(cmds: seq<string>)
    ensures WordsIn(Map(CommandLine, cmds)) == WordsOfAll(cmds)
  {
    forall cmd ensures WordsOf(CommandLine(cmd)) == WordsOfAll(Itself(cmd)) {
      FourSpaces();
      Said2(Plain("      "), Painted(InkCyan, cmd));
      FieldsAfter("      ", cmd);
      OneText(cmd);
    }
    LineByLine(CommandLine, Itself, cmds);
    Singletons(cmds);
  }

  lemma SuggestionWords(o: Options, s: Suggestion)
    ensures WordsIn(SuggestionLines(o, s)) == WordsOfAll(SuggestionTexts(s))
  {
    FourSpaces();
    ParagraphWords(o, s.description, "    ");
    CommandWords(s.commands);
    WordsConcat(Paragraph(o, s.description, "    "), Map(CommandLine, s.commands));
    OneText(s.description);
    TextsConcat([s.description], s.commands);
  }

  lemma {:induction false} SuggestionsWords(o: Options, ss: seq<Suggestion>)
    ensures WordsIn(AllSuggestions(o, ss)) == WordsOfAll(FlatMap(SuggestionTexts, ss))
  {
    if ss != [] {
      var before, gap := AllSuggestions(o, Front(ss)), if |ss| > 1 then [Bare("")] else [];
      SuggestionsWords(o, Front(ss));
      SuggestionWords(o, Last(ss));
      BlankLine();
      WordsConcat(before, gap);
      WordsConcat(before + gap, SuggestionLines(o, Last(ss)));
      TextsConcat(FlatMap(SuggestionTexts, Front(ss)), SuggestionTexts(Last(ss)));
    }
  }

  lemma SuggestionsPartWords(o: Options, ss: seq<Suggestion>)
    ensures WordsIn(SuggestionsPart(o, ss)) == WordsOfAll(SuggestionsOutline(ss))
  {
    if ss != [] {
      SuggestionsWords(o, ss);
      var title := if |ss| == 1 then "  Suggested action" else "  Suggested actions";
      TitledWords(title, AllSuggestions(o, ss), FlatMap(SuggestionTexts, ss));
    }
  }

  // ---- Findings ----

  lemma WordsForRanks(d: Diagnosis)
    ensures ConfidenceText(d.confidence) == ConfidenceWord(d.confidence) && SeverityText(d.severity) == SeverityWord(d.severity)
  {
  }

  lemma FourSpans(head: string, name: string, a: string, c: string, b: string, v: string)
    ensures WordsOf([Plain("  "), Painted(InkDim, head), Painted(InkMagenta, name), Painted(InkDim, a + c + b + v)])
         == Fields(head + name + a + c + b + v)
  {
    var tail := a + c + b + v;
    FourSpaces();
    Said4(Plain("  "), Painted(InkDim, head), Painted(InkMagenta, name), Painted(InkDim, tail));
    Regrouped("  ", head, name);
    Regrouped("  ", head + name, tail);
    FieldsAfter("  ", head + name + tail);
    Regrouped(head + name, a, c);
    Regrouped(head + name, a + c, b);
    Regrouped(head + name, a + c + b, v);
  }

  lemma RulePartWords(o: Options, d: Diagnosis)
    ensures WordsIn(RulePart(o, d)) == WordsOfAll(RuleOutline(o, d))
  {
    if o.verbose {
      WordsForRanks(d);
      FourSpans("rule ", o.idText(d.id), ", confidence ", ConfidenceText(d.confidence), ", severity ", SeverityText(d.severity));
      BlankLine();
      OneLine(RuleLine(o, d));
      WordsConcat([Bare("")], [RuleLine(o, d)]);
      assert [Bare(""), RuleLine(o, d)] == [Bare("")] + [RuleLine(o, d)];
      OneText(RuleOutline(o, d)[0]);
    }
  }

  lemma ExplainingWords(o: Options, d: Diagnosis)
    ensures WordsIn(Explaining(o, d)) == Fields(d.explanation)
  {
    if d.explanation == "" {
      FieldsOfBlank("");
    } else {
      FourSpaces();
      BlankLine();
      ParagraphWords(o, d.explanation, "  ");
      WordsConcat([Bare("")], Paragraph(o, d.explanation, "  "));
    }
  }

  lemma OpeningWords(o: Options, d: Diagnosis, h: Heading)
    ensures WordsIn([[Painted(Tone(d.severity), HeadingText(h))]] + Paragraph(o, Summary(d), "  ") + Explaining(o, d))
         == WordsOfAll([HeadingText(h), SummaryText(d), d.explanation])
  {
    var line: Line := [Painted(Tone(d.severity), HeadingText(h))];
    FourSpaces();
    Said1(Painted(Tone(d.severity), HeadingText(h)));
    OneLine(line);
    ParagraphWords(o, Summary(d), "  ");
    assert Summary(d) == SummaryText(d);
    ExplainingWords(o, d);
    WordsConcat([line], Paragraph(o, Summary(d), "  "));
    WordsConcat([line] + Paragraph(o, Summary(d), "  "), Explaining(o, d));
    ThreeTexts(HeadingText(h), SummaryText(d), d.explanation);
  }

  lemma FindingWords(o: Options, d: Diagnosis, h: Heading)
    ensures WordsIn(FindingLines(o, d, h)) == WordsOfAll(FindingOutline(o, d, HeadingText(h)))
  {
    var opening := [[Painted(Tone(d.severity), HeadingText(h))]] + Paragraph(o, Summary(d), "  ") + Explaining(o, d);
    var a, b, c, e := EvidencePart(o, d.evidence), CausesPart(o, d.possibleCauses), SuggestionsPart(o, d.suggestions), RulePart(o, d);
    var texts := [HeadingText(h), SummaryText(d), d.explanation];
    var x, y, z, w := EvidenceOutline(o, d.evidence), CausesOutline(o, d.possibleCauses), SuggestionsOutline(d.suggestions), RuleOutline(o, d);
    OpeningWords(o, d, h);
    EvidencePartWords(o, d.evidence);
    CausesPartWords(o, d.possibleCauses);
    SuggestionsPartWords(o, d.suggestions);
    RulePartWords(o, d);
    FiveParts(opening, a, b, c, e, texts, x, y, z, w);
  }

  lemma FiveParts(a: seq<Line>, b: seq<Line>, c: seq<Line>, d: seq<Line>, e: seq<Line>,
                  v: seq<string>, w: seq<string>, x: seq<string>, y: seq<string>, z: seq<string>)
    requires WordsIn(a) == WordsOfAll(v) && WordsIn(b) == WordsOfAll(w) && WordsIn(c) == WordsOfAll(x)
    requires WordsIn(d) == WordsOfAll(y) && WordsIn(e) == WordsOfAll(z)
    ensures WordsIn(a + b + c + d + e) == WordsOfAll(v + w + x + y + z)
  {
    WordsConcat(a, b);
    WordsConcat(a + b, c);
    WordsConcat(a + b + c, d);
    WordsConcat(a + b + c + d, e);
    TextsConcat(v, w);
    TextsConcat(v + w, x);
    TextsConcat(v + w + x, y);
    TextsConcat(v + w + x + y, z);
  }

  lemma HeadingIs(ds: seq<Diagnosis>, i: nat)
    requires i < |ds|
    ensures HeadingText(HeadingOf(ds[i], i == 0, IDs(ds[..i]))) == HeadingAt(ds, i)
  {
    HeadedConsequenceIff(ds, i);
  }

  lemma AfterGap(before: seq<Line>, gap: seq<Line>, next: seq<Line>, texts: seq<string>, more: seq<string>)
    requires WordsIn(before) == WordsOfAll(texts) && WordsIn(gap) == [] && WordsIn(next) == WordsOfAll(more)
    ensures WordsIn(before + gap + next) == WordsOfAll(texts + more)
  {
    WordsConcat(before, gap);
    WordsConcat(before + gap, next);
    TextsConcat(texts, more);
    assert WordsIn(before) + [] == WordsIn(before);
  }

  lemma {:induction false} FindingsWords(o: Options, ds: seq<Diagnosis>)
    ensures WordsIn(AllFindings(o, ds)) == WordsOfAll(FindingsOutline(o, ds))
  {
    if ds != [] {
      var d, h := Last(ds), HeadingOf(Last(ds), |ds| == 1, IDs(Front(ds)));
      FindingsWords(o, Front(ds));
      FindingWords(o, d, h);
      HeadingIs(ds, |ds| - 1);
      BlankLine();
      AfterGap(AllFindings(o, Front(ds)), [Bare("")], FindingLines(o, d, h), FindingsOutline(o, Front(ds)), FindingOutline(o, d, HeadingText(h)));
    }
  }

  // ---- Sections ----

  lemma ItemWords(kw: int, vw: int, i: Item)
    ensures WordsOf(OneItem(kw, vw, i)) == WordsOfAll(ItemTexts(i))
  {
    var gap, wide := Fill(i.key, kw) + "  ", Fill(i.value, vw) + "  ";
    var left := "  " + i.key + Fill(i.key, kw) + "  ";
    Regrouped("  " + i.key, Fill(i.key, kw), "  ");
    WideGap(i.key, kw);
    WideGap(i.value, vw);
    ThreeTexts(i.key, i.value, i.note);
    FourSpaces();
    ColumnsWords("  ", i.key, gap, i.value);
    if i.note == "" {
      Said2(Plain(left), Valued(i.value));
      FieldsOfBlank("");
    } else {
      Said4(Plain(left), Valued(i.value), Plain(wide), Noted(i.note));
      FieldsAround(left + i.value, wide, i.note);
    }
  }

  lemma {:induction false} TreeWords(o: Options, tree: seq<string>, n: nat)
    requires n <= |tree|
    ensures WordsIn(TreeLines(o, tree)[..n]) == WordsOfAll(TreeOutline(o, tree[..n]))
  {
    if n > 0 {
      var block, node := TreeLines(o, tree), tree[n - 1];
      TreeWords(o, tree, n - 1);
      PrefixStep(block, n - 1);
      PrefixStep(tree, n - 1);
      OneLine(block[n - 1]);
      WordsConcat(block[..n - 1], [block[n - 1]]);
      NodeWords(o, tree, n - 1);
      if n == 1 {
        OneText(node);
        assert tree[..1] == [node] && tree[..0] == [] && block[..0] == [];
      } else {
        TwoTexts(BranchSign(o), node);
        TextsConcat(TreeOutline(o, tree[..n - 1]), [BranchSign(o), node]);
      }
    }
  }

  lemma NodeWords(o: Options, tree: seq<string>, i: nat)
    requires i < |tree|
    ensures WordsOf(TreeLine(o, tree, i)) == (if i == 0 then [] else Fields(BranchSign(o))) + Fields(tree[i])
  {
    FourSpaces();
    if i == 0 {
      Said1(Plain("  " + tree[0]));
      FieldsAfter("  ", tree[0]);
    } else {
      var gap, mark := "  " + Spaces(3 * (i - 1)), Branch(o);
      SpacesAreBlank(3 * (i - 1));
      assert Blank(gap) && Blank(" ");
      Said1(Plain(gap + mark + " " + tree[i]));
      assert gap + mark + " " + tree[i] == gap + (mark + " " + tree[i]);
      FieldsAfter(gap, mark + " " + tree[i]);
      FieldsAround(mark, " ", tree[i]);
    }
  }

  lemma SectionWords(o: Options, s: Section)
    ensures WordsIn(SectionLines(o)(s)) == WordsOfAll(SectionTextsIn(o)(s))
  {
    var kw, vw := KeyWidth(s.items), ValueWidth(s.items);
    var title: Line := [Painted(InkBold, s.title)];
    var items, tree := Map(ItemLine(kw, vw), s.items), TreeLines(o, s.tree);
    forall i ensures WordsOf(ItemLine(kw, vw)(i)) == WordsOfAll(ItemTexts(i)) {
      ItemWords(kw, vw, i);
    }
    LineByLine(ItemLine(kw, vw), ItemTexts, s.items);
    TreeWords(o, s.tree, |s.tree|);
    assert tree[..|s.tree|] == tree && s.tree[..|s.tree|] == s.tree;
    Said1(Painted(InkBold, s.title));
    OneLine(title);
    OneText(s.title);
    BlankLine();
    WordsConcat([title], items);
    WordsConcat([title] + items, tree);
    WordsConcat([Bare("")], [title] + items + tree);
    TextsConcat([s.title], FlatMap(ItemTexts, s.items));
    TextsConcat([s.title] + FlatMap(ItemTexts, s.items), TreeOutline(o, s.tree));
  }

  // ---- What could not be read ----

  lemma {:induction false} TrimmedAway(s: string)
    ensures Trim(IsSpace, s) == "" <==> Fields(s) == []
  {
    var lo, hi := TrimSlice(IsSpace, s);
    if Trim(IsSpace, s) == "" {
      assert s[lo..hi] == "";
    }
    SkipSpaceIff(s);
    TrimIsBlank(s);
  }

  lemma {:induction false} SkipSpaceIff(s: string)
    ensures SkipSpace(s) == [] <==> Blank(s)
  {
    if s != [] && IsSpace(s[0]) {
      SkipSpaceIff(s[1..]);
      if Blank(s[1..]) {
        assert forall i :: 1 <= i < |s| ==> s[i] == s[1..][i - 1];
      }
      if Blank(s) {
        assert forall i :: 0 <= i < |s| - 1 ==> s[1..][i] == s[i + 1];
      }
    }
  }

  lemma TrimIsBlank(s: string)
    ensures Trim(IsSpace, s) == "" <==> Blank(s)
  {
    var lo := TrimLeftSlice(IsSpace, s);
    var t := TrimLeft(IsSpace, s);
    if Blank(s) {
      assert lo == |s|;
      assert t == [];
    }
    if t != [] {
      assert !IsSpace(t[0]) && t[0] == s[lo];
      KeepsFirst(t);
    }
  }

  lemma {:induction false} KeepsFirst(t: string)
    requires t != [] && !IsSpace(t[0])
    ensures TrimRight(IsSpace, t) != []
  {
    if IsSpace(Last(t)) {
      KeepsFirst(Front(t));
    }
  }

  lemma PartWords(o: Options, title: string, text: string)
    ensures WordsIn([Bare(""), Bare(title)] + Paragraph(o, text, "    ")) == WordsOfAll([title, text])
  {
    FourSpaces();
    TitleWords(title);
    ParagraphWords(o, text, "    ");
    WordsConcat([Bare(""), Bare(title)], Paragraph(o, text, "    "));
    TwoTexts(title, text);
  }

  lemma DegradationWords(o: Options, d: Degradation)
    ensures WordsIn(OneDegradation(o, d)) == WordsOfAll(DegradationTexts(d))
  {
    var opening := "KubeWhy could not read " + d.resource + " in this cluster.";
    var a := [Bare("")] + Paragraph(o, opening, "  ");
    var b := if d.requiredFor == "" then [] else [Bare(""), Bare("  Required for")] + Paragraph(o, d.requiredFor, "    ");
    var c := [Bare(""), Bare("  Kubernetes returned")] + Paragraph(o, Detail(d), "    ");
    var x, y, z := [opening], if d.requiredFor == "" then [] else ["  Required for", d.requiredFor], ["  Kubernetes returned", Detail(d)];
    FourSpaces();
    BlankLine();
    ParagraphWords(o, opening, "  ");
    WordsConcat([Bare("")], Paragraph(o, opening, "  "));
    OneText(opening);
    if d.requiredFor != "" {
      PartWords(o, "  Required for", d.requiredFor);
    }
    PartWords(o, "  Kubernetes returned", Detail(d));
    TrimmedAway(d.detail);
    WordsConcat(a, b);
    WordsConcat(a + b, c);
    TextsConcat(x, y);
    TextsConcat(x + y, z);
  }

  lemma SignedWords(ink: Ink, sign: string, text: string)
    ensures WordsOf([Painted(ink, sign), Plain(" "), Painted(InkBold, text)]) == WordsOfAll([sign, text])
  {
    assert Blank(" ");
    Said3(Painted(ink, sign), Plain(" "), Painted(InkBold, text));
    FieldsAround(sign, " ", text);
    TwoTexts(sign, text);
  }

  lemma SignedPart(ink: Ink, sign: string, text: string, lines: seq<Line>, texts: seq<string>)
    requires WordsIn(lines) == WordsOfAll(texts)
    ensures WordsIn([Bare(""), [Painted(ink, sign), Plain(" "), Painted(InkBold, text)]] + lines) == WordsOfAll([sign, text] + texts)
  {
    var title: Line := [Painted(ink, sign), Plain(" "), Painted(InkBold, text)];
    assert [Bare(""), title] == [Bare("")] + [title];
    WordsConcat([Bare("")], [title]);
    BlankLine();
    OneLine(title);
    SignedWords(ink, sign, text);
    WordsConcat([Bare(""), title], lines);
    TextsConcat([sign, text], texts);
  }

  lemma AllDegradationWords(o: Options, ds: seq<Degradation>)
    ensures WordsIn(FlatMap(DegradationLines(o), ds)) == WordsOfAll(FlatMap(DegradationTexts, ds))
  {
    forall d ensures WordsIn(DegradationLines(o)(d)) == WordsOfAll(DegradationTexts(d)) {
      DegradationWords(o, d);
    }
    ItemByItem(DegradationLines(o), DegradationTexts, ds);
  }

  lemma SignsAre(o: Options)
    ensures Warn(o) == SignOf(o, Degraded) == SignOf(o, Status.Unknown) && OK(o) == SignOf(o, Healthy) && Fail(o) == SignOf(o, Unhealthy)
  {
  }

  lemma IncompleteWords(o: Options, ds: seq<Degradation>)
    ensures WordsIn(Incomplete(o, ds))
         == WordsOfAll(if |ds| == 0 then [] else [SignOf(o, Degraded), "Diagnosis is incomplete"] + FlatMap(DegradationTexts, ds))
  {
    if ds != [] {
      AllDegradationWords(o, ds);
      SignsAre(o);
      SignedPart(InkYellow, Warn(o), "Diagnosis is incomplete", FlatMap(DegradationLines(o), ds), FlatMap(DegradationTexts, ds));
    }
  }

  // ---- The document ----

  lemma HeadlineWords(o: Options, r: Contents)
    ensures WordsIn([Headline(o, r)]) == WordsOfAll([SignOf(o, r.status), r.headline])
  {
    OneLine(Headline(o, r));
    match r.status {
      case Healthy => SignedWords(InkGreen, OK(o), r.headline);
      case Unhealthy => SignedWords(InkRed, Fail(o), r.headline);
      case Degraded => SignedWords(InkYellow, Warn(o), r.headline);
      case Unknown => SignedWords(InkYellow, Warn(o), r.headline);
    }
  }

  lemma ReassuranceWords(r: Contents)
    ensures WordsIn(Reassurance(r)) == WordsOfAll(if r.status == Healthy then ["No obvious Kubernetes-level issue detected."] else [])
  {
    if r.status == Healthy {
      TitleWords("No obvious Kubernetes-level issue detected.");
      OneText("No obvious Kubernetes-level issue detected.");
    }
  }

  lemma InspectedWords(o: Options, items: seq<string>)
    ensures WordsIn(InspectedPart(o, items)) == WordsOfAll(if o.verbose && |items| > 0 then ["Inspected"] + items else [])
  {
    if o.verbose && items != [] {
      var title: Line := [Painted(InkBold, "Inspected")];
      FourSpaces();
      BlankLine();
      Said1(Painted(InkBold, "Inspected"));
      OneLine(title);
      OneText("Inspected");
      assert [Bare(""), title] == [Bare("")] + [title];
      WordsConcat([Bare("")], [title]);
      IndentedKeeps("  ", items);
      WordsConcat([Bare(""), title], Map(Indented("  "), items));
      TextsConcat(["Inspected"], items);
    }
  }

  /** Nothing is lost, added or moved by the layout: the words of the document are those of the outline. */
  lemma DocumentSaysOutline(o: Options, r: Contents)
    ensures WordsIn(Document(o, r)) == WordsOfAll(ReportOutline(o, r))
  {
    var a, b, c := [Headline(o, r)], AllFindings(o, r.diagnoses), FlatMap(SectionLines(o), r.overview);
    var d, e, f := Incomplete(o, r.degradations), Reassurance(r), InspectedPart(o, r.inspected);
    var u, v, w := [SignOf(o, r.status), r.headline], FindingsOutline(o, r.diagnoses), FlatMap(SectionTextsIn(o), r.overview);
    var x := if |r.degradations| == 0 then [] else [SignOf(o, Degraded), "Diagnosis is incomplete"] + FlatMap(DegradationTexts, r.degradations);
    var y := if r.status == Healthy then ["No obvious Kubernetes-level issue detected."] else [];
    var z := if o.verbose && |r.inspected| > 0 then ["Inspected"] + r.inspected else [];
    HeadlineWords(o, r);
    FindingsWords(o, r.diagnoses);
    forall s ensures WordsIn(SectionLines(o)(s)) == WordsOfAll(SectionTextsIn(o)(s)) {
      SectionWords(o, s);
    }
    ItemByItem(SectionLines(o), SectionTextsIn(o), r.overview);
    IncompleteWords(o, r.degradations);
    ReassuranceWords(r);
    InspectedWords(o, r.inspected);
    FiveParts(a, b, c, d, e, u, v, w, x, y);
    WordsConcat(a + b + c + d + e, f);
    TextsConcat(u + v + w + x + y, z);
  }

  lemma LineEnds(line: string)
    ensures Fields(line + "\n") == Fields(line)
  {
    assert Blank("\n");
    FieldsBefore(line, "\n");
    FieldsOfBlank("\n");
  }

  lemma {:induction false} PrintedWords(off: Style, lines: seq<Line>)
    requires !off.color
    ensures Fields(Printed(off, lines)) == WordsIn(lines)
  {
    if lines == [] {
      FieldsOfBlank("");
    } else {
      PrintedWords(off, Front(lines));
      ShownIsSaid(off, Last(lines));
      EndsInNewline(off, Front(lines));
      LineEnds(Show(off, Last(lines)));
      AfterNewline(Printed(off, Front(lines)), Show(off, Last(lines)) + "\n");
    }
  }

  lemma EndsInNewline(off: Style, lines: seq<Line>)
    ensures lines != [] ==> Printed(off, lines) != "" && IsSpace(Last(Printed(off, lines)))
    ensures lines == [] ==> Printed(off, lines) == ""
  {
  }

  lemma AfterNewline(a: string, b: string)
    requires a == "" || IsSpace(Last(a))
    ensures Fields(a + b) == Fields(a) + Fields(b)
  {
    FieldsOfBlank("");
    if a == "" {
      assert a + b == b;
    } else {
      var front, gap := Front(a), [Last(a)];
      Snoc(a);
      FieldsBefore(front, gap);
      FieldsOfBlank(gap);
      Regrouped(front, gap, b);
      FieldsBefore(front, gap + b);
      FieldsAfter(gap, b);
    }
  }

  /** Read word by word, an uncoloured report is its outline: what was found, in order, and nothing else. */
  lemma ReportSaysOutline(t: TextOptions, r: Contents)
    requires !t.style.color
    ensures Fields(Rendered(t, r)) == WordsOfAll(ReportOutline(t.Plan(), r))
  {
    DocumentSaysOutline(t.Plan(), r);
    PrintedWords(t.style, Document(t.Plan(), r));
  }
}
