/** Colour is erasable: stripping the coloured rendering of a report gives its plain rendering. */
module Erasure {
  import opened Sequences
  import opened Text
  import opened Model
  import opened Reports
  import opened Layout
  import opened Colour
  import opened Rendering

  ghost predicate Free(s: string) {
    ESC !in s
  }

  ghost predicate AllFree(ss: seq<string>) {
    forall i :: 0 <= i < |ss| ==> Free(ss[i])
  }

  ghost predicate FreeEvidence(e: Evidence) {
    Free(e.source) && Free(e.field) && Free(e.value) && Free(e.message)
  }

  ghost predicate FreeFinding(o: Options, d: Diagnosis) {
    && Free(d.summary) && Free(d.explanation) && Free(o.idText(d.id)) && Free(SeverityText(d.severity)) && Free(ConfidenceText(d.confidence))
    && (forall i :: 0 <= i < |d.evidence| ==> FreeEvidence(d.evidence[i])) && AllFree(d.possibleCauses)
    && forall i :: 0 <= i < |d.suggestions| ==> Free(d.suggestions[i].description) && AllFree(d.suggestions[i].commands)
  }

  ghost predicate FreeItem(i: Item) {
    Free(i.key) && Free(i.value) && Free(i.note)
  }

  ghost predicate FreeSection(s: Section) {
    Free(s.title) && AllFree(s.tree) && forall i :: 0 <= i < |s.items| ==> FreeItem(s.items[i])
  }

  ghost predicate FreeDegradation(d: Degradation) {
    Free(d.resource) && Free(d.reason) && Free(d.requiredFor) && Free(d.detail)
  }

  /** No text of the report contains an escape character. */
  ghost predicate FreeReport(o: Options, r: Contents) {
    && Free(r.headline) && AllFree(r.inspected)
    && (forall i :: 0 <= i < |r.diagnoses| ==> FreeFinding(o, r.diagnoses[i]))
    && (forall i :: 0 <= i < |r.overview| ==> FreeSection(r.overview[i]))
    && forall i :: 0 <= i < |r.degradations| ==> FreeDegradation(r.degradations[i])
  }

  // ---- Plain building blocks ----

  lemma FreeConcat(a: string, b: string)
    requires Free(a) && Free(b)
    ensures Free(a + b)
  {
  }

  lemma DecimalFree(n: int)
    ensures Free(DecimalInt(n))
  {
    var s := Decimal(if n < 0 then -n else n);
    assert forall i :: 0 <= i < |s| ==> IsDigit(s[i]);
    assert Free(s);
    assert Free("-");
  }

  lemma {:induction false} SpacesFree(n: int)
    ensures Free(Spaces(n))
    decreases n
  {
    if n > 0 {
      SpacesFree(n - 1);
    }
  }

  lemma {:induction false} SkipFree(s: string)
    requires Free(s)
    ensures Free(SkipSpace(s))
  {
    if s != [] && IsSpace(s[0]) {
      SkipFree(s[1..]);
    }
  }

  lemma {:induction false} FieldsFree(s: string)
    requires Free(s)
    ensures AllFree(Fields(s))
    decreases |s|
  {
    SkipFree(s);
    var t := SkipSpace(s);
    if t != [] {
      FieldsFree(t[WordRun(t)..]);
    }
  }

  lemma {:induction false} JoinFree(ws: seq<string>, sep: string)
    requires AllFree(ws) && Free(sep)
    ensures Free(Join(ws, sep))
  {
    if |ws| > 1 {
      JoinFree(Front(ws), sep);
    }
  }

  lemma {:induction false} GreedyFree(ws: seq<string>, width: int)
    requires AllFree(ws)
    ensures forall i :: 0 <= i < |Greedy(ws, width)| ==> AllFree(Greedy(ws, width)[i])
  {
    if |ws| > 1 {
      var before, w := Greedy(Front(ws), width), Last(ws);
      GreedyFree(Front(ws), width);
      assert Free(w);
    }
  }

  lemma WrappedFree(text: string, width: int)
    requires Free(text)
    ensures AllFree(Wrapped(text, width))
  {
    var g := Greedy(Fields(text), width);
    FieldsFree(text);
    GreedyFree(Fields(text), width);
    forall i | 0 <= i < |g| ensures Free(Wrapped(text, width)[i]) {
      JoinFree(g[i], " ");
      assert Wrapped(text, width)[i] == Shown(g[i]);
    }
  }

  // ---- Lines ----

  lemma CleanConcat(a: seq<Rendering.Line>, b: seq<Rendering.Line>)
    requires Clean(a) && Clean(b)
    ensures Clean(a + b)
  {
  }

  lemma CleanFlatMap<T>(f: T -> seq<Rendering.Line>, s: seq<T>)
    requires forall i :: 0 <= i < |s| ==> Clean(f(s[i]))
    ensures Clean(FlatMap(f, s))
  {
    var out := FlatMap(f, s);
    forall k | 0 <= k < |out| ensures CleanLine(out[k]) {
      InFlatMap(f, s, out[k]);
      var i :| 0 <= i < |s| && out[k] in f(s[i]);
    }
  }

  lemma BareClean(text: string)
    requires Free(text)
    ensures CleanLine(Bare(text))
  {
  }

  lemma ParagraphClean(o: Options, text: string, indent: string)
    requires Free(text) && Free(indent)
    ensures Clean(Paragraph(o, text, indent))
  {
    var ls := Wrapped(text, Room(o, |indent|));
    WrappedFree(text, Room(o, |indent|));
    IndentedClean(ls, indent);
  }

  lemma IndentedClean(ls: seq<string>, indent: string)
    requires AllFree(ls) && Free(indent)
    ensures Clean(Map(Indented(indent), ls))
  {
    forall i | 0 <= i < |ls| ensures CleanLine(Map(Indented(indent), ls)[i]) {
      FreeConcat(indent, ls[i]);
      assert Map(Indented(indent), ls)[i] == Bare(indent + ls[i]);
    }
  }

  lemma SymbolsFree(o: Options)
    ensures Free(OK(o)) && Free(Warn(o)) && Free(Fail(o)) && Free(BulletMark(o)) && Free(Branch(o))
  {
  }

  lemma HeadlineClean(o: Options, r: Contents)
    requires Free(r.headline)
    ensures CleanLine(Headline(o, r))
  {
    SymbolsFree(o);
    assert Free(" ");
  }

  lemma SummaryFree(d: Diagnosis)
    requires Free(d.summary)
    ensures Free(Summary(d))
  {
    if d.aggregate.Some? && d.aggregate.value.count > 1 {
      var a, b := DecimalInt(d.aggregate.value.count), DecimalInt(d.aggregate.value.total);
      DecimalFree(d.aggregate.value.count);
      DecimalFree(d.aggregate.value.total);
      var open, of, close := " (", " of ", " Pods)";
      assert Free(open) && Free(of) && Free(close);
      FreeConcat(d.summary, open);
      FreeConcat(d.summary + open, a);
      FreeConcat(d.summary + open + a, of);
      FreeConcat(d.summary + open + a + of, b);
      FreeConcat(d.summary + open + a + of + b, close);
    }
  }

  lemma EvidenceLineClean(e: Evidence, width: int)
    requires FreeEvidence(e)
    ensures CleanLine(EvidenceLine(e, width))
  {
    SpacesFree(width - |Label(e)|);
    assert Free("    ") && Free("  ");
    FreeConcat(Fill(Label(e), width), "  ");
  }

  lemma EvidenceItemClean(o: Options, width: int, e: Evidence)
    requires FreeEvidence(e)
    ensures Clean(EvidenceItem(o, width)(e))
  {
    EvidenceLineClean(e, width);
    assert Free("      ");
    ParagraphClean(o, e.message, "      ");
    CleanConcat([EvidenceLine(e, width)], Paragraph(o, e.message, "      "));
  }

  lemma MoreLineClean(n: int)
    ensures CleanLine(MoreLine(n))
  {
    DecimalFree(n);
    var dots, more := "... ", " more (use --verbose)";
    assert Free(dots) && Free(more) && Free("    ");
    FreeConcat(dots, DecimalInt(n));
    FreeConcat(dots + DecimalInt(n), more);
  }

  lemma EvidenceClean(o: Options, es: seq<Evidence>)
    requires forall i :: 0 <= i < |es| ==> FreeEvidence(es[i])
    ensures Clean(EvidencePart(o, es))
  {
    var shown := ShownEvidence(o, es);
    var w := LabelWidth(shown);
    forall i | 0 <= i < |shown| ensures Clean(EvidenceItem(o, w)(shown[i])) {
      EvidenceItemClean(o, w, shown[i]);
    }
    CleanFlatMap(EvidenceItem(o, w), shown);
    MoreLineClean(|es| - |shown|);
    var title := "  Evidence";
    assert Free("") && Free(title);
    assert Clean([Bare(""), Bare(title)]);
    CleanConcat([Bare(""), Bare(title)], EvidenceLines(o, es));
  }

  lemma BulletLinesClean(first: string, hanging: string, lines: seq<string>)
    requires Free(first) && Free(hanging) && AllFree(lines)
    ensures Clean(BulletLines(first, hanging, lines))
  {
    var out := BulletLines(first, hanging, lines);
    forall i | 0 <= i < |out| ensures CleanLine(out[i]) {
      FreeConcat(if i == 0 then first else hanging, lines[i]);
      assert out[i] == BulletLine(first, hanging, lines, i);
    }
  }

  lemma BulletClean(o: Options, text: string)
    requires Free(text)
    ensures Clean(OneBullet(o, text))
  {
    SymbolsFree(o);
    var marker, four := BulletMark(o) + " ", "    ";
    assert Free(" ") && Free(four);
    FreeConcat(BulletMark(o), " ");
    SpacesFree(|marker|);
    var hanging := four + Spaces(|marker|);
    FreeConcat(four, Spaces(|marker|));
    FreeConcat(four, marker);
    WrappedFree(text, Room(o, |hanging|));
    BulletLinesClean(four + marker, hanging, Wrapped(text, Room(o, |hanging|)));
  }

  lemma CausesClean(o: Options, causes: seq<string>)
    requires AllFree(causes)
    ensures Clean(CausesPart(o, causes))
  {
    forall i | 0 <= i < |causes| ensures Clean(Bullet(o)(causes[i])) {
      BulletClean(o, causes[i]);
      assert Bullet(o)(causes[i]) == OneBullet(o, causes[i]);
    }
    CleanFlatMap(Bullet(o), causes);
    var title := "  Possible causes";
    assert Free("") && Free(title);
    assert Clean([Bare(""), Bare(title)]);
    CleanConcat([Bare(""), Bare(title)], FlatMap(Bullet(o), causes));
  }

  lemma SuggestionClean(o: Options, s: Suggestion)
    requires Free(s.description) && AllFree(s.commands)
    ensures Clean(SuggestionLines(o, s))
  {
    assert Free("    ") && Free("      ");
    ParagraphClean(o, s.description, "    ");
    forall i | 0 <= i < |s.commands| ensures CleanLine(Map(CommandLine, s.commands)[i]) {
      assert Map(CommandLine, s.commands)[i] == CommandLine(s.commands[i]);
    }
    CleanConcat(Paragraph(o, s.description, "    "), Map(CommandLine, s.commands));
  }

  lemma {:induction false} AllSuggestionsClean(o: Options, ss: seq<Suggestion>)
    requires forall i :: 0 <= i < |ss| ==> Free(ss[i].description) && AllFree(ss[i].commands)
    ensures Clean(AllSuggestions(o, ss))
  {
    if ss != [] {
      AllSuggestionsClean(o, Front(ss));
      SuggestionClean(o, Last(ss));
      var gap: seq<Rendering.Line> := if |ss| > 1 then [Bare("")] else [];
      assert Free("");
      assert Clean(gap);
      CleanConcat(AllSuggestions(o, Front(ss)), gap);
      CleanConcat(AllSuggestions(o, Front(ss)) + gap, SuggestionLines(o, Last(ss)));
    }
  }

  lemma SuggestionsClean(o: Options, ss: seq<Suggestion>)
    requires forall i :: 0 <= i < |ss| ==> Free(ss[i].description) && AllFree(ss[i].commands)
    ensures Clean(SuggestionsPart(o, ss))
  {
    AllSuggestionsClean(o, ss);
    var one, many := "  Suggested action", "  Suggested actions";
    assert Free("") && Free(one) && Free(many);
    var title := if |ss| == 1 then one else many;
    assert Clean([Bare(""), Bare(title)]);
    CleanConcat([Bare(""), Bare(title)], AllSuggestions(o, ss));
  }

  lemma RuleClean(o: Options, d: Diagnosis)
    requires FreeFinding(o, d)
    ensures Clean(RulePart(o, d))
  {
    var rule, confidence, severity := "rule ", ", confidence ", ", severity ";
    assert Free("") && Free("  ") && Free(rule) && Free(confidence) && Free(severity);
    FreeConcat(confidence, ConfidenceText(d.confidence));
    FreeConcat(confidence + ConfidenceText(d.confidence), severity);
    FreeConcat(confidence + ConfidenceText(d.confidence) + severity, SeverityText(d.severity));
    assert CleanLine(RuleLine(o, d));
  }

  lemma HeadingFree(h: Heading)
    ensures Free(HeadingText(h))
  {
  }

  lemma ExplainingClean(o: Options, d: Diagnosis)
    requires Free(d.explanation)
    ensures Clean(Explaining(o, d))
  {
    assert Free("") && Free("  ");
    ParagraphClean(o, d.explanation, "  ");
    assert Clean([Bare("")]);
    CleanConcat([Bare("")], Paragraph(o, d.explanation, "  "));
  }

  lemma FindingClean(o: Options, d: Diagnosis, h: Heading)
    requires FreeFinding(o, d)
    ensures Clean(FindingLines(o, d, h))
  {
    HeadingFree(h);
    SummaryFree(d);
    assert Free("  ");
    var head: seq<Rendering.Line> := [[Painted(Tone(d.severity), HeadingText(h))]];
    assert Clean(head);
    var summary, why := Paragraph(o, Summary(d), "  "), Explaining(o, d);
    var evidence, causes := EvidencePart(o, d.evidence), CausesPart(o, d.possibleCauses);
    var suggestions, rule := SuggestionsPart(o, d.suggestions), RulePart(o, d);
    ParagraphClean(o, Summary(d), "  ");
    ExplainingClean(o, d);
    EvidenceClean(o, d.evidence);
    CausesClean(o, d.possibleCauses);
    SuggestionsClean(o, d.suggestions);
    RuleClean(o, d);
    CleanConcat(head, summary);
    CleanConcat(head + summary, why);
    CleanConcat(head + summary + why, evidence);
    CleanConcat(head + summary + why + evidence, causes);
    CleanConcat(head + summary + why + evidence + causes, suggestions);
    CleanConcat(head + summary + why + evidence + causes + suggestions, rule);
  }

  lemma {:induction false} AllFindingsClean(o: Options, ds: seq<Diagnosis>)
    requires forall i :: 0 <= i < |ds| ==> FreeFinding(o, ds[i])
    ensures Clean(AllFindings(o, ds))
  {
    if ds != [] {
      var h := HeadingOf(Last(ds), |ds| == 1, IDs(Front(ds)));
      AllFindingsClean(o, Front(ds));
      FindingClean(o, Last(ds), h);
      assert Free("");
      assert Clean([Bare("")]);
      CleanConcat(AllFindings(o, Front(ds)), [Bare("")]);
      CleanConcat(AllFindings(o, Front(ds)) + [Bare("")], FindingLines(o, Last(ds), h));
    }
  }

  lemma ItemClean(kw: int, vw: int, i: Item)
    requires FreeItem(i)
    ensures CleanLine(OneItem(kw, vw, i))
  {
    var two := "  ";
    assert Free(two);
    SpacesFree(kw - |i.key|);
    SpacesFree(vw - |i.value|);
    FreeConcat(two, i.key);
    FreeConcat(two + i.key, Fill(i.key, kw));
    FreeConcat(two + i.key + Fill(i.key, kw), two);
    FreeConcat(Fill(i.value, vw), two);
  }

  lemma TreeClean(o: Options, tree: seq<string>)
    requires AllFree(tree)
    ensures Clean(TreeLines(o, tree))
  {
    SymbolsFree(o);
    var two, one := "  ", " ";
    assert Free(two) && Free(one);
    forall i | 0 <= i < |tree| ensures CleanLine(TreeLines(o, tree)[i]) {
      assert TreeLines(o, tree)[i] == TreeLine(o, tree, i);
      SpacesFree(3 * (i - 1));
      FreeConcat(two, tree[i]);
      FreeConcat(two, Spaces(3 * (i - 1)));
      FreeConcat(two + Spaces(3 * (i - 1)), Branch(o));
      FreeConcat(two + Spaces(3 * (i - 1)) + Branch(o), one);
      FreeConcat(two + Spaces(3 * (i - 1)) + Branch(o) + one, tree[i]);
    }
  }

  lemma SectionClean(o: Options, s: Section)
    requires FreeSection(s)
    ensures Clean(SectionLines(o)(s))
  {
    var kw, vw := KeyWidth(s.items), ValueWidth(s.items);
    var title: seq<Rendering.Line> := [[Painted(InkBold, s.title)]];
    var items := Map(ItemLine(kw, vw), s.items);
    assert Clean(title);
    forall i | 0 <= i < |items| ensures CleanLine(items[i]) {
      ItemClean(kw, vw, s.items[i]);
      assert items[i] == OneItem(kw, vw, s.items[i]);
    }
    TreeClean(o, s.tree);
    CleanConcat(title, items);
    CleanConcat(title + items, TreeLines(o, s.tree));
    assert Free("");
    assert Clean([Bare("")]);
    CleanConcat([Bare("")], OneSection(o, s));
  }

  lemma DegradationClean(o: Options, d: Degradation)
    requires FreeDegradation(d)
    ensures Clean(OneDegradation(o, d))
  {
    var read, here, two, four := "KubeWhy could not read ", " in this cluster.", "  ", "    ";
    var required, returned := "  Required for", "  Kubernetes returned";
    assert Free(read) && Free(here) && Free(two) && Free(four) && Free("") && Free(required) && Free(returned);
    FreeConcat(read, d.resource);
    FreeConcat(read + d.resource, here);
    var a := Paragraph(o, read + d.resource + here, two);
    ParagraphClean(o, read + d.resource + here, two);
    ParagraphClean(o, d.requiredFor, four);
    ParagraphClean(o, Detail(d), four);
    var b: seq<Rendering.Line> := if d.requiredFor == "" then [] else [Bare(""), Bare(required)] + Paragraph(o, d.requiredFor, four);
    assert Clean([Bare(""), Bare(required)]) && Clean([Bare(""), Bare(returned)]) && Clean([Bare("")]);
    CleanConcat([Bare(""), Bare(required)], Paragraph(o, d.requiredFor, four));
    var c := [Bare(""), Bare(returned)] + Paragraph(o, Detail(d), four);
    CleanConcat([Bare(""), Bare(returned)], Paragraph(o, Detail(d), four));
    CleanConcat([Bare("")], a);
    CleanConcat([Bare("")] + a, b);
    CleanConcat([Bare("")] + a + b, c);
  }

  lemma IncompleteClean(o: Options, ds: seq<Degradation>)
    requires forall i :: 0 <= i < |ds| ==> FreeDegradation(ds[i])
    ensures Clean(Incomplete(o, ds))
  {
    forall i | 0 <= i < |ds| ensures Clean(DegradationLines(o)(ds[i])) {
      DegradationClean(o, ds[i]);
      assert DegradationLines(o)(ds[i]) == OneDegradation(o, ds[i]);
    }
    CleanFlatMap(DegradationLines(o), ds);
    SymbolsFree(o);
    var title := "Diagnosis is incomplete";
    assert Free("") && Free(" ") && Free(title);
    var head: seq<Rendering.Line> := [Bare(""), [Painted(InkYellow, Warn(o)), Plain(" "), Painted(InkBold, title)]];
    assert Clean(head);
    CleanConcat(head, FlatMap(DegradationLines(o), ds));
  }

  lemma ReassuranceClean(r: Contents)
    ensures Clean(Reassurance(r))
  {
    var fine := "No obvious Kubernetes-level issue detected.";
    assert Free("") && Free(fine);
    BareClean("");
    BareClean(fine);
  }

  lemma InspectedClean(o: Options, items: seq<string>)
    requires AllFree(items)
    ensures Clean(InspectedPart(o, items))
  {
    var title, two := "Inspected", "  ";
    assert Free("") && Free(title) && Free(two);
    IndentedClean(items, two);
    var head: seq<Rendering.Line> := [Bare(""), [Painted(InkBold, title)]];
    assert Clean(head);
    CleanConcat(head, Map(Indented(two), items));
  }

  lemma DocumentClean(o: Options, r: Contents)
    requires FreeReport(o, r)
    ensures Clean(Document(o, r))
  {
    var head, findings, sections := [Headline(o, r)], AllFindings(o, r.diagnoses), FlatMap(SectionLines(o), r.overview);
    var incomplete, fine, inspected := Incomplete(o, r.degradations), Reassurance(r), InspectedPart(o, r.inspected);
    HeadlineClean(o, r);
    AllFindingsClean(o, r.diagnoses);
    forall i | 0 <= i < |r.overview| ensures Clean(SectionLines(o)(r.overview[i])) {
      SectionClean(o, r.overview[i]);
    }
    CleanFlatMap(SectionLines(o), r.overview);
    IncompleteClean(o, r.degradations);
    ReassuranceClean(r);
    InspectedClean(o, r.inspected);
    CleanConcat(head, findings);
    CleanConcat(head + findings, sections);
    CleanConcat(head + findings + sections, incomplete);
    CleanConcat(head + findings + sections + incomplete, fine);
    CleanConcat(head + findings + sections + incomplete + fine, inspected);
  }

  /** For a report whose text contains no escape character, stripping the coloured output gives
      exactly the plain output: every pass, every heading and all column padding included. */
  lemma ColourIsErasable(t: TextOptions, r: Contents)
    requires FreeReport(t.Plan(), r)
    ensures Strip(Rendered(t.(style := t.style.(color := true)), r)) == Rendered(t.(style := t.style.(color := false)), r)
  {
    var on, off := t.style.(color := true), t.style.(color := false);
    var lines := Document(t.Plan(), r);
    assert t.(style := on).Plan() == t.Plan() == t.(style := off).Plan();
    DocumentClean(t.Plan(), r);
    PrintedErases(on, off, lines);
    ErasesAfter(Printed(on, lines), Printed(off, lines), "");
    assert Printed(on, lines) + "" == Printed(on, lines) && Printed(off, lines) + Strip("") == Printed(off, lines);
  }
}
