/** How a report is laid out: what stands at the left margin, and what is indented under it. */
module Margins {
  import opened Sequences
  import opened Model
  import opened Reports
  import opened Layout
  import opened Rendering
  import opened Outline

  // ---- Lines at the margin ----

  /** Empty, or indented by two columns or more. */
  predicate Hanging(s: string) {
    s == "" || "  " <= s
  }

  predicate AtMargin(s: string) {
    !Hanging(s)
  }

  function Texts(lines: seq<Line>): seq<string> {
    Map(Said, lines)
  }

  /** What can be read along the left margin. */
  function Margin(lines: seq<Line>): seq<string> {
    Filter(AtMargin, Texts(lines))
  }

  ghost predicate AllHang(lines: seq<Line>) {
    forall line :: line in lines ==> Hanging(Said(line))
  }

  lemma {:induction false} FilterConcat(a: seq<string>, b: seq<string>)
    ensures Filter(AtMargin, a + b) == Filter(AtMargin, a) + Filter(AtMargin, b)
  {
    if b == [] {
      assert a + b == a;
    } else {
      FilterConcat(a, Front(b));
      assert Front(a + b) == a + Front(b);
    }
  }

  lemma MarginConcat(a: seq<Line>, b: seq<Line>)
    ensures Margin(a + b) == Margin(a) + Margin(b)
  {
    assert Texts(a + b) == Texts(a) + Texts(b);
    FilterConcat(Texts(a), Texts(b));
  }

  lemma {:induction false} NothingAtMargin(lines: seq<Line>)
    requires AllHang(lines)
    ensures Margin(lines) == []
  {
    if lines != [] {
      NothingAtMargin(Front(lines));
      Snoc(lines);
      MapSnoc(Said, Front(lines), Last(lines));
    }
  }

  // ---- Blocks: a blank line, a line at the margin, and what hangs under it ----

  ghost predicate Block(lines: seq<Line>, head: string) {
    |lines| >= 2 && Said(lines[0]) == "" && Said(lines[1]) == head && AllHang(lines[2..])
  }

  lemma AsBlock(head: Line, under: seq<Line>)
    requires AllHang(under)
    ensures Block([Bare("")] + ([head] + under), Said(head)) && [Bare("")] + ([head] + under) == [Bare(""), head] + under
  {
    Said1(Plain(""));
    assert ([Bare("")] + ([head] + under))[2..] == under;
  }

  lemma BlockMargin(lines: seq<Line>, head: string)
    requires Block(lines, head)
    ensures Margin(lines) == Filter(AtMargin, [head])
  {
    assert lines == lines[..1] + lines[1..2] + lines[2..];
    MarginConcat(lines[..1] + lines[1..2], lines[2..]);
    MarginConcat(lines[..1], lines[1..2]);
    NothingAtMargin(lines[2..]);
    NothingAtMargin(lines[..1]);
    assert Texts(lines[1..2]) == [head];
  }

  /** Whatever stands at the margin has a blank line above it. */
  ghost predicate Spaced(lines: seq<Line>) {
    forall i :: 0 <= i < |lines| && AtMargin(Said(lines[i])) ==> i > 0 && Said(lines[i - 1]) == ""
  }

  lemma SpacedConcat(a: seq<Line>, b: seq<Line>)
    requires Spaced(a) && Spaced(b)
    ensures Spaced(a + b)
  {
    forall i | 0 <= i < |a + b| && AtMargin(Said((a + b)[i])) ensures i > 0 && Said((a + b)[i - 1]) == "" {
      if i >= |a| {
        assert AtMargin(Said(b[i - |a|]));
      }
    }
  }

  lemma BlockSpaced(lines: seq<Line>, head: string)
    requires Block(lines, head)
    ensures Spaced(lines)
  {
    forall i | 2 <= i < |lines| ensures Hanging(Said(lines[i])) {
      assert lines[2..][i - 2] in lines[2..];
    }
  }

  lemma FindingsGrow(o: Options, ds: seq<Diagnosis>)
    requires ds != []
    ensures AllFindings(o, ds)
         == AllFindings(o, Front(ds)) + ([Bare("")] + FindingLines(o, Last(ds), HeadingOf(Last(ds), |ds| == 1, IDs(Front(ds)))))
  {
    Regrouped(AllFindings(o, Front(ds)), [Bare("")], FindingLines(o, Last(ds), HeadingOf(Last(ds), |ds| == 1, IDs(Front(ds)))));
  }

  lemma FindingMargin(o: Options, ds: seq<Diagnosis>)
    requires ds != []
    requires Margin(AllFindings(o, Front(ds))) == Filter(AtMargin, Headings(Front(ds))) && Spaced(AllFindings(o, Front(ds)))
    ensures Margin(AllFindings(o, ds)) == Filter(AtMargin, Headings(ds)) && Spaced(AllFindings(o, ds))
  {
    var a, h := AllFindings(o, Front(ds)), HeadingOf(Last(ds), |ds| == 1, IDs(Front(ds)));
    var b := [Bare("")] + FindingLines(o, Last(ds), h);
    FindingHangs(o, Last(ds), h);
    HeadingIs(ds, |ds| - 1);
    FindingsGrow(o, ds);
    OneMoreBlock(a, b, Headings(Front(ds)), HeadingText(h));
  }

  lemma OneMoreBlock(a: seq<Line>, b: seq<Line>, heads: seq<string>, head: string)
    requires Margin(a) == Filter(AtMargin, heads) && Spaced(a) && Block(b, head)
    ensures Margin(a + b) == Filter(AtMargin, heads + [head]) && Spaced(a + b)
  {
    BlockMargin(b, head);
    BlockSpaced(b, head);
    MarginConcat(a, b);
    SpacedConcat(a, b);
    FilterConcat(heads, [head]);
  }

  lemma Reassociated<T>(a: seq<T>, b: seq<T>, c: seq<T>, d: seq<T>, e: seq<T>, f: seq<T>, g: seq<T>)
    ensures a + b + c + d + e + f + g == a + (b + c + d + e + f + g)
  {
  }

  // ---- What hangs ----

  lemma HangConcat(a: seq<Line>, b: seq<Line>)
    requires AllHang(a) && AllHang(b)
    ensures AllHang(a + b)
  {
  }

  lemma BareHangs(text: string)
    requires Hanging(text)
    ensures AllHang([Bare(text)])
  {
    Said1(Plain(text));
  }

  lemma BlankHangs()
    ensures AllHang([Bare("")])
  {
    BareHangs("");
  }

  lemma TitleHangs(text: string)
    ensures AllHang([Bare(""), Bare("  " + text)])
  {
    BareHangs("");
    BareHangs("  " + text);
  }

  lemma ParagraphHangs(o: Options, text: string, indent: string)
    requires "  " <= indent
    ensures AllHang(Paragraph(o, text, indent))
  {
    var ls := Wrapped(text, Room(o, |indent|));
    forall line | line in Paragraph(o, text, indent) ensures Hanging(Said(line)) {
      var i :| 0 <= i < |ls| && line == Bare(indent + ls[i]);
      Said1(Plain(indent + ls[i]));
    }
  }

  lemma {:induction false} FlatHangs<T>(f: T -> seq<Line>, s: seq<T>)
    requires forall x :: AllHang(f(x))
    ensures AllHang(FlatMap(f, s))
  {
    if s != [] {
      FlatHangs(f, Front(s));
      HangConcat(FlatMap(f, Front(s)), f(Last(s)));
    }
  }

  lemma {:induction false} SpansHang(line: Line)
    requires line != [] && "  " <= line[0].text
    ensures "  " <= Said(line)
  {
    if |line| == 1 {
      Said1(line[0]);
    } else {
      SpansHang(Front(line));
    }
  }

  lemma EvidenceHangs(o: Options, width: int, e: Evidence)
    ensures AllHang(EvidenceItem(o, width)(e))
  {
    SpansHang(EvidenceLine(e, width));
    ParagraphHangs(o, e.message, "      ");
  }

  lemma EvidenceListHangs(o: Options, width: int, shown: seq<Evidence>)
    ensures AllHang(FlatMap(EvidenceItem(o, width), shown))
  {
    forall e ensures AllHang(EvidenceItem(o, width)(e)) {
      EvidenceHangs(o, width, e);
    }
    FlatHangs(EvidenceItem(o, width), shown);
  }

  lemma MoreHangs(n: int)
    ensures AllHang([MoreLine(n)])
  {
    SpansHang(MoreLine(n));
  }

  lemma EvidenceLinesHang(o: Options, es: seq<Evidence>)
    ensures AllHang(EvidenceLines(o, es))
  {
    var shown := ShownEvidence(o, es);
    EvidenceListHangs(o, LabelWidth(shown), shown);
    MoreHangs(|es| - |shown|);
  }

  lemma EvidencePartHangs(o: Options, es: seq<Evidence>)
    ensures AllHang(EvidencePart(o, es))
  {
    if es != [] {
      EvidenceLinesHang(o, es);
      TitleHangs("Evidence");
    }
  }

  lemma BulletHangs(o: Options, text: string)
    ensures AllHang(OneBullet(o, text))
  {
    var marker := BulletMark(o) + " ";
    var ls, out := Wrapped(text, Room(o, |"    " + Spaces(|marker|)|)), OneBullet(o, text);
    forall line | line in out ensures Hanging(Said(line)) {
      var i :| 0 <= i < |out| && out[i] == line;
      assert line == Bare((if i == 0 then "    " + marker else "    " + Spaces(|marker|)) + ls[i]);
      SpansHang(line);
    }
  }

  lemma CausesHang(o: Options, causes: seq<string>)
    ensures AllHang(CausesPart(o, causes))
  {
    forall text ensures AllHang(Bullet(o)(text)) {
      BulletHangs(o, text);
    }
    FlatHangs(Bullet(o), causes);
    TitleHangs("Possible causes");
  }

  lemma SuggestionHangs(o: Options, s: Suggestion)
    ensures AllHang(SuggestionLines(o, s))
  {
    ParagraphHangs(o, s.description, "    ");
    forall cmd ensures Hanging(Said(CommandLine(cmd))) {
      SpansHang(CommandLine(cmd));
    }
    var out := Map(CommandLine, s.commands);
    assert forall line :: line in out ==> exists i :: 0 <= i < |s.commands| && line == CommandLine(s.commands[i]);
  }

  lemma {:induction false} SuggestionsHang(o: Options, ss: seq<Suggestion>)
    ensures AllHang(AllSuggestions(o, ss))
  {
    if ss != [] {
      SuggestionsHang(o, Front(ss));
      BlankHangs();
      SuggestionHangs(o, Last(ss));
    }
  }

  lemma ExplainingHangs(o: Options, d: Diagnosis)
    ensures AllHang(Explaining(o, d))
  {
    BlankHangs();
    ParagraphHangs(o, d.explanation, "  ");
  }

  lemma SuggestionsPartHangs(o: Options, ss: seq<Suggestion>)
    ensures AllHang(SuggestionsPart(o, ss))
  {
    SuggestionsHang(o, ss);
    TitleHangs("Suggested action");
    TitleHangs("Suggested actions");
  }

  lemma RuleHangs(o: Options, d: Diagnosis)
    ensures AllHang(RulePart(o, d))
  {
    BlankHangs();
    SpansHang(RuleLine(o, d));
  }

  function Under(o: Options, d: Diagnosis): seq<Line> {
    Paragraph(o, Summary(d), "  ") + Explaining(o, d) + EvidencePart(o, d.evidence) + CausesPart(o, d.possibleCauses)
    + SuggestionsPart(o, d.suggestions) + RulePart(o, d)
  }

  lemma UnderHangs(o: Options, d: Diagnosis)
    ensures AllHang(Under(o, d))
  {
    ParagraphHangs(o, Summary(d), "  ");
    EvidencePartHangs(o, d.evidence);
    CausesHang(o, d.possibleCauses);
    ExplainingHangs(o, d);
    SuggestionsPartHangs(o, d.suggestions);
    RuleHangs(o, d);
  }

  lemma FindingHangs(o: Options, d: Diagnosis, h: Heading)
    ensures Block([Bare("")] + FindingLines(o, d, h), HeadingText(h))
  {
    UnderHangs(o, d);
    Reassociated([[Painted(Tone(d.severity), HeadingText(h))]], Paragraph(o, Summary(d), "  "), Explaining(o, d), EvidencePart(o, d.evidence),
                 CausesPart(o, d.possibleCauses), SuggestionsPart(o, d.suggestions), RulePart(o, d));
    AsBlock([Painted(Tone(d.severity), HeadingText(h))], Under(o, d));
    Said1(Painted(Tone(d.severity), HeadingText(h)));
  }

  // ---- Sections and what could not be read ----

  lemma ItemHangs(kw: int, vw: int, i: Item)
    ensures Hanging(Said(OneItem(kw, vw, i)))
  {
    SpansHang(OneItem(kw, vw, i));
  }

  lemma ItemsHang(kw: int, vw: int, items: seq<Item>)
    ensures AllHang(Map(ItemLine(kw, vw), items))
  {
    var out := Map(ItemLine(kw, vw), items);
    forall line | line in out ensures Hanging(Said(line)) {
      var k :| 0 <= k < |items| && out[k] == line;
      ItemHangs(kw, vw, items[k]);
    }
  }

  lemma TreeHangs(o: Options, tree: seq<string>)
    ensures AllHang(TreeLines(o, tree))
  {
    var out := TreeLines(o, tree);
    forall line | line in out ensures Hanging(Said(line)) {
      var i :| 0 <= i < |tree| && out[i] == line;
      assert line == TreeLine(o, tree, i);
      SpansHang(line);
    }
  }

  lemma SectionHangs(o: Options, s: Section)
    ensures Block(SectionLines(o)(s), s.title)
  {
    var kw, vw := KeyWidth(s.items), ValueWidth(s.items);
    ItemsHang(kw, vw, s.items);
    TreeHangs(o, s.tree);
    assert SectionLines(o)(s)[2..] == Map(ItemLine(kw, vw), s.items) + TreeLines(o, s.tree);
    Said1(Plain(""));
    Said1(Painted(InkBold, s.title));
  }

  lemma DegradationHangs(o: Options, d: Degradation)
    ensures AllHang(OneDegradation(o, d))
  {
    BlankHangs();
    TitleHangs("Required for");
    TitleHangs("Kubernetes returned");
    ParagraphHangs(o, "KubeWhy could not read " + d.resource + " in this cluster.", "  ");
    ParagraphHangs(o, d.requiredFor, "    ");
    ParagraphHangs(o, Detail(d), "    ");
  }

  const INCOMPLETE := "Diagnosis is incomplete"
  const CALM := "No obvious Kubernetes-level issue detected."

  lemma SayIncomplete(o: Options)
    ensures Said([Painted(InkYellow, Warn(o)), Plain(" "), Painted(InkBold, INCOMPLETE)]) == Warn(o) + " " + INCOMPLETE
  {
    Said3(Painted(InkYellow, Warn(o)), Plain(" "), Painted(InkBold, INCOMPLETE));
  }

  lemma IncompleteHangs(o: Options, ds: seq<Degradation>)
    requires ds != []
    ensures Block(Incomplete(o, ds), Warn(o) + " " + INCOMPLETE)
  {
    forall d ensures AllHang(DegradationLines(o)(d)) {
      DegradationHangs(o, d);
    }
    FlatHangs(DegradationLines(o), ds);
    SayIncomplete(o);
    AsBlock([Painted(InkYellow, Warn(o)), Plain(" "), Painted(InkBold, INCOMPLETE)], FlatMap(DegradationLines(o), ds));
  }

  lemma InspectedHangs(o: Options, items: seq<string>)
    requires o.verbose && items != []
    ensures Block(InspectedPart(o, items), "Inspected")
  {
    var lines := Map(Indented("  "), items);
    forall line | line in lines ensures Hanging(Said(line)) {
      var i :| 0 <= i < |items| && line == Bare("  " + items[i]);
      Said1(Plain("  " + items[i]));
    }
    assert InspectedPart(o, items)[2..] == lines;
    Said1(Plain(""));
    Said1(Painted(InkBold, "Inspected"));
  }

  // ---- The whole report ----

  ghost function Headings(ds: seq<Diagnosis>): seq<string> {
    if ds == [] then [] else Headings(Front(ds)) + [HeadingAt(ds, |ds| - 1)]
  }

  function TitleOf(s: Section): string {
    s.title
  }

  /** What a reader sees at the left margin: the headline, a heading for every finding, the titles of the
      sections, and how complete and how reassuring the report is. */
  ghost function MarginTexts(o: Options, r: Contents): seq<string> {
    [SignOf(o, r.status) + " " + r.headline] + Headings(r.diagnoses) + Map(TitleOf, r.overview)
    + (if r.degradations == [] then [] else [SignOf(o, Degraded) + " " + INCOMPLETE])
    + (if r.status == Healthy then [CALM] else [])
    + (if o.verbose && r.inspected != [] then ["Inspected"] else [])
  }

  lemma {:induction false} FindingsMargin(o: Options, ds: seq<Diagnosis>)
    ensures Margin(AllFindings(o, ds)) == Filter(AtMargin, Headings(ds)) && Spaced(AllFindings(o, ds))
  {
    if ds != [] {
      FindingsMargin(o, Front(ds));
      FindingMargin(o, ds);
    }
  }

  lemma {:induction false} SectionsMargin(o: Options, ss: seq<Section>)
    ensures Margin(FlatMap(SectionLines(o), ss)) == Filter(AtMargin, Map(TitleOf, ss)) && Spaced(FlatMap(SectionLines(o), ss))
  {
    if ss != [] {
      var a, b := FlatMap(SectionLines(o), Front(ss)), SectionLines(o)(Last(ss));
      SectionsMargin(o, Front(ss));
      SectionHangs(o, Last(ss));
      Snoc(ss);
      MapSnoc(TitleOf, Front(ss), Last(ss));
      OneMoreBlock(a, b, Map(TitleOf, Front(ss)), Last(ss).title);
    }
  }

  lemma MaybeBlock(lines: seq<Line>, some: bool, head: string)
    requires if some then Block(lines, head) else lines == []
    ensures Margin(lines) == Filter(AtMargin, if some then [head] else []) && Spaced(lines)
  {
    if some {
      BlockMargin(lines, head);
      BlockSpaced(lines, head);
    }
  }

  lemma IncompleteMargin(o: Options, ds: seq<Degradation>)
    ensures Margin(Incomplete(o, ds)) == Filter(AtMargin, if ds == [] then [] else [SignOf(o, Degraded) + " " + INCOMPLETE])
    ensures Spaced(Incomplete(o, ds))
  {
    if ds != [] {
      IncompleteHangs(o, ds);
    }
    MaybeBlock(Incomplete(o, ds), ds != [], SignOf(o, Degraded) + " " + INCOMPLETE);
  }

  lemma CalmMargin(r: Contents)
    ensures Margin(Reassurance(r)) == Filter(AtMargin, if r.status == Healthy then [CALM] else [])
    ensures Spaced(Reassurance(r))
  {
    AsBlock(Bare(CALM), []);
    Said1(Plain(CALM));
    assert r.status == Healthy ==> Reassurance(r) == [Bare(""), Bare(CALM)] + [];
    MaybeBlock(Reassurance(r), r.status == Healthy, CALM);
  }

  lemma InspectedMargin(o: Options, items: seq<string>)
    ensures Margin(InspectedPart(o, items)) == Filter(AtMargin, if o.verbose && items != [] then ["Inspected"] else [])
    ensures Spaced(InspectedPart(o, items))
  {
    if o.verbose && items != [] {
      InspectedHangs(o, items);
    }
    MaybeBlock(InspectedPart(o, items), o.verbose && items != [], "Inspected");
  }

  lemma SayHeadline(o: Options, r: Contents)
    ensures Said(Headline(o, r)) == SignOf(o, r.status) + " " + r.headline
  {
    var line := Headline(o, r);
    Said3(line[0], line[1], line[2]);
  }

  function Body(o: Options, r: Contents): seq<Line> {
    AllFindings(o, r.diagnoses) + FlatMap(SectionLines(o), r.overview) + Incomplete(o, r.degradations) + Reassurance(r)
    + InspectedPart(o, r.inspected)
  }

  lemma BodySpaced(o: Options, r: Contents)
    ensures Document(o, r) == [Headline(o, r)] + Body(o, r) && Spaced(Body(o, r))
  {
    var found, sections := AllFindings(o, r.diagnoses), FlatMap(SectionLines(o), r.overview);
    var missing, calm, seen := Incomplete(o, r.degradations), Reassurance(r), InspectedPart(o, r.inspected);
    FindingsMargin(o, r.diagnoses);
    SectionsMargin(o, r.overview);
    IncompleteMargin(o, r.degradations);
    CalmMargin(r);
    InspectedMargin(o, r.inspected);
    SpacedConcat(found, sections);
    SpacedConcat(found + sections, missing);
    SpacedConcat(found + sections + missing, calm);
    SpacedConcat(found + sections + missing + calm, seen);
    Reassociated([Headline(o, r)], found, sections, missing, calm, seen, []);
    assert Document(o, r) + [] == Document(o, r) && Body(o, r) + [] == Body(o, r);
  }

  lemma DocumentMargin(o: Options, r: Contents)
    ensures Margin(Document(o, r)) == Filter(AtMargin, MarginTexts(o, r))
  {
    SayHeadline(o, r);
    FindingsMargin(o, r.diagnoses);
    SectionsMargin(o, r.overview);
    IncompleteMargin(o, r.degradations);
    CalmMargin(r);
    InspectedMargin(o, r.inspected);
    assert Texts([Headline(o, r)]) == [SignOf(o, r.status) + " " + r.headline];
    SixParts([Headline(o, r)], AllFindings(o, r.diagnoses), FlatMap(SectionLines(o), r.overview),
             Incomplete(o, r.degradations), Reassurance(r), InspectedPart(o, r.inspected),
             [SignOf(o, r.status) + " " + r.headline], Headings(r.diagnoses), Map(TitleOf, r.overview),
             if r.degradations == [] then [] else [SignOf(o, Degraded) + " " + INCOMPLETE],
             if r.status == Healthy then [CALM] else [],
             if o.verbose && r.inspected != [] then ["Inspected"] else []);
  }

  lemma SixParts(a: seq<Line>, b: seq<Line>, c: seq<Line>, d: seq<Line>, e: seq<Line>, f: seq<Line>,
                 u: seq<string>, v: seq<string>, w: seq<string>, x: seq<string>, y: seq<string>, z: seq<string>)
    requires Margin(a) == Filter(AtMargin, u) && Margin(b) == Filter(AtMargin, v) && Margin(c) == Filter(AtMargin, w)
    requires Margin(d) == Filter(AtMargin, x) && Margin(e) == Filter(AtMargin, y) && Margin(f) == Filter(AtMargin, z)
    ensures Margin(a + b + c + d + e + f) == Filter(AtMargin, u + v + w + x + y + z)
  {
    SixMargins(a, b, c, d, e, f);
    SixTexts(u, v, w, x, y, z);
  }

  /** Along the margin a report reads as its headline, headings and titles, in order: everything else
      hangs under them, and a blank line stands above each but the first. */
  lemma MarginReads(o: Options, r: Contents)
    ensures Margin(Document(o, r)) == Filter(AtMargin, MarginTexts(o, r))
    ensures Document(o, r) != [] && Spaced(Document(o, r)[1..])
  {
    BodySpaced(o, r);
    DocumentMargin(o, r);
    assert Document(o, r)[1..] == Body(o, r);
  }

  lemma SixMargins(a: seq<Line>, b: seq<Line>, c: seq<Line>, d: seq<Line>, e: seq<Line>, f: seq<Line>)
    ensures Margin(a + b + c + d + e + f) == Margin(a) + Margin(b) + Margin(c) + Margin(d) + Margin(e) + Margin(f)
  {
    MarginConcat(a, b);
    MarginConcat(a + b, c);
    MarginConcat(a + b + c, d);
    MarginConcat(a + b + c + d, e);
    MarginConcat(a + b + c + d + e, f);
  }

  lemma SixTexts(a: seq<string>, b: seq<string>, c: seq<string>, d: seq<string>, e: seq<string>, f: seq<string>)
    ensures Filter(AtMargin, a + b + c + d + e + f)
         == Filter(AtMargin, a) + Filter(AtMargin, b) + Filter(AtMargin, c) + Filter(AtMargin, d) + Filter(AtMargin, e) + Filter(AtMargin, f)
  {
    FilterConcat(a, b);
    FilterConcat(a + b, c);
    FilterConcat(a + b + c, d);
    FilterConcat(a + b + c + d, e);
    FilterConcat(a + b + c + d + e, f);
  }
}
