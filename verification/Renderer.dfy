/** The renderer as it runs: strings built piece by piece, written line by line to a writer that may
    fail (textRenderer of internal/output/text.go). */
module Renderer {
  import opened Sequences
  import opened Text
  import opened Model
  import opened Reports
  import opened Layout
  import opened Colour
  import opened Rendering

  function ShowIn(st: Style): Rendering.Line -> string {
    (line: Rendering.Line) => Show(st, line)
  }

  function Texts(st: Style, lines: seq<Rendering.Line>): seq<string> {
    Map(ShowIn(st), lines)
  }

  lemma Grow(st: Style, base: seq<string>, a: seq<Rendering.Line>, b: seq<Rendering.Line>)
    ensures base + Texts(st, a) + Texts(st, b) == base + Texts(st, a + b)
  {
    assert Texts(st, a + b) == Texts(st, a) + Texts(st, b);
  }

  lemma GrowLine(st: Style, base: seq<string>, a: seq<Rendering.Line>, line: Rendering.Line)
    ensures base + Texts(st, a) + [Show(st, line)] == base + Texts(st, a + [line])
  {
    assert Texts(st, [line]) == [Show(st, line)];
    Grow(st, base, a, [line]);
  }

  /** What reaches a writer that accepts only so many writes. */
  function Delivered(accepts: Option<nat>, wanted: seq<string>): seq<string> {
    if accepts.Some? && |wanted| > accepts.value then wanted[..accepts.value] else wanted
  }

  class TextRenderer {
    const t: TextOptions
    const o: Options
    const accepts: Option<nat>
    var written: seq<string>
    var failed: bool
    ghost var wanted: seq<string>

    ghost predicate Valid()
      reads this
    {
      && o == t.Plan() && written == Delivered(accepts, wanted)
      && (failed <==> accepts.Some? && |wanted| > accepts.value)
    }

    constructor (t: TextOptions, accepts: Option<nat>)
      ensures Valid() && wanted == [] && this.t == t && this.accepts == accepts
    {
      this.t, this.o, this.accepts := t, t.Plan(), accepts;
      written, failed, wanted := [], false, [];
    }

    /** Once a write has failed nothing more is attempted. */
    method WriteLine(text: string)
      requires Valid()
      modifies this
      ensures Valid() && wanted == old(wanted) + [text]
    {
      wanted := wanted + [text];
      if failed {
        return;
      }
      if accepts.Some? && |written| == accepts.value {
        failed := true;
      } else {
        written := written + [text];
      }
    }

    /** Writes one line given as text, which shows the line `l` of the layout. */
    method Put(text: string, ghost base: seq<string>, ghost done: seq<Rendering.Line>, ghost l: Rendering.Line)
      requires Valid() && wanted == base + Texts(t.style, done) && text == Show(t.style, l)
      modifies this
      ensures Valid() && wanted == base + Texts(t.style, done + [l])
    {
      GrowLine(t.style, base, done, l);
      WriteLine(text);
    }

    /** Writes the next line of a block of plain lines. */
    method PutBare(text: string, ghost base: seq<string>, ghost block: seq<Rendering.Line>, ghost i: nat)
      requires Valid() && i < |block| && block[i] == Bare(text) && wanted == base + Texts(t.style, block[..i])
      modifies this
      ensures Valid() && wanted == base + Texts(t.style, block[..i + 1])
    {
      Show1(t.style, Plain(text));
      PrefixStep(block, i);
      Put(text, base, block[..i], block[i]);
    }

    method WriteBare(text: string)
      requires Valid()
      modifies this
      ensures Valid() && wanted == old(wanted) + Texts(t.style, [Bare(text)])
    {
      Show1(t.style, Plain(text));
      Put(text, wanted, [], Bare(text));
      assert [] + [Bare(text)] == [Bare(text)];
    }

    method WriteParagraph(text: string, indent: string)
      requires Valid()
      modifies this
      ensures Valid() && wanted == old(wanted) + Texts(t.style, Paragraph(o, text, indent))
    {
      ghost var base, block := wanted, Paragraph(o, text, indent);
      var lines := Wrap(text, Room(o, |indent|));
      for i := 0 to |lines|
        invariant Valid() && wanted == base + Texts(t.style, block[..i])
      {
        assert block[i] == Bare(indent + lines[i]);
        PutBare(indent + lines[i], base, block, i);
      }
      assert block[..|block|] == block;
    }

    method WriteHeadline(r: Contents)
      requires Valid()
      modifies this
      ensures Valid() && wanted == old(wanted) + Texts(t.style, [Headline(o, r)])
    {
      var symbol, ink := OK(o), InkGreen;
      match r.status {
        case Unhealthy => symbol, ink := Fail(o), InkRed;
        case Degraded => symbol, ink := Warn(o), InkYellow;
        case Unknown => symbol, ink := Warn(o), InkYellow;
        case Healthy =>
      }
      Show3(t.style, Painted(ink, symbol), Plain(" "), Painted(InkBold, r.headline));
      Put(Paint(t.style, Code(ink), symbol) + " " + Paint(t.style, Code(InkBold), r.headline), wanted, [], Headline(o, r));
      assert [] + [Headline(o, r)] == [Headline(o, r)];
    }

    method WriteEvidenceItem(e: Evidence, width: int)
      requires Valid()
      modifies this
      ensures Valid() && wanted == old(wanted) + Texts(t.style, EvidenceItem(o, width)(e))
    {
      ghost var base, line := wanted, EvidenceLine(e, width);
      var name := Label(e);
      var padding := Fill(name, width);
      EvidenceText(t.style, e, width);
      if e.value != "" {
        Put("    " + Paint(t.style, Code(InkDim), name) + padding + "  " + Value(t.style, e.value), base, [], line);
      } else {
        Put("    " + Paint(t.style, Code(InkDim), name), base, [], line);
      }
      assert [] + [line] == [line];
      WriteParagraph(e.message, "      ");
      Grow(t.style, base, [line], Paragraph(o, e.message, "      "));
    }

    method WriteEvidenceItems(shown: seq<Evidence>, width: int)
      requires Valid()
      modifies this
      ensures Valid() && wanted == old(wanted) + Texts(t.style, FlatMap(EvidenceItem(o, width), shown))
    {
      ghost var base, f := wanted, EvidenceItem(o, width);
      for i := 0 to |shown|
        invariant Valid() && wanted == base + Texts(t.style, FlatMap(f, shown[..i]))
      {
        PrefixStep(shown, i);
        Grow(t.style, base, FlatMap(f, shown[..i]), f(shown[i]));
        WriteEvidenceItem(shown[i], width);
      }
      assert shown[..|shown|] == shown;
    }

    method WriteEvidence(es: seq<Evidence>)
      requires Valid()
      modifies this
      ensures Valid() && wanted == old(wanted) + Texts(t.style, EvidenceLines(o, es))
    {
      ghost var base := wanted;
      var shown := if !o.verbose && |es| > 8 then es[..8] else es;
      var width := WidestLabel(shown);
      WriteEvidenceItems(shown, width);
      ghost var done := FlatMap(EvidenceItem(o, width), shown);
      if |shown| < |es| {
        var more := "... " + DecimalInt(|es| - |shown|) + " more (use --verbose)";
        Show2(t.style, Plain("    "), Painted(InkDim, more));
        Put("    " + Paint(t.style, Code(InkDim), more), base, done, MoreLine(|es| - |shown|));
      } else {
        assert done + [] == done;
      }
    }

    method WriteBullet(text: string)
      requires Valid()
      modifies this
      ensures Valid() && wanted == old(wanted) + Texts(t.style, OneBullet(o, text))
    {
      var marker := BulletMark(o) + " ";
      var hanging := "    " + Spaces(|marker|);
      var lines := Wrap(text, Room(o, |hanging|));
      WriteHanging("    " + marker, hanging, lines);
    }

    method WriteHanging(first: string, hanging: string, lines: seq<string>)
      requires Valid()
      modifies this
      ensures Valid() && wanted == old(wanted) + Texts(t.style, BulletLines(first, hanging, lines))
    {
      ghost var base, block := wanted, BulletLines(first, hanging, lines);
      for i := 0 to |lines|
        invariant Valid() && wanted == base + Texts(t.style, block[..i])
      {
        assert block[i] == BulletLine(first, hanging, lines, i);
        PutBare((if i == 0 then first else hanging) + lines[i], base, block, i);
      }
      assert block[..|block|] == block;
    }

    method WriteTitle(text: string)
      requires Valid()
      modifies this
      ensures Valid() && wanted == old(wanted) + Texts(t.style, [Bare(""), Bare(text)])
    {
      ghost var base := wanted;
      WriteBare("");
      WriteBare(text);
      Grow(t.style, base, [Bare("")], [Bare(text)]);
      assert [Bare("")] + [Bare(text)] == [Bare(""), Bare(text)];
    }

    method WriteCauses(causes: seq<string>)
      requires Valid()
      modifies this
      ensures Valid() && wanted == old(wanted) + Texts(t.style, CausesPart(o, causes))
    {
      ghost var base := wanted;
      if causes == [] {
        assert base + [] == base;
        return;
      }
      WriteTitle("  Possible causes");
      ghost var head := [Bare(""), Bare("  Possible causes")];
      for i := 0 to |causes|
        invariant Valid() && wanted == base + Texts(t.style, head) + Texts(t.style, FlatMap(Bullet(o), causes[..i]))
      {
        PrefixStep(causes, i);
        Grow(t.style, base + Texts(t.style, head), FlatMap(Bullet(o), causes[..i]), OneBullet(o, causes[i]));
        WriteBullet(causes[i]);
      }
      assert causes[..|causes|] == causes;
      Grow(t.style, base, head, FlatMap(Bullet(o), causes));
    }

    method WriteCommands(cmds: seq<string>)
      requires Valid()
      modifies this
      ensures Valid() && wanted == old(wanted) + Texts(t.style, Map(CommandLine, cmds))
    {
      ghost var base, block := wanted, Map(CommandLine, cmds);
      for i := 0 to |cmds|
        invariant Valid() && wanted == base + Texts(t.style, block[..i])
      {
        assert block[i] == CommandLine(cmds[i]);
        Show2(t.style, Plain("      "), Painted(InkCyan, cmds[i]));
        PrefixStep(block, i);
        Put("      " + Paint(t.style, Code(InkCyan), cmds[i]), base, block[..i], block[i]);
      }
      assert block[..|block|] == block;
    }

    method WriteSuggestion(s: Suggestion)
      requires Valid()
      modifies this
      ensures Valid() && wanted == old(wanted) + Texts(t.style, SuggestionLines(o, s))
    {
      ghost var base := wanted;
      WriteParagraph(s.description, "    ");
      Grow(t.style, base, Paragraph(o, s.description, "    "), Map(CommandLine, s.commands));
      WriteCommands(s.commands);
    }

    method WriteSuggestions(ss: seq<Suggestion>)
      requires Valid()
      modifies this
      ensures Valid() && wanted == old(wanted) + Texts(t.style, SuggestionsPart(o, ss))
    {
      ghost var base := wanted;
      if ss == [] {
        assert base + [] == base;
        return;
      }
      var title := if |ss| == 1 then "  Suggested action" else "  Suggested actions";
      ghost var head := [Bare(""), Bare(title)];
      WriteTitle(title);
      ghost var top := base + Texts(t.style, head);
      for i := 0 to |ss|
        invariant Valid() && wanted == top + Texts(t.style, AllSuggestions(o, ss[..i]))
      {
        PrefixStep(ss, i);
        ghost var done := AllSuggestions(o, ss[..i]);
        if i > 0 {
          Grow(t.style, top, done, [Bare("")]);
          WriteBare("");
          done := done + [Bare("")];
        } else {
          assert done + [] == done;
        }
        Grow(t.style, top, done, SuggestionLines(o, ss[i]));
        WriteSuggestion(ss[i]);
      }
      assert ss[..|ss|] == ss;
      Grow(t.style, base, head, AllSuggestions(o, ss));
    }

    method WriteRule(d: Diagnosis)
      requires Valid()
      modifies this
      ensures Valid() && wanted == old(wanted) + Texts(t.style, RulePart(o, d))
    {
      ghost var base := wanted;
      if !o.verbose {
        assert base + [] == base;
        return;
      }
      WriteBare("");
      var rest := ", confidence " + ConfidenceText(d.confidence) + ", severity " + SeverityText(d.severity);
      Show4(t.style, Plain("  "), Painted(InkDim, "rule "), Painted(InkMagenta, o.idText(d.id)), Painted(InkDim, rest));
      Put("  " + Paint(t.style, Code(InkDim), "rule ") + Paint(t.style, Code(InkMagenta), o.idText(d.id)) + Paint(t.style, Code(InkDim), rest),
          base, [Bare("")], RuleLine(o, d));
    }

    method WriteExplanation(d: Diagnosis)
      requires Valid()
      modifies this
      ensures Valid() && wanted == old(wanted) + Texts(t.style, Explaining(o, d))
    {
      ghost var base := wanted;
      if d.explanation == "" {
        assert base + [] == base;
        return;
      }
      WriteBare("");
      Grow(t.style, base, [Bare("")], Paragraph(o, d.explanation, "  "));
      WriteParagraph(d.explanation, "  ");
    }

    /** The summary and the explanation of a finding, under its heading. */
    method WriteOpening(d: Diagnosis, h: Heading)
      requires Valid()
      modifies this
      ensures Valid()
      ensures wanted == old(wanted) + Texts(t.style, [[Painted(Tone(d.severity), HeadingText(h))]] + Paragraph(o, Summary(d), "  ") + Explaining(o, d))
    {
      ghost var base, head := wanted, [[Painted(Tone(d.severity), HeadingText(h))]];
      Show1(t.style, Painted(Tone(d.severity), HeadingText(h)));
      Put(Paint(t.style, Code(Tone(d.severity)), HeadingText(h)), base, [], head[0]);
      assert [] + [head[0]] == head;
      Grow(t.style, base, head, Paragraph(o, Summary(d), "  "));
      WriteParagraph(Summary(d), "  ");
      Grow(t.style, base, head + Paragraph(o, Summary(d), "  "), Explaining(o, d));
      WriteExplanation(d);
    }

    method WriteEvidencePart(es: seq<Evidence>)
      requires Valid()
      modifies this
      ensures Valid() && wanted == old(wanted) + Texts(t.style, EvidencePart(o, es))
    {
      ghost var base := wanted;
      if es == [] {
        assert base + [] == base;
        return;
      }
      WriteTitle("  Evidence");
      Grow(t.style, base, [Bare(""), Bare("  Evidence")], EvidenceLines(o, es));
      WriteEvidence(es);
    }

    method WriteDiagnosis(d: Diagnosis, first: bool, shown: set<FindingID>)
      requires Valid()
      modifies this
      ensures Valid() && wanted == old(wanted) + Texts(t.style, FindingLines(o, d, HeadingOf(d, first, shown)))
    {
      ghost var base := wanted;
      var h := HeadingOf(d, first, shown);
      ghost var a := [[Painted(Tone(d.severity), HeadingText(h))]] + Paragraph(o, Summary(d), "  ") + Explaining(o, d);
      WriteOpening(d, h);
      Grow(t.style, base, a, EvidencePart(o, d.evidence));
      WriteEvidencePart(d.evidence);
      Grow(t.style, base, a + EvidencePart(o, d.evidence), CausesPart(o, d.possibleCauses));
      WriteCauses(d.possibleCauses);
      Grow(t.style, base, a + EvidencePart(o, d.evidence) + CausesPart(o, d.possibleCauses), SuggestionsPart(o, d.suggestions));
      WriteSuggestions(d.suggestions);
      Grow(t.style, base, a + EvidencePart(o, d.evidence) + CausesPart(o, d.possibleCauses) + SuggestionsPart(o, d.suggestions), RulePart(o, d));
      WriteRule(d);
    }

    method WriteFindings(ds: seq<Diagnosis>)
      requires Valid()
      modifies this
      ensures Valid() && wanted == old(wanted) + Texts(t.style, AllFindings(o, ds))
    {
      ghost var base := wanted;
      var shown: set<FindingID> := {};
      for i := 0 to |ds|
        invariant Valid() && wanted == base + Texts(t.style, AllFindings(o, ds[..i]))
        invariant shown == IDs(ds[..i])
      {
        PrefixStep(ds, i);
        ghost var done := AllFindings(o, ds[..i]);
        Grow(t.style, base, done, [Bare("")]);
        WriteBare("");
        Grow(t.style, base, done + [Bare("")], FindingLines(o, ds[i], HeadingOf(ds[i], i == 0, shown)));
        WriteDiagnosis(ds[i], i == 0, shown);
        IDsStep(ds, i);
        shown := shown + {ds[i].id};
      }
      assert ds[..|ds|] == ds;
    }

    method WriteItem(item: Item, kw: int, vw: int)
      requires Valid()
      modifies this
      ensures Valid() && wanted == old(wanted) + [Show(t.style, OneItem(kw, vw, item))]
    {
      var line := "  " + item.key + Fill(item.key, kw) + "  " + Value(t.style, item.value);
      if item.note != "" {
        line := line + Fill(item.value, vw) + "  " + Note(t.style, item.note);
      }
      ItemText(t.style, kw, vw, item);
      WriteLine(line);
    }

    method WriteItems(items: seq<Item>)
      requires Valid()
      modifies this
      ensures Valid() && wanted == old(wanted) + Texts(t.style, Map(ItemLine(KeyWidth(items), ValueWidth(items)), items))
    {
      ghost var base := wanted;
      var kw, vw := WidestColumns(items);
      ghost var block := Map(ItemLine(kw, vw), items);
      for i := 0 to |items|
        invariant Valid() && wanted == base + Texts(t.style, block[..i])
      {
        assert block[i] == OneItem(kw, vw, items[i]);
        PrefixStep(block, i);
        GrowLine(t.style, base, block[..i], block[i]);
        WriteItem(items[i], kw, vw);
      }
      assert block[..|block|] == block;
    }

    method WriteTree(tree: seq<string>)
      requires Valid()
      modifies this
      ensures Valid() && wanted == old(wanted) + Texts(t.style, TreeLines(o, tree))
    {
      ghost var base, block := wanted, TreeLines(o, tree);
      for i := 0 to |tree|
        invariant Valid() && wanted == base + Texts(t.style, block[..i])
      {
        TreeText(o, tree, i);
        if i == 0 {
          PutBare("  " + tree[0], base, block, i);
        } else {
          PutBare("  " + Spaces(3 * (i - 1)) + Branch(o) + " " + tree[i], base, block, i);
        }
      }
      assert block[..|block|] == block;
    }

    method WriteSection(s: Section)
      requires Valid()
      modifies this
      ensures Valid() && wanted == old(wanted) + Texts(t.style, OneSection(o, s))
    {
      ghost var base, head := wanted, [[Painted(InkBold, s.title)]];
      Show1(t.style, Painted(InkBold, s.title));
      Put(Paint(t.style, Code(InkBold), s.title), base, [], head[0]);
      assert [] + [head[0]] == head;
      ghost var items := Map(ItemLine(KeyWidth(s.items), ValueWidth(s.items)), s.items);
      Grow(t.style, base, head, items);
      WriteItems(s.items);
      Grow(t.style, base, head + items, TreeLines(o, s.tree));
      WriteTree(s.tree);
    }

    method WriteOverview(sections: seq<Section>)
      requires Valid()
      modifies this
      ensures Valid() && wanted == old(wanted) + Texts(t.style, FlatMap(SectionLines(o), sections))
    {
      ghost var base, f := wanted, SectionLines(o);
      for i := 0 to |sections|
        invariant Valid() && wanted == base + Texts(t.style, FlatMap(f, sections[..i]))
      {
        PrefixStep(sections, i);
        ghost var before := wanted;
        WriteBare("");
        WriteSection(sections[i]);
        Grow(t.style, before, [Bare("")], OneSection(o, sections[i]));
        Grow(t.style, base, FlatMap(f, sections[..i]), f(sections[i]));
      }
      assert sections[..|sections|] == sections;
    }

    method WriteDegradation(d: Degradation)
      requires Valid()
      modifies this
      ensures Valid() && wanted == old(wanted) + Texts(t.style, OneDegradation(o, d))
    {
      ghost var base := wanted;
      var what := "KubeWhy could not read " + d.resource + " in this cluster.";
      ghost var a := [Bare("")] + Paragraph(o, what, "  ");
      WriteBare("");
      WriteParagraph(what, "  ");
      Grow(t.style, base, [Bare("")], Paragraph(o, what, "  "));
      ghost var b := if d.requiredFor == "" then [] else [Bare(""), Bare("  Required for")] + Paragraph(o, d.requiredFor, "    ");
      if d.requiredFor != "" {
        WritePart("  Required for", d.requiredFor);
        Grow(t.style, base, a, b);
      } else {
        assert a + b == a;
      }
      WritePart("  Kubernetes returned", Detail(d));
      Grow(t.style, base, a + b, [Bare(""), Bare("  Kubernetes returned")] + Paragraph(o, Detail(d), "    "));
    }

    method WritePart(title: string, text: string)
      requires Valid()
      modifies this
      ensures Valid() && wanted == old(wanted) + Texts(t.style, [Bare(""), Bare(title)] + Paragraph(o, text, "    "))
    {
      ghost var base := wanted;
      WriteTitle(title);
      WriteParagraph(text, "    ");
      Grow(t.style, base, [Bare(""), Bare(title)], Paragraph(o, text, "    "));
    }

    method WriteDegradations(ds: seq<Degradation>)
      requires Valid()
      modifies this
      ensures Valid() && wanted == old(wanted) + Texts(t.style, Incomplete(o, ds))
    {
      ghost var base := wanted;
      if ds == [] {
        assert base + [] == base;
        return;
      }
      WriteBare("");
      ghost var title := [Painted(InkYellow, Warn(o)), Plain(" "), Painted(InkBold, "Diagnosis is incomplete")];
      ghost var head := [Bare(""), title];
      Show3(t.style, Painted(InkYellow, Warn(o)), Plain(" "), Painted(InkBold, "Diagnosis is incomplete"));
      Put(Paint(t.style, Code(InkYellow), Warn(o)) + " " + Paint(t.style, Code(InkBold), "Diagnosis is incomplete"), base, [Bare("")], title);
      assert [Bare("")] + [title] == head;
      ghost var top, f := base + Texts(t.style, head), DegradationLines(o);
      for i := 0 to |ds|
        invariant Valid() && wanted == top + Texts(t.style, FlatMap(f, ds[..i]))
      {
        PrefixStep(ds, i);
        Grow(t.style, top, FlatMap(f, ds[..i]), f(ds[i]));
        WriteDegradation(ds[i]);
      }
      assert ds[..|ds|] == ds;
      Grow(t.style, base, head, FlatMap(f, ds));
    }

    method WriteInspectedItems(items: seq<string>)
      requires Valid()
      modifies this
      ensures Valid() && wanted == old(wanted) + Texts(t.style, Map(Indented("  "), items))
    {
      ghost var base, block := wanted, Map(Indented("  "), items);
      for i := 0 to |items|
        invariant Valid() && wanted == base + Texts(t.style, block[..i])
      {
        IndentedText("  ", items, i);
        PutBare("  " + items[i], base, block, i);
      }
      assert block[..|block|] == block;
    }

    method WriteInspected(items: seq<string>)
      requires Valid()
      modifies this
      ensures Valid() && wanted == old(wanted) + Texts(t.style, InspectedPart(o, items))
    {
      ghost var base := wanted;
      if !o.verbose || items == [] {
        assert base + [] == base;
        return;
      }
      WriteBare("");
      ghost var title := [Painted(InkBold, "Inspected")];
      Show1(t.style, title[0]);
      Put(Paint(t.style, Code(InkBold), "Inspected"), base, [Bare("")], title);
      ghost var head := [Bare(""), title];
      assert [Bare("")] + [title] == head;
      Grow(t.style, base, head, Map(Indented("  "), items));
      WriteInspectedItems(items);
    }

    method WriteReassurance(r: Contents)
      requires Valid()
      modifies this
      ensures Valid() && wanted == old(wanted) + Texts(t.style, Reassurance(r))
    {
      if r.status == Healthy {
        WriteTitle("No obvious Kubernetes-level issue detected.");
      } else {
        assert wanted + [] == wanted;
      }
    }

    method Render(r: Contents)
      requires Valid()
      modifies this
      ensures Valid() && wanted == old(wanted) + Texts(t.style, Document(o, r))
    {
      ghost var base, done := wanted, [Headline(o, r)];
      WriteHeadline(r);
      Grow(t.style, base, done, AllFindings(o, r.diagnoses));
      WriteFindings(r.diagnoses);
      done := done + AllFindings(o, r.diagnoses);
      Grow(t.style, base, done, FlatMap(SectionLines(o), r.overview));
      WriteOverview(r.overview);
      done := done + FlatMap(SectionLines(o), r.overview);
      Grow(t.style, base, done, Incomplete(o, r.degradations));
      WriteDegradations(r.degradations);
      done := done + Incomplete(o, r.degradations);
      Grow(t.style, base, done, Reassurance(r));
      WriteReassurance(r);
      done := done + Reassurance(r);
      Grow(t.style, base, done, InspectedPart(o, r.inspected));
      WriteInspected(r.inspected);
    }
  }

  lemma Regrouped(a: string, b: string, c: string)
    ensures a + b + c == a + (b + c)
  {
  }

  lemma IDsStep(ds: seq<Diagnosis>, i: nat)
    requires i < |ds|
    ensures IDs(ds[..i + 1]) == IDs(ds[..i]) + {ds[i].id}
  {
    var a, b := ds[..i], ds[..i + 1];
    assert b[i] == ds[i] && forall j :: 0 <= j < i ==> a[j] == b[j];
  }

  method WidestLabel(es: seq<Evidence>) returns (width: nat)
    ensures width == LabelWidth(es)
  {
    width := 0;
    for i := 0 to |es|
      invariant width == LabelWidth(es[..i])
    {
      PrefixStep(es, i);
      if |Label(es[i])| > width {
        width := |Label(es[i])|;
      }
    }
    assert es[..|es|] == es;
  }

  method WidestColumns(items: seq<Item>) returns (kw: nat, vw: nat)
    ensures kw == KeyWidth(items) && vw == ValueWidth(items)
  {
    kw, vw := 0, 0;
    for i := 0 to |items|
      invariant kw == KeyWidth(items[..i]) && vw == ValueWidth(items[..i])
    {
      PrefixStep(items, i);
      if |items[i].key| > kw {
        kw := |items[i].key|;
      }
      if items[i].note != "" && |items[i].value| > vw {
        vw := |items[i].value|;
      }
    }
    assert items[..|items|] == items;
  }

  /** The lines a writer received, each ended by a newline. */
  function Received(written: seq<string>): string {
    if written == [] then "" else Received(Front(written)) + (Last(written) + "\n")
  }

  lemma {:induction false} ReceivedIsPrinted(st: Style, lines: seq<Rendering.Line>)
    ensures Received(Texts(st, lines)) == Printed(st, lines)
  {
    if lines != [] {
      assert Front(Texts(st, lines)) == Texts(st, Front(lines));
      ReceivedIsPrinted(st, Front(lines));
    }
  }

  /** The whole report reaches the writer, or an error is returned and what arrived is its beginning. */
  method RenderText(t: TextOptions, r: Contents, accepts: Option<nat>) returns (written: seq<string>, failed: bool)
    ensures !failed ==> Received(written) == Rendered(t, r)
    ensures failed ==> accepts.Some? && accepts.value < |Document(t.Plan(), r)| && written == Texts(t.style, Document(t.Plan(), r))[..accepts.value]
  {
    var w := new TextRenderer(t, accepts);
    w.Render(r);
    assert [] + Texts(t.style, Document(t.Plan(), r)) == Texts(t.style, Document(t.Plan(), r));
    ReceivedIsPrinted(t.style, Document(t.Plan(), r));
    return w.written, w.failed;
  }

  lemma TreeText(o: Options, tree: seq<string>, i: nat)
    requires i < |tree|
    ensures TreeLines(o, tree)[i]
         == if i == 0 then Bare("  " + tree[0]) else Bare("  " + Spaces(3 * (i - 1)) + Branch(o) + " " + tree[i])
  {
    assert TreeLines(o, tree)[i] == TreeLine(o, tree, i);
  }

  lemma IndentedText(indent: string, items: seq<string>, i: nat)
    requires i < |items|
    ensures Map(Indented(indent), items)[i] == Bare(indent + items[i])
  {
  }

  lemma EvidenceText(st: Style, e: Evidence, width: int)
    ensures Show(st, EvidenceLine(e, width))
         == if e.value == "" then "    " + Paint(st, Code(InkDim), Label(e))
            else "    " + Paint(st, Code(InkDim), Label(e)) + Fill(Label(e), width) + "  " + Value(st, e.value)
  {
    var name, padding := Label(e), Fill(Label(e), width);
    if e.value == "" {
      Show2(st, Plain("    "), Painted(InkDim, name));
    } else {
      Show4(st, Plain("    "), Painted(InkDim, name), Plain(padding + "  "), Valued(e.value));
      Regrouped("    " + Paint(st, Code(InkDim), name), padding, "  ");
    }
  }

  lemma ItemText(st: Style, kw: int, vw: int, item: Item)
    ensures Show(st, OneItem(kw, vw, item))
         == if item.note == "" then "  " + item.key + Fill(item.key, kw) + "  " + Value(st, item.value)
            else "  " + item.key + Fill(item.key, kw) + "  " + Value(st, item.value) + Fill(item.value, vw) + "  " + Note(st, item.note)
  {
    var left := "  " + item.key + Fill(item.key, kw) + "  ";
    var gap := Fill(item.value, vw);
    if item.note == "" {
      Show2(st, Plain(left), Valued(item.value));
    } else {
      Show4(st, Plain(left), Valued(item.value), Plain(gap + "  "), Noted(item.note));
      Regrouped(left + Value(st, item.value), gap, "  ");
      Regrouped(left + Value(st, item.value), gap + "  ", Note(st, item.note));
    }
  }

  // ---- Columns ----

  lemma {:induction false} SpacesCount(n: int)
    ensures |Spaces(n)| == if n <= 0 then 0 else n
    decreases n
  {
    if n > 0 {
      SpacesCount(n - 1);
    }
  }

  lemma {:induction false} LabelWidthIsMaximal(es: seq<Evidence>, i: nat)
    requires i < |es|
    ensures |Label(es[i])| <= LabelWidth(es)
  {
    if i < |es| - 1 {
      LabelWidthIsMaximal(Front(es), i);
    }
  }

  /** The values of all the evidence shown start in the same column. The coloured line strips to
      this one, so they do in colour too. */
  lemma EvidenceAligned(off: Style, es: seq<Evidence>, i: nat)
    requires i < |es| && es[i].value != "" && !off.color
    ensures |Show(off, EvidenceLine(es[i], LabelWidth(es))[..3])| == 4 + LabelWidth(es) + 2
  {
    var e, width := es[i], LabelWidth(es);
    var padding := Fill(Label(e), width);
    LabelWidthIsMaximal(es, i);
    SpacesCount(width - |Label(e)|);
    assert EvidenceLine(e, width)[..3] == [Plain("    "), Painted(InkDim, Label(e)), Plain(padding + "  ")];
    Show3(off, Plain("    "), Painted(InkDim, Label(e)), Plain(padding + "  "));
  }
}
