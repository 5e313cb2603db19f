/** Breaking text into lines (internal/output/style.go, wrap). */
module Layout {
  import opened Sequences
  import opened Text

  // ---- Words ----

  /** The length of the run of characters up to the next white space. */
  function WordRun(s: string): (n: nat)
    ensures n <= |s| && (forall i :: 0 <= i < n ==> !IsSpace(s[i])) && (n < |s| ==> IsSpace(s[n]))
  {
    if s == [] || IsSpace(s[0]) then 0 else WordRun(s[1..]) + 1
  }

  function SkipSpace(s: string): (t: string)
    ensures |t| <= |s| && (t != [] ==> !IsSpace(t[0]))
  {
    if s != [] && IsSpace(s[0]) then SkipSpace(s[1..]) else s
  }

  /** strings.Fields. */
  function Fields(s: string): seq<string>
    decreases |s|
  {
    var t := SkipSpace(s);
    if t == [] then [] else [t[..WordRun(t)]] + Fields(t[WordRun(t)..])
  }

  ghost predicate IsWord(w: string) {
    w != [] && forall i :: 0 <= i < |w| ==> !IsSpace(w[i])
  }

  ghost predicate AreWords(ws: seq<string>) {
    forall i :: 0 <= i < |ws| ==> IsWord(ws[i])
  }

  lemma {:induction false} FieldsAreWords(s: string)
    ensures AreWords(Fields(s))
    decreases |s|
  {
    var t := SkipSpace(s);
    if t != [] {
      FieldsAreWords(t[WordRun(t)..]);
    }
  }

  lemma {:induction false} WordRunIs(w: string, rest: string)
    requires (forall i :: 0 <= i < |w| ==> !IsSpace(w[i])) && (rest == [] || IsSpace(rest[0]))
    ensures WordRun(w + rest) == |w|
  {
    if w == [] {
      assert w + rest == rest;
    } else {
      assert (w + rest)[1..] == w[1..] + rest;
      WordRunIs(w[1..], rest);
    }
  }

  lemma {:induction false} JoinFirst(ws: seq<string>, sep: string)
    requires |ws| > 1
    ensures Join(ws, sep) == ws[0] + sep + Join(ws[1..], sep)
  {
    if |ws| == 2 {
      assert Front(ws) == [ws[0]] && ws[1..] == [ws[1]];
    } else {
      JoinFirst(Front(ws), sep);
      assert Front(ws)[1..] == Front(ws[1..]);
      assert ws[0] + sep + Join(Front(ws[1..]), sep) + sep + Last(ws) == ws[0] + sep + (Join(Front(ws[1..]), sep) + sep + Last(ws));
    }
  }

  /** Splitting undoes joining: white space is the only thing lost. */
  lemma {:induction false} FieldsOfJoined(ws: seq<string>)
    requires AreWords(ws)
    ensures Fields(Join(ws, " ")) == ws
  {
    if |ws| == 1 {
      FieldsStep(ws[0], "");
      assert ws[0] + "" == ws[0] && SkipSpace("") == "";
    } else if |ws| > 1 {
      var tail := Join(ws[1..], " ");
      JoinFirst(ws, " ");
      assert Join(ws, " ") == ws[0] + (" " + tail);
      FieldsStep(ws[0], " " + tail);
      FieldsOfJoined(ws[1..]);
      FieldsSkip(tail);
    } else {
      assert SkipSpace("") == "";
    }
  }

  lemma FieldsSkip(s: string)
    ensures Fields(" " + s) == Fields(s)
  {
    assert (" " + s)[1..] == s;
  }

  lemma FieldsStep(w: string, rest: string)
    requires IsWord(w) && (rest == [] || IsSpace(rest[0]))
    ensures Fields(w + rest) == [w] + Fields(rest)
  {
    var s := w + rest;
    assert s[0] == w[0];
    WordRunIs(w, rest);
    assert s[..|w|] == w && s[|w|..] == rest;
  }

  // ---- Greedy breaking ----

  type Lines = seq<seq<string>>

  function LetterCount(ws: seq<string>): nat {
    if ws == [] then 0 else LetterCount(Front(ws)) + |Last(ws)|
  }

  /** The width of a line holding these words. */
  function LineWidth(ws: seq<string>): int {
    LetterCount(ws) + |ws| - 1
  }

  function Greedy(ws: seq<string>, width: int): (r: Lines)
    ensures ws != [] ==> r != [] && Last(r) != []
  {
    if ws == [] then []
    else if |ws| == 1 then [ws]
    else
      var before := Greedy(Front(ws), width);
      if LineWidth(Last(before)) + 1 + |Last(ws)| > width then before + [[Last(ws)]]
      else Front(before) + [Last(before) + [Last(ws)]]
  }

  function Shown(line: seq<string>): string {
    Join(line, " ")
  }

  function Wrapped(text: string, width: int): seq<string> {
    Map(Shown, Greedy(Fields(text), width))
  }

  lemma {:induction false} ShownWidth(line: seq<string>)
    requires line != []
    ensures |Shown(line)| == LineWidth(line)
  {
    if |line| > 1 {
      ShownWidth(Front(line));
    } else {
      assert LetterCount(Front(line)) == 0;
    }
  }

  lemma NextLine(g: Lines, w: string)
    requires g != []
    ensures var next := g + [[w]];
            Map(Shown, Front(next)) == Map(Shown, Front(g)) + [Shown(Last(g))] && Shown(Last(next)) == w && Last(next) != []
  {
    assert Front(g + [[w]]) == g;
    MapSnoc(Shown, Front(g), Last(g));
    Snoc(g);
  }

  lemma LongerLine(g: Lines, w: string)
    requires g != [] && Last(g) != []
    ensures var next := Front(g) + [Last(g) + [w]];
            Front(next) == Front(g) && Shown(Last(next)) == Shown(Last(g)) + " " + w && Last(next) != []
  {
    assert Front(Last(g) + [w]) == Last(g);
    assert Front(Front(g) + [Last(g) + [w]]) == Front(g);
  }

  method Wrap(text: string, width: int) returns (lines: seq<string>)
    ensures lines == Wrapped(text, width)
  {
    var words := Fields(text);
    lines := [];
    if |words| == 0 {
      return;
    }
    var line := words[0];
    ghost var g := Greedy(words[..1], width);
    assert Front(g) == [] && Last(g) == [words[0]] && words[..1] == [words[0]];
    for i := 1 to |words|
      invariant g == Greedy(words[..i], width) && g != [] && Last(g) != []
      invariant lines == Map(Shown, Front(g)) && line == Shown(Last(g))
    {
      PrefixStep(words, i);
      ShownWidth(Last(g));
      NextLine(g, words[i]);
      LongerLine(g, words[i]);
      if |line| + 1 + |words[i]| > width {
        lines := lines + [line];
        line := words[i];
        g := g + [[words[i]]];
      } else {
        line := line + " " + words[i];
        g := Front(g) + [Last(g) + [words[i]]];
      }
    }
    assert words[..|words|] == words;
    MapSnoc(Shown, Front(g), Last(g));
    Snoc(g);
    lines := lines + [line];
  }

  // ---- What a breaking is ----

  function Concat(lines: Lines): seq<string> {
    if lines == [] then [] else Concat(Front(lines)) + Last(lines)
  }

  ghost predicate Acceptable(line: seq<string>, width: int) {
    |line| == 1 || (|line| > 1 && LineWidth(line) <= width)
  }

  /** All the words in order, no empty line, every line fits or holds a single word. */
  ghost predicate Breaks(lines: Lines, ws: seq<string>, width: int) {
    Concat(lines) == ws && forall i :: 0 <= i < |lines| ==> Acceptable(lines[i], width)
  }

  lemma BreaksFront(lines: Lines, ws: seq<string>, width: int)
    requires Breaks(lines, ws, width) && lines != []
    ensures Breaks(Front(lines), ws[..|ws| - |Last(lines)|], width)
    ensures Acceptable(Last(lines), width) && |Last(lines)| <= |ws| && Last(lines) == ws[|ws| - |Last(lines)|..]
  {
    assert ws == Concat(Front(lines)) + Last(lines);
    assert forall i :: 0 <= i < |lines| - 1 ==> Front(lines)[i] == lines[i];
  }

  lemma BreaksSnoc(lines: Lines, ws: seq<string>, line: seq<string>, width: int)
    requires Breaks(lines, ws, width) && Acceptable(line, width)
    ensures Breaks(lines + [line], ws + line, width)
  {
    assert Front(lines + [line]) == lines;
  }

  lemma LineGrows(line: seq<string>, w: string)
    ensures LineWidth(line + [w]) == LineWidth(line) + 1 + |w|
  {
    assert Front(line + [w]) == line;
  }

  lemma {:induction false} GreedyBreaks(ws: seq<string>, width: int)
    ensures Breaks(Greedy(ws, width), ws, width)
  {
    if |ws| == 1 {
      assert Front([ws]) == [] && Concat([]) == [] && Concat([ws]) == [] + ws;
    } else if |ws| > 1 {
      var before, w := Greedy(Front(ws), width), Last(ws);
      GreedyBreaks(Front(ws), width);
      Snoc(ws);
      LineGrows(Last(before), w);
      if LineWidth(Last(before)) + 1 + |w| > width {
        BreaksSnoc(before, Front(ws), [w], width);
      } else {
        BreaksFront(before, Front(ws), width);
        var head := Front(ws)[..|ws| - 1 - |Last(before)|];
        BreaksSnoc(Front(before), head, Last(before) + [w], width);
        assert head + Last(before) == Front(ws);
        assert head + (Last(before) + [w]) == ws;
      }
    }
  }

  lemma {:induction false} SuffixIsShorter(ws: seq<string>, k: nat)
    requires k <= |ws|
    ensures LetterCount(ws[k..]) <= LetterCount(ws)
  {
    if k < |ws| {
      assert Front(ws[k..]) == Front(ws)[k..] && Last(ws[k..]) == Last(ws);
      SuffixIsShorter(Front(ws), k);
    } else {
      assert ws[k..] == [];
    }
  }

  lemma {:induction false} PrefixIsShorter(ws: seq<string>)
    requires |ws| > 1
    ensures LineWidth(Front(ws)) < LineWidth(ws)
  {
  }

  /** A breaking of `ws` without its last word. */
  ghost function Shortened(lines: Lines): Lines
    requires lines != [] && Last(lines) != []
  {
    if |Last(lines)| == 1 then Front(lines) else Front(lines) + [Front(Last(lines))]
  }

  lemma ShortenedBreaks(lines: Lines, ws: seq<string>, width: int)
    requires Breaks(lines, ws, width) && ws != []
    ensures lines != [] && Last(lines) != [] && Breaks(Shortened(lines), Front(ws), width)
  {
    assert lines != [];
    BreaksFront(lines, ws, width);
    var line := Last(lines);
    var head := ws[..|ws| - |line|];
    if |line| > 1 {
      PrefixIsShorter(line);
      BreaksSnoc(Front(lines), head, Front(line), width);
      assert head + Front(line) == Front(ws);
    } else {
      assert head == Front(ws);
    }
  }

  lemma GreedyStep(ws: seq<string>, width: int)
    requires |ws| > 1
    ensures var g, r := Greedy(Front(ws), width), Greedy(ws, width);
            if LineWidth(Last(g)) + 1 + |Last(ws)| > width then |r| == |g| + 1 && |Last(r)| == 1
            else |r| == |g| && |Last(r)| == |Last(g)| + 1
  {
  }

  lemma ShortenedShape(lines: Lines)
    requires lines != [] && Last(lines) != []
    ensures |Last(lines)| == 1 ==> |Shortened(lines)| == |lines| - 1
    ensures |Last(lines)| > 1 ==> |Shortened(lines)| == |lines| && Last(Shortened(lines)) == Front(Last(lines))
  {
  }

  /** Greedy uses no more lines than any other breaking, and among equals leaves the shortest last line. */
  lemma {:induction false} GreedyIsBest(ws: seq<string>, width: int, other: Lines)
    requires Breaks(other, ws, width) && ws != []
    ensures other != [] && |Greedy(ws, width)| <= |other|
    ensures |Greedy(ws, width)| == |other| ==> |Last(Greedy(ws, width))| <= |Last(other)|
  {
    ShortenedBreaks(other, ws, width);
    ShortenedShape(other);
    if |ws| > 1 {
      GreedyIsBest(Front(ws), width, Shortened(other));
      GreedyStep(ws, width);
      if |Last(other)| > 1 && |Greedy(Front(ws), width)| == |other| {
        LastLineFits(ws, width, other);
      }
    }
  }

  lemma LastLineFits(ws: seq<string>, width: int, other: Lines)
    requires Breaks(other, ws, width) && |ws| > 1 && other != [] && |Last(other)| > 1
    requires |Last(Greedy(Front(ws), width))| < |Last(other)|
    ensures LineWidth(Last(Greedy(Front(ws), width))) + 1 + |Last(ws)| <= width
  {
    var g := Greedy(Front(ws), width);
    BreaksFront(other, ws, width);
    GreedyBreaks(Front(ws), width);
    BreaksFront(g, Front(ws), width);
    Snoc(ws);
    LastFits(Front(ws), Last(ws), Last(g), Last(other), width);
  }

  /** The shorter of two last lines still fits when the longer one did. */
  lemma LastFits(before: seq<string>, w: string, mine: seq<string>, theirs: seq<string>, width: int)
    requires |theirs| > 1 && LineWidth(theirs) <= width && |mine| < |theirs| <= |before| + 1
    requires mine == before[|before| - |mine|..] && theirs == (before + [w])[|before| + 1 - |theirs|..]
    ensures LineWidth(mine) + 1 + |w| <= width
  {
    LineGrows(mine, w);
    var k := |theirs| - |mine| - 1;
    assert theirs[k..] == mine + [w];
    SuffixIsShorter(theirs, k);
  }

  /** wrap keeps every word once and in order, every line fits the width or holds a single word, and
      no other such breaking uses fewer lines. */
  lemma WrapIsOptimal(text: string, width: int, other: Lines)
    ensures Fields(Join(Wrapped(text, width), " ")) == Fields(text)
    ensures forall i :: 0 <= i < |Wrapped(text, width)| ==>
              |Wrapped(text, width)[i]| <= width || IsWord(Wrapped(text, width)[i])
    ensures Breaks(other, Fields(text), width) ==> |Wrapped(text, width)| <= |other|
  {
    var ws := Fields(text);
    var g, lines := Greedy(ws, width), Wrapped(text, width);
    FieldsAreWords(text);
    GreedyBreaks(ws, width);
    JoinOfShown(g, width);
    FieldsOfJoined(ws);
    forall i | 0 <= i < |lines| ensures |lines[i]| <= width || IsWord(lines[i]) {
      assert lines[i] == Shown(g[i]) && Acceptable(g[i], width);
      ShownWidth(g[i]);
      WordsOfLine(g, ws, i);
    }
    if Breaks(other, ws, width) && ws != [] {
      GreedyIsBest(ws, width, other);
    }
  }

  lemma {:induction false} WordsOfLine(lines: Lines, ws: seq<string>, i: nat)
    requires Concat(lines) == ws && AreWords(ws) && i < |lines|
    ensures AreWords(lines[i])
  {
    var rest, line := Concat(Front(lines)), Last(lines);
    assert forall j :: 0 <= j < |line| ==> line[j] == ws[|rest| + j];
    assert forall j :: 0 <= j < |rest| ==> rest[j] == ws[j];
    if i < |lines| - 1 {
      WordsOfLine(Front(lines), rest, i);
    }
  }

  /** Joining the lines is joining the words. */
  lemma {:induction false} JoinOfShown(lines: Lines, width: int)
    requires forall i :: 0 <= i < |lines| ==> Acceptable(lines[i], width)
    ensures Join(Map(Shown, lines), " ") == Join(Concat(lines), " ")
  {
    if lines != [] {
      var front := Front(lines);
      assert forall i :: 0 <= i < |front| ==> front[i] == lines[i];
      JoinOfShown(front, width);
      Snoc(lines);
      MapSnoc(Shown, front, Last(lines));
      if front == [] {
        assert Concat(lines) == Last(lines);
        assert Map(Shown, lines) == [Shown(Last(lines))];
      } else {
        assert Front(Map(Shown, lines)) == Map(Shown, front);
        NonEmptyConcat(front, width);
        JoinConcat(Concat(front), Last(lines));
      }
    }
  }

  lemma NonEmptyConcat(lines: Lines, width: int)
    requires lines != [] && forall i :: 0 <= i < |lines| ==> Acceptable(lines[i], width)
    ensures Concat(lines) != []
  {
  }

  lemma {:induction false} JoinConcat(a: seq<string>, b: seq<string>)
    requires a != [] && b != []
    ensures Join(a + b, " ") == Join(a, " ") + " " + Join(b, " ")
  {
    assert Front(a + b) == a + Front(b) && Last(a + b) == Last(b);
    if |b| == 1 {
      assert a + Front(b) == a;
    } else {
      JoinConcat(a, Front(b));
    }
  }
}
