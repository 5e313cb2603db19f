/** What the colours mean: which words and counts are red, yellow and green, and how the parts of a report
    are painted. */
module Palette {
  import opened Sequences
  import opened Text
  import opened Model
  import opened Reports
  import opened Colour
  import opened Rendering

  // ---- Painted text, in the terminal's own words ----

  function InRed(text: string): string {
    "\U{1b}[31m" + text + "\U{1b}[0m"
  }

  function InYellow(text: string): string {
    "\U{1b}[33m" + text + "\U{1b}[0m"
  }

  function InGreen(text: string): string {
    "\U{1b}[32m" + text + "\U{1b}[0m"
  }

  lemma Sequences31()
    ensures Sgr(RED) == "\U{1b}[31m" && Sgr(YELLOW) == "\U{1b}[33m" && Sgr(GREEN) == "\U{1b}[32m" && Sgr(RESET) == "\U{1b}[0m"
  {
  }

  // ---- The vocabulary ----

  /** What is as it should be. */
  const GREEN_WORDS: seq<string> := [
    "Active", "Available", "Bound", "Completed", "Found", "Healthy", "Ready", "Running", "Succeeded", "True", "exists", "healthy"]

  /** What is broken, absent or unusable. */
  const RED_STATES: seq<string> := [
    "CrashLoopBackOff", "Error", "Evicted", "Failed", "False", "Forbidden", "Lost", "NotFound", "NotReady", "OOMKilled", "Unhealthy",
    "Unschedulable", "unhealthy"]
  const RED_FAILURES: seq<string> := [
    "CreateContainerConfigError", "CreateContainerError", "ErrImageNeverPull", "ErrImagePull", "FailedBinding", "FailedCreate",
    "FailedMount", "FailedScheduling", "ImagePullBackOff", "InvalidImageName", "ProgressDeadlineExceeded", "ProvisioningFailed"]
  const RED_PHRASES: seq<string> := ["could not be read", "does not exist", "none published", "not found", "not started"]

  /** What is not settled yet. */
  const YELLOW_WORDS: seq<string> := [
    "BackOff", "ContainerCreating", "ContainersNotReady", "Paused", "Pending", "PodInitializing", "Terminated", "Terminating",
    "Unknown", "Waiting", "degraded", "paused", "unknown"]
  const YELLOW_PHRASES: seq<string> := ["no reason reported", "no status reported"]

  predicate IsRed(w: string) {
    w in RED_STATES || w in RED_FAILURES || w in RED_PHRASES
  }

  predicate IsYellow(w: string) {
    w in YELLOW_WORDS || w in YELLOW_PHRASES
  }

  predicate IsGreen(w: string) {
    w in GREEN_WORDS
  }

  lemma GoodIsGreen(w: string)
    ensures w in GOOD_WORDS <==> IsGreen(w)
  {
  }

  lemma BadIsRed(w: string)
    ensures w in BAD_WORDS <==> IsRed(w)
  {
  }

  lemma WarnIsYellow(w: string)
    ensures w in WARN_WORDS <==> IsYellow(w)
  {
  }

  // ---- One word ----

  /** A text without gaps between letters, digits and underscores. */
  ghost predicate Solid(w: string) {
    w != [] && forall i :: 0 <= i < |w| ==> IsWordChar(w[i])
  }

  /** Starts with a letter, though not with the one that colour codes end with. */
  ghost predicate Phrased(w: string) {
    Inert(w) && IsWordChar(w[0])
  }

  ghost predicate AllPhrased(words: seq<string>) {
    forall i :: 0 <= i < |words| ==> Phrased(words[i])
  }

  lemma PhrasedConcat(a: seq<string>, b: seq<string>)
    requires AllPhrased(a) && AllPhrased(b)
    ensures AllPhrased(a + b)
  {
  }

  lemma PhrasedFront(words: seq<string>)
    requires AllPhrased(words) && words != []
    ensures AllPhrased(Front(words)) && Phrased(Last(words))
  {
    assert forall i :: 0 <= i < |words| - 1 ==> Front(words)[i] == words[i];
  }

  /** Inside a word nothing matches, and nothing matches at a sign, a digit or the end of a code. */
  lemma {:induction false} NoMatch(prev: bool, s: string, words: seq<string>)
    requires AllPhrased(words) && s != [] && (prev || !IsWordChar(s[0]) || s[0] == 'm' || IsDigit(s[0]))
    ensures MatchHere(prev, s, words) == None
  {
    if words != [] {
      PhrasedFront(words);
      NoMatch(prev, s, Front(words));
    }
  }

  /** Where a solid text starts, only the whole text can match. */
  lemma {:induction false} MatchWhole(w: string, words: seq<string>)
    requires AllPhrased(words) && Solid(w)
    ensures MatchHere(false, w, words) == if w in words then Some(w) else None
  {
    if words != [] {
      var v := Last(words);
      PhrasedFront(words);
      MatchWhole(w, Front(words));
      Snoc(words);
      if v <= w && |v| < |w| {
        assert w[|v|..][0] == w[|v|];
        assert Last(v) == w[|v| - 1];
      }
      if v == w {
        assert w[|w|..] == [];
      }
    }
  }

  /** No position of the text lets a word match. */
  ghost predicate Safe(prev: bool, s: string)
    decreases |s|
  {
    s != [] ==> (prev || !IsWordChar(s[0]) || s[0] == 'm' || IsDigit(s[0])) && Safe(IsWordChar(s[0]), s[1..])
  }

  lemma {:induction false} SafeUnpainted(prev: bool, s: string, words: seq<string>, code: string)
    requires AllPhrased(words) && Safe(prev, s)
    ensures PaintWords(prev, s, words, code) == s
    decreases |s|
  {
    if s != [] {
      NoMatch(prev, s, words);
      SafeUnpainted(IsWordChar(s[0]), s[1..], words, code);
      assert s == [s[0]] + s[1..];
    }
  }

  lemma {:induction false} SafeInside(w: string, rest: string)
    requires (forall i :: 0 <= i < |w| ==> IsWordChar(w[i])) && Safe(true, rest)
    ensures Safe(true, w + rest)
  {
    if w == [] {
      assert w + rest == rest;
    } else {
      assert (w + rest)[0] == w[0] && (w + rest)[1..] == w[1..] + rest;
      SafeInside(w[1..], rest);
    }
  }

  lemma SafeStep(prev: bool, c: char, rest: string)
    requires (prev || !IsWordChar(c) || c == 'm' || IsDigit(c)) && Safe(IsWordChar(c), rest)
    ensures Safe(prev, [c] + rest)
  {
    assert ([c] + rest)[1..] == rest;
  }

  lemma SafeReset()
    ensures Safe(true, Sgr(RESET))
  {
    assert Safe(true, []);
    SafeStep(true, 'm', []);
    SafeStep(false, '0', ['m'] + []);
    SafeStep(false, '[', ['0'] + (['m'] + []));
    SafeStep(true, ESC, ['['] + (['0'] + (['m'] + [])));
    assert Sgr(RESET) == [ESC] + (['['] + (['0'] + (['m'] + [])));
  }

  lemma CodeIsSafe(a: char, b: char, tail: string)
    requires IsDigit(a) && IsDigit(b) && Safe(true, tail)
    ensures Safe(false, Sgr([a, b]) + tail)
  {
    var t1 := ['m'] + tail;
    SafeStep(true, 'm', tail);
    var t2 := [b] + t1;
    SafeStep(true, b, t1);
    var t3 := [a] + t2;
    SafeStep(false, a, t2);
    var t4 := ['['] + t3;
    SafeStep(false, '[', t3);
    SafeStep(false, ESC, t4);
    assert Sgr([a, b]) + tail == [ESC] + t4;
  }

  lemma Regrouped(a: string, b: string, c: string)
    ensures a + b + c == a + (b + c)
  {
  }

  /** Once painted, a solid text is left alone by the next passes. */
  lemma PaintedIsSafe(w: string, a: char, b: char)
    requires Solid(w) && IsDigit(a) && IsDigit(b)
    ensures Safe(false, Sgr([a, b]) + w + Sgr(RESET))
  {
    SafeReset();
    SafeInside(w, Sgr(RESET));
    CodeIsSafe(a, b, w + Sgr(RESET));
    Regrouped(Sgr([a, b]), w, Sgr(RESET));
  }

  lemma SolidPass(w: string, words: seq<string>, code: string)
    requires AllPhrased(words) && Solid(w)
    ensures PaintWords(false, w, words, code) == if w in words then Sgr(code) + w + Sgr(RESET) else w
  {
    MatchWhole(w, words);
    if w in words {
      assert w[|w|..] == [];
      assert PaintWords(IsWordChar(Last(w)), [], words, code) == [];
    } else {
      assert Safe(true, []);
      SafeInside(w[1..], []);
      assert w[1..] + [] == w[1..];
      SafeUnpainted(true, w[1..], words, code);
      assert w == [w[0]] + w[1..];
    }
  }

  lemma GoodPhrased()
    ensures AllPhrased(GOOD_WORDS)
  {
    GoodWordsInert();
    assert AllPhrased(GOOD_STATES);
    assert AllPhrased(GOOD_OTHERS);
    PhrasedConcat(GOOD_STATES, GOOD_OTHERS);
  }

  lemma WarnPhrased()
    ensures AllPhrased(WARN_WORDS)
  {
    WarnWordsInert();
    assert AllPhrased(WARN_STATES);
    assert AllPhrased(WARN_OTHERS);
    PhrasedConcat(WARN_STATES, WARN_OTHERS);
  }

  lemma BadPartsPhrased()
    ensures AllPhrased(BAD_STATES) && AllPhrased(BAD_IMAGES) && AllPhrased(BAD_CLUSTER)
  {
    BadWordsInert();
  }

  lemma BadPhrased()
    ensures AllPhrased(BAD_WORDS)
  {
    BadWordsInert();
    BadPartsPhrased();
    assert AllPhrased(BAD_REASONS);
    assert AllPhrased(BAD_PHRASES);
    PhrasedConcat(BAD_STATES, BAD_IMAGES);
    PhrasedConcat(BAD_STATES + BAD_IMAGES, BAD_CLUSTER);
    PhrasedConcat(BAD_STATES + BAD_IMAGES + BAD_CLUSTER, BAD_REASONS);
    PhrasedConcat(BAD_STATES + BAD_IMAGES + BAD_CLUSTER + BAD_REASONS, BAD_PHRASES);
  }

  lemma PaintedStays(w: string, a: char, b: char, words: seq<string>, code: string)
    requires AllPhrased(words) && Solid(w) && IsDigit(a) && IsDigit(b)
    ensures PaintWords(false, Sgr([a, b]) + w + Sgr(RESET), words, code) == Sgr([a, b]) + w + Sgr(RESET)
  {
    PaintedIsSafe(w, a, b);
    SafeUnpainted(false, Sgr([a, b]) + w + Sgr(RESET), words, code);
  }

  lemma PassesOnSolid(w: string)
    requires Solid(w)
    ensures ThreePasses(w)
         == if w in BAD_WORDS then Sgr(RED) + w + Sgr(RESET)
            else if w in WARN_WORDS then Sgr(YELLOW) + w + Sgr(RESET)
            else if w in GOOD_WORDS then Sgr(GREEN) + w + Sgr(RESET)
            else w
  {
    GoodPhrased();
    WarnPhrased();
    BadPhrased();
    SolidPass(w, BAD_WORDS, RED);
    SolidPass(w, WARN_WORDS, YELLOW);
    SolidPass(w, GOOD_WORDS, GREEN);
    PaintedStays(w, '3', '1', WARN_WORDS, YELLOW);
    PaintedStays(w, '3', '1', GOOD_WORDS, GREEN);
    PaintedStays(w, '3', '3', GOOD_WORDS, GREEN);
  }

  /** A word the API uses for a state is painted by what it means, and any other word not at all. */
  lemma WordColour(on: Style, w: string)
    requires on.color && Solid(w) && Ratio(w).None?
    ensures Value(on, w) == if IsRed(w) then InRed(w) else if IsYellow(w) then InYellow(w) else if IsGreen(w) then InGreen(w) else w
  {
    PassesOnSolid(w);
    Sequences31();
    GoodIsGreen(w);
    BadIsRed(w);
    WarnIsYellow(w);
  }

  // ---- Counts ----

  lemma SplitsAt(a: string, b: string)
    ensures (a + b)[..|a|] == a && (a + b)[|a|..] == b
  {
  }

  lemma DigitsOnly(b: string)
    requires AllDigits(b)
    ensures DigitRun(b) == |b| && b[..|b|] == b && b[|b|..] == ""
  {
    DigitRunIs(b, "");
    assert b + "" == b;
  }

  lemma RatioOf(a: string, sep: string, b: string)
    requires AllDigits(a) && AllDigits(b) && a != [] && b != [] && (sep == "/" || sep == " of ")
    ensures Ratio(a + (sep + b)) == Some((AtoiClamped(a), AtoiClamped(b)))
  {
    DigitRunIs(a, sep + b);
    SplitsAt(a, sep + b);
    SlashRead(sep, b);
    DigitsOnly(b);
  }

  lemma CountsRead(have: nat, sep: string, want: nat)
    requires sep == "/" || sep == " of "
    requires have <= MAX_INT && want <= MAX_INT
    ensures Ratio(Decimal(have) + sep + Decimal(want)) == Some((have, want))
  {
    RatioOf(Decimal(have), sep, Decimal(want));
    Regrouped(Decimal(have), sep, Decimal(want));
    ParseUndoesPrint(have);
    ParseUndoesPrint(want);
  }

  lemma SlashRead(sep: string, b: string)
    requires sep == "/" || sep == " of "
    requires b != [] && !IsRegexpSpace(b[0])
    ensures AfterSlash(sep + b) == Some(b)
  {
    NoSpaceRun(b);
    assert b[0..] == b;
    if sep == "/" {
      var t := sep + b;
      assert t[0] == '/' && SpaceRun(t) == 0 && t[0..] == t && t[1..] == b;
    } else {
      var t := sep + b;
      var u := t[1..];
      assert t[0] == ' ' && u == "of" + ([' '] + b) && u[0] == 'o';
      NoSpaceRun(u);
      assert SpaceRun(t) == 1;
      assert u[2..] == [' '] + b && ([' '] + b)[1..] == b;
      assert SpaceRun([' '] + b) == 1;
    }
  }

  lemma NoSpaceRun(s: string)
    requires s != [] && !IsRegexpSpace(s[0])
    ensures SpaceRun(s) == 0
  {
  }

  /** A count says more than a word: nothing of something is red, some of it yellow, all of it green. */
  lemma CountColour(on: Style, have: nat, sep: string, want: nat)
    requires on.color && (sep == "/" || sep == " of ") && have <= MAX_INT && want <= MAX_INT
    ensures var text := Decimal(have) + sep + Decimal(want);
            Value(on, text) == if have == 0 && want != 0 then InRed(text) else if have < want then InYellow(text) else InGreen(text)
  {
    CountsRead(have, sep, want);
    Sequences31();
  }

  // ---- The parts of a report ----

  /** Headings are bold, in red, yellow or blue as the finding is critical, a warning or neither. */
  lemma HeadingColour(on: Style, d: Diagnosis, h: Heading)
    requires on.color
    ensures Show(on, [Painted(Tone(d.severity), HeadingText(h))])
         == "\U{1b}[1m" + (match d.severity case Critical => "\U{1b}[31m" case Warning => "\U{1b}[33m" case _ => "\U{1b}[34m")
            + HeadingText(h) + "\U{1b}[0m"
  {
    Show1(on, Painted(Tone(d.severity), HeadingText(h)));
    BoldCodes();
    Sequences31();
  }

  lemma BoldCodes()
    ensures Code(InkBoldRed) == "\U{1b}[1m" + "\U{1b}[31m" && Code(InkBoldYellow) == "\U{1b}[1m" + "\U{1b}[33m"
    ensures Code(InkBoldBlue) == "\U{1b}[1m" + "\U{1b}[34m"
  {
  }

  lemma PlainCodes()
    ensures Code(InkBold) == "\U{1b}[1m" && Code(InkDim) == "\U{1b}[2m" && Code(InkCyan) == "\U{1b}[36m" && Code(InkMagenta) == "\U{1b}[35m"
  {
  }

  function InBold(text: string): string {
    if text == "" then "" else "\U{1b}[1m" + text + "\U{1b}[0m"
  }

  function InDim(text: string): string {
    if text == "" then "" else "\U{1b}[2m" + text + "\U{1b}[0m"
  }

  function InCyan(text: string): string {
    if text == "" then "" else "\U{1b}[36m" + text + "\U{1b}[0m"
  }

  /** The first line: the sign in the colour of the status, the headline bold. */
  lemma HeadlineColour(on: Style, o: Options, r: Contents)
    requires on.color
    ensures Show(on, Headline(o, r))
         == (match r.status
             case Healthy => InGreen(OK(o))
             case Unhealthy => InRed(Fail(o))
             case _ => InYellow(Warn(o)))
            + " " + InBold(r.headline)
  {
    Sequences31();
    PlainCodes();
    match r.status {
      case Healthy => Show3(on, Painted(InkGreen, OK(o)), Plain(" "), Painted(InkBold, r.headline));
      case Unhealthy => Show3(on, Painted(InkRed, Fail(o)), Plain(" "), Painted(InkBold, r.headline));
      case _ => Show3(on, Painted(InkYellow, Warn(o)), Plain(" "), Painted(InkBold, r.headline));
    }
  }

  /** Commands are cyan, labels of evidence dim, section titles bold; values and notes are painted by
      what they mean. */
  lemma LineColours(on: Style, cmd: string, e: Evidence, width: int, title: string)
    requires on.color && e.value != ""
    ensures Show(on, CommandLine(cmd)) == "      " + InCyan(cmd)
    ensures Show(on, EvidenceLine(e, width)) == "    " + InDim(Label(e)) + (Fill(Label(e), width) + "  ") + Value(on, e.value)
    ensures Show(on, [Painted(InkBold, title)]) == InBold(title)
  {
    Sequences31();
    PlainCodes();
    Show2(on, Plain("      "), Painted(InkCyan, cmd));
    Show4(on, Plain("    "), Painted(InkDim, Label(e)), Plain(Fill(Label(e), width) + "  "), Valued(e.value));
    Show1(on, Painted(InkBold, title));
  }

  /** A note keeps the colour of the words it mentions, and is dim otherwise. */
  lemma NoteColour(on: Style, text: string)
    requires on.color
    ensures Note(on, text) == if Value(on, text) != text then Value(on, text) else InDim(text)
  {
    Sequences31();
    PlainCodes();
  }
}
