/** Painting text with ANSI sequences, and taking them off again (internal/output/color.go and
    paint in internal/output/style.go). */
module Colour {
  import opened Sequences
  import opened Text

  const ESC: char := '\U{1b}'

  /** "\\x1b[" + parameters + "m". */
  function Sgr(parameters: string): string {
    [ESC, '['] + parameters + ['m']
  }

  const RESET := "0"
  const BOLD := "1"
  const DIM := "2"
  const RED := "31"
  const GREEN := "32"
  const YELLOW := "33"
  const BLUE := "34"
  const MAGENTA := "35"
  const CYAN := "36"

  // ---- Stripping ----

  predicate IsParameter(c: char) {
    IsDigit(c) || c == ';'
  }

  ghost predicate Parameters(s: string) {
    forall i :: 0 <= i < |s| ==> IsParameter(s[i])
  }

  function ParameterRun(s: string): (n: nat)
    ensures n <= |s| && Parameters(s[..n]) && (n < |s| ==> !IsParameter(s[n]))
  {
    if s == [] || !IsParameter(s[0]) then 0
    else
      var n := ParameterRun(s[1..]);
      assert forall i :: 0 < i < n + 1 ==> s[i] == s[1..][..n][i - 1];
      n + 1
  }

  /** The length of the sequence `\x1b\[[0-9;]*m` that `s` starts with, or zero. */
  function SgrLength(s: string): (n: nat)
    ensures n <= |s|
  {
    if |s| < 3 || s[0] != ESC || s[1] != '[' then 0
    else
      var n := ParameterRun(s[2..]);
      if n + 2 < |s| && s[n + 2] == 'm' then n + 3 else 0
  }

  /** Removes every sequence, leftmost first. */
  function Strip(s: string): string {
    if s == [] then []
    else if SgrLength(s) > 0 then Strip(s[SgrLength(s)..])
    else [s[0]] + Strip(s[1..])
  }

  /** A sequence of length `n` at the front, without following how it is found. */
  ghost predicate Starts(s: string, n: nat) {
    3 <= n <= |s| && s[0] == ESC && s[1] == '[' && s[n - 1] == 'm' && forall i :: 2 <= i < n - 1 ==> IsParameter(s[i])
  }

  lemma SgrLengthIff(s: string, n: nat)
    requires n > 0
    ensures SgrLength(s) == n <==> Starts(s, n)
  {
    if |s| >= 3 && s[0] == ESC && s[1] == '[' {
      var k := ParameterRun(s[2..]);
      assert forall i :: 0 <= i < k ==> s[2..][..k][i] == s[2 + i];
      assert forall i :: 0 <= i < |s| - 2 ==> s[2..][i] == s[2 + i];
    }
  }

  /** No sequence runs from `a` into `b`. */
  ghost predicate Seam(a: string, b: string) {
    || a == [] || b == []
    || (b[0] != '[' && b[0] != 'm' && !IsParameter(b[0]))
    || (Last(a) != ESC && Last(a) != '[' && !IsParameter(Last(a)))
  }

  lemma StartsAcross(a: string, code: string, b: string, n: nat)
    requires a != [] && Seam(a, b) && n > 0 && code != [] && code[0] == ESC
    ensures Starts(a + b, n) <==> Starts(a + code + b, n)
    ensures Starts(a + b, n) ==> n <= |a|
  {
    var s, t := a + b, a + code + b;
    assert forall i :: 0 <= i < |a| ==> s[i] == a[i] == t[i];
    assert t[|a|] == ESC;
    assert b != [] ==> s[|a|] == b[0];
  }

  /** `c` is `p` with sequences added: stripping gives `p` back, whatever follows. */
  ghost predicate Erases(c: string, p: string) {
    forall after :: Strip(c + after) == p + Strip(after)
  }

  /** One or more complete sequences. */
  ghost predicate IsCode(code: string) {
    code != [] && code[0] == ESC && Erases(code, [])
  }

  lemma SgrIsCode(parameters: string)
    requires Parameters(parameters)
    ensures IsCode(Sgr(parameters))
  {
    var code := Sgr(parameters);
    forall after ensures Strip(code + after) == [] + Strip(after) {
      var t := code + after;
      assert forall i :: 2 <= i < |code| - 1 ==> t[i] == parameters[i - 2];
      SgrLengthIff(t, |code|);
      assert t[|code|..] == after;
    }
  }

  /** A code inserted where no sequence runs across changes nothing. */
  lemma {:induction false} StripInserted(a: string, code: string, b: string)
    requires IsCode(code) && Seam(a, b)
    ensures Strip(a + code + b) == Strip(a + b)
    decreases |a|
  {
    if a == [] {
      assert a + code + b == code + b && a + b == b;
    } else {
      SameStart(a, code, b);
      var n := SgrLength(a + b);
      var k := if n > 0 then n else 1;
      StripInserted(a[k..], code, b);
      DropFront(a, code, b, k);
    }
  }

  lemma DropFront(a: string, code: string, b: string, k: nat)
    requires k <= |a|
    ensures (a + b)[k..] == a[k..] + b && (a + code + b)[k..] == a[k..] + code + b
    ensures a != [] ==> (a + b)[0] == a[0] == (a + code + b)[0]
  {
  }

  lemma SameStart(a: string, code: string, b: string)
    requires a != [] && Seam(a, b) && code != [] && code[0] == ESC
    ensures SgrLength(a + code + b) == SgrLength(a + b) <= |a|
  {
    var s, t := a + b, a + code + b;
    if SgrLength(s) > 0 {
      SgrLengthIff(s, SgrLength(s));
      StartsAcross(a, code, b, SgrLength(s));
      SgrLengthIff(t, SgrLength(s));
    } else if SgrLength(t) > 0 {
      SgrLengthIff(t, SgrLength(t));
      StartsAcross(a, code, b, SgrLength(t));
      SgrLengthIff(s, SgrLength(t));
    }
  }

  // ---- The vocabulary ----

  /** A regexp word character. */
  predicate IsWordChar(c: char) {
    IsDigit(c) || 'a' <= c <= 'z' || 'A' <= c <= 'Z' || c == '_'
  }

  predicate WordAfter(s: string) {
    s != [] && IsWordChar(s[0])
  }

  /** The first word of the list that `\b(w1|w2|...)\b` matches here. */
  function MatchHere(prev: bool, s: string, words: seq<string>): (r: Option<string>)
    ensures r.Some? ==> r.value in words && r.value != [] && r.value <= s
  {
    if words == [] then None
    else
      var earlier := MatchHere(prev, s, Front(words));
      var w := Last(words);
      if earlier.Some? then earlier
      else if w != [] && w <= s && prev != IsWordChar(w[0]) && IsWordChar(Last(w)) != WordAfter(s[|w|..]) then Some(w)
      else None
  }

  /** ReplaceAllString: every leftmost match painted; `prev` tells whether a word character came before. */
  function PaintWords(prev: bool, s: string, words: seq<string>, code: string): string
    decreases |s|
  {
    if s == [] then []
    else
      match MatchHere(prev, s, words)
      case Some(w) => Sgr(code) + w + Sgr(RESET) + PaintWords(IsWordChar(Last(w)), s[|w|..], words, code)
      case None => [s[0]] + PaintWords(IsWordChar(s[0]), s[1..], words, code)
  }

  const GOOD_STATES := ["Running", "Ready", "True", "Bound", "Completed", "Succeeded"]
  const GOOD_OTHERS := ["Active", "Available", "Healthy", "exists", "Found", "healthy"]
  const GOOD_WORDS := GOOD_STATES + GOOD_OTHERS

  const BAD_STATES := ["CrashLoopBackOff", "OOMKilled", "Error", "Failed", "False", "NotFound", "Unhealthy", "Evicted"]
  const BAD_IMAGES := ["ImagePullBackOff", "ErrImagePull", "InvalidImageName", "ErrImageNeverPull", "CreateContainerConfigError", "CreateContainerError"]
  const BAD_CLUSTER := ["Lost", "Forbidden", "Unschedulable", "ProgressDeadlineExceeded", "FailedMount"]
  const BAD_REASONS := ["FailedScheduling", "FailedBinding", "ProvisioningFailed", "FailedCreate", "NotReady", "unhealthy"]
  const BAD_PHRASES := ["does not exist", "not found", "could not be read", "not started", "none published"]
  const BAD_WORDS := BAD_STATES + BAD_IMAGES + BAD_CLUSTER + BAD_REASONS + BAD_PHRASES

  const WARN_STATES := ["Pending", "ContainerCreating", "PodInitializing", "Unknown", "Terminating", "Waiting", "Terminated", "BackOff"]
  const WARN_OTHERS := ["ContainersNotReady", "Paused", "paused", "degraded", "unknown", "no status reported", "no reason reported"]
  const WARN_WORDS := WARN_STATES + WARN_OTHERS

  /** A word that neither continues nor leaves open an ANSI sequence. */
  ghost predicate Inert(w: string) {
    && w != [] && w[0] != '[' && w[0] != 'm' && !IsParameter(w[0])
    && Last(w) != ESC && Last(w) != '[' && !IsParameter(Last(w))
  }

  ghost predicate AllInert(words: seq<string>) {
    forall w :: w in words ==> Inert(w)
  }

  lemma InertConcat(a: seq<string>, b: seq<string>)
    requires AllInert(a) && AllInert(b)
    ensures AllInert(a + b)
  {
  }

  lemma GoodWordsInert()
    ensures AllInert(GOOD_WORDS)
  {
    GoodStatesInert();
    GoodOthersInert();
    InertConcat(GOOD_STATES, GOOD_OTHERS);
  }

  lemma GoodStatesInert()
    ensures AllInert(GOOD_STATES)
  {
  }

  lemma GoodOthersInert()
    ensures AllInert(GOOD_OTHERS)
  {
  }

  lemma BadWordsInert()
    ensures AllInert(BAD_WORDS)
  {
    BadStatesInert();
    BadImagesInert();
    BadClusterInert();
    BadReasonsInert();
    BadPhrasesInert();
    InertConcat(BAD_STATES, BAD_IMAGES);
    InertConcat(BAD_STATES + BAD_IMAGES, BAD_CLUSTER);
    InertConcat(BAD_STATES + BAD_IMAGES + BAD_CLUSTER, BAD_REASONS);
    InertConcat(BAD_STATES + BAD_IMAGES + BAD_CLUSTER + BAD_REASONS, BAD_PHRASES);
  }

  lemma BadStatesInert()
    ensures AllInert(BAD_STATES)
  {
  }

  lemma BadImagesInert()
    ensures AllInert(BAD_IMAGES)
  {
  }

  lemma BadClusterInert()
    ensures AllInert(BAD_CLUSTER)
  {
  }

  lemma BadReasonsInert()
    ensures AllInert(BAD_REASONS)
  {
  }

  lemma BadPhrasesInert()
    ensures AllInert(BAD_PHRASES)
  {
  }

  lemma WarnWordsInert()
    ensures AllInert(WARN_WORDS)
  {
    WarnStatesInert();
    WarnOthersInert();
    InertConcat(WARN_STATES, WARN_OTHERS);
  }

  lemma WarnStatesInert()
    ensures AllInert(WARN_STATES)
  {
  }

  lemma WarnOthersInert()
    ensures AllInert(WARN_OTHERS)
  {
  }

  lemma AroundWord(before: string, code: string, w: string, reset: string, after: string)
    requires Inert(w)
    ensures before + code + w + reset + after == before + (code + w + reset + after)
    ensures before + code + w + after == before + code + (w + after)
    ensures Seam(before + code + w, after) && Seam(before, w + after)
  {
    assert Last(before + code + w) == Last(w);
    assert (w + after)[0] == w[0];
  }

  /** Painting one inert word inside a text is erasable. */
  lemma WordErasable(before: string, code: string, w: string, reset: string, after: string)
    requires IsCode(code) && IsCode(reset) && Inert(w)
    ensures Strip(before + (code + w + reset + after)) == Strip(before + (w + after))
  {
    AroundWord(before, code, w, reset, after);
    StripInserted(before + code + w, reset, after);
    StripInserted(before, code, w + after);
  }

  lemma PassStep(before: string, piece: string, painted: string, plain: string, after: string)
    requires Strip(before + piece + (painted + after)) == Strip(before + piece + (plain + after))
    ensures Strip(before + (piece + painted + after)) == Strip(before + (piece + plain + after))
  {
    Shift(before, piece, painted, after);
    Shift(before, piece, plain, after);
  }

  lemma PaintedPieces(c: string, w: string, r: string, painted: string, after: string)
    ensures c + w + r + (painted + after) == c + w + r + painted + after
    ensures w + (painted + after) == w + painted + after
  {
  }

  lemma PassWord(before: string, code: string, w: string, painted: string, plain: string, after: string)
    requires Inert(w) && Parameters(code)
    requires Strip(before + w + (painted + after)) == Strip(before + w + (plain + after))
    ensures Strip(before + (Sgr(code) + w + Sgr(RESET) + painted + after)) == Strip(before + (w + plain + after))
  {
    var c, r := Sgr(code), Sgr(RESET);
    SgrIsCode(code);
    SgrIsCode(RESET);
    WordErasable(before, c, w, r, painted + after);
    PaintedPieces(c, w, r, painted, after);
    PassStep(before, w, painted, plain, after);
  }

  /** What one step of a pass consumes, and what it writes. */
  function Piece(prev: bool, s: string, words: seq<string>): (piece: string)
    requires s != []
    ensures piece != [] && |piece| <= |s| && piece == s[..|piece|]
  {
    var hit := MatchHere(prev, s, words);
    if hit.Some? then hit.value else [s[0]]
  }

  lemma PaintStep(prev: bool, s: string, words: seq<string>, code: string)
    requires s != []
    ensures PaintWords(prev, s, words, code)
         == var piece := Piece(prev, s, words);
            var rest := PaintWords(IsWordChar(Last(piece)), s[|piece|..], words, code);
            if MatchHere(prev, s, words).Some? then Sgr(code) + piece + Sgr(RESET) + rest else piece + rest
  {
  }

  lemma MatchIsInert(prev: bool, s: string, words: seq<string>)
    requires AllInert(words) && MatchHere(prev, s, words).Some?
    ensures Inert(MatchHere(prev, s, words).value)
  {
  }

  lemma PassCase(before: string, hit: bool, code: string, piece: string, painted: string, rest: string, out: string, after: string)
    requires Parameters(code) && (hit ==> Inert(piece))
    requires out == if hit then Sgr(code) + piece + Sgr(RESET) + painted else piece + painted
    requires Strip(before + piece + (painted + after)) == Strip(before + piece + (rest + after))
    ensures Strip(before + (out + after)) == Strip(before + (piece + rest + after))
  {
    if hit {
      PassWord(before, code, piece, painted, rest, after);
    } else {
      PassStep(before, piece, painted, rest, after);
    }
  }

  /** One pass over any text, coloured or not, adds nothing that stripping does not remove. */
  lemma {:induction false} PassErasable(before: string, prev: bool, s: string, words: seq<string>, code: string, after: string)
    requires AllInert(words) && Parameters(code)
    ensures Strip(before + (PaintWords(prev, s, words, code) + after)) == Strip(before + (s + after))
    decreases |s|
  {
    if s == [] {
      assert PaintWords(prev, s, words, code) == s;
    } else {
      var piece := Piece(prev, s, words);
      var rest := s[|piece|..];
      PassErasable(before + piece, IsWordChar(Last(piece)), rest, words, code, after);
      PaintStep(prev, s, words, code);
      var hit := MatchHere(prev, s, words).Some?;
      if hit {
        MatchIsInert(prev, s, words);
      }
      PassCase(before, hit, code, piece, PaintWords(IsWordChar(Last(piece)), rest, words, code), rest, PaintWords(prev, s, words, code), after);
      assert piece + rest == s;
    }
  }

  lemma Shift(a: string, b: string, c: string, d: string)
    ensures a + b + (c + d) == a + (b + c + d)
  {
  }

  // ---- Styles ----

  datatype Style = Style(color: bool, unicode: bool, width: int)

  function Paint(st: Style, code: string, text: string): string {
    if !st.color || text == "" then text else code + text + Sgr(RESET)
  }

  function SpaceRun(s: string): (n: nat)
    ensures n <= |s|
  {
    if s != [] && IsRegexpSpace(s[0]) then SpaceRun(s[1..]) + 1 else 0
  }

  /** What follows `\s*(?:of|/)\s*`. */
  function AfterSlash(s: string): Option<string> {
    var t := s[SpaceRun(s)..];
    if "of" <= t then Some(t[2..][SpaceRun(t[2..])..])
    else if "/" <= t then Some(t[1..][SpaceRun(t[1..])..])
    else None
  }

  /** The counts of a text like "0 of 3" or "0/1". */
  function Ratio(text: string): Option<(int, int)> {
    var n := DigitRun(text);
    match AfterSlash(text[n..])
    case None => None
    case Some(rest) =>
      var m := DigitRun(rest);
      if n == 0 || m == 0 || WordAfter(rest[m..]) then None else Some((AtoiClamped(text[..n]), AtoiClamped(rest[..m])))
  }

  function ThreePasses(text: string): string {
    var bad := PaintWords(false, text, BAD_WORDS, RED);
    var warned := PaintWords(false, bad, WARN_WORDS, YELLOW);
    PaintWords(false, warned, GOOD_WORDS, GREEN)
  }

  function Value(st: Style, text: string): string {
    if !st.color || text == "" then text
    else
      match Ratio(text)
      case Some((have, want)) =>
        Paint(st, Sgr(if want > 0 && have == 0 then RED else if have < want then YELLOW else GREEN), text)
      case None => ThreePasses(text)
  }

  function Note(st: Style, text: string): string {
    if !st.color || text == "" then text
    else if Value(st, text) != text then Value(st, text)
    else Paint(st, Sgr(DIM), text)
  }

  lemma PassesErasable(text: string, after: string)
    ensures Strip(ThreePasses(text) + after) == Strip(text + after)
  {
    GoodWordsInert();
    BadWordsInert();
    WarnWordsInert();
    PassOnce(text, BAD_WORDS, RED, after);
    var bad := PaintWords(false, text, BAD_WORDS, RED);
    PassOnce(bad, WARN_WORDS, YELLOW, after);
    PassOnce(PaintWords(false, bad, WARN_WORDS, YELLOW), GOOD_WORDS, GREEN, after);
  }

  lemma PassOnce(s: string, words: seq<string>, code: string, after: string)
    requires AllInert(words) && Parameters(code)
    ensures Strip(PaintWords(false, s, words, code) + after) == Strip(s + after)
  {
    PassErasable([], false, s, words, code, after);
    assert [] + (PaintWords(false, s, words, code) + after) == PaintWords(false, s, words, code) + after;
    assert [] + (s + after) == s + after;
  }

  lemma CodeAfter(code: string, after: string)
    requires IsCode(code)
    ensures Strip(code + after) == Strip(after)
  {
    ErasesAfter(code, "", after);
    assert "" + Strip(after) == Strip(after);
  }

  lemma EnclosedPlain(text: string, reset: string, after: string)
    requires Strip(reset + after) == Strip(after) && ESC !in text
    ensures Strip(text + reset + after) == Strip(text + after)
  {
    StripPlain(text, reset + after);
    StripPlain(text, after);
    assert text + (reset + after) == text + reset + after;
  }

  lemma EnclosedErasable(code: string, text: string, reset: string, after: string)
    requires IsCode(code) && IsCode(reset) && (after == [] || ESC !in text)
    ensures Strip(code + (text + reset + after)) == Strip(text + after)
  {
    CodeAfter(code, text + reset + after);
    if after == [] {
      StripInserted(text, reset, after);
    } else {
      CodeAfter(reset, after);
      EnclosedPlain(text, reset, after);
    }
  }

  lemma PaintErasable(st: Style, code: string, text: string, after: string)
    requires IsCode(code) && (after == [] || ESC !in text)
    ensures Strip(Paint(st, code, text) + after) == Strip(text + after)
  {
    if st.color && text != "" {
      var reset := Sgr(RESET);
      SgrIsCode(RESET);
      EnclosedErasable(code, text, reset, after);
      Regroup(code, text, reset, after);
    }
  }

  lemma Regroup(a: string, b: string, c: string, d: string)
    ensures a + (b + c + d) == a + b + c + d
  {
  }

  /** Text without escapes passes through. */
  lemma {:induction false} StripPlain(text: string, after: string)
    requires ESC !in text
    ensures Strip(text + after) == text + Strip(after)
  {
    if text == [] {
      assert text + after == after;
    } else {
      assert (text + after)[1..] == text[1..] + after;
      assert (text + after)[0] != ESC;
      StripPlain(text[1..], after);
      assert text == [text[0]] + text[1..];
    }
  }

  /** Colouring a value is erasable whatever the value contains, escape characters included. */
  lemma ValueErasable(st: Style, text: string)
    ensures Strip(Value(st, text)) == Strip(text) && Strip(Note(st, text)) == Strip(text)
  {
    ValueErasableBefore(st, text, []);
    assert Value(st, text) + [] == Value(st, text) && text + [] == text;
    SgrIsCode(DIM);
    PaintErasable(st, Sgr(DIM), text, []);
    assert Paint(st, Sgr(DIM), text) + [] == Paint(st, Sgr(DIM), text);
  }

  lemma ValueErasableBefore(st: Style, text: string, after: string)
    requires after == [] || ESC !in text
    ensures Strip(Value(st, text) + after) == Strip(text + after)
  {
    if st.color && text != "" {
      if Ratio(text).None? {
        PassesErasable(text, after);
      } else {
        var (have, want) := Ratio(text).value;
        var parameters := if want > 0 && have == 0 then RED else if have < want then YELLOW else GREEN;
        assert Parameters(parameters);
        SgrIsCode(parameters);
        PaintErasable(st, Sgr(parameters), text, after);
      }
    }
  }

  // ---- Composing coloured text ----

  lemma PlainErases(p: string)
    requires ESC !in p
    ensures Erases(p, p)
  {
    forall after ensures Strip(p + after) == p + Strip(after) {
      StripPlain(p, after);
    }
  }

  lemma PaintErases(st: Style, code: string, p: string)
    requires ESC !in p && IsCode(code)
    ensures Erases(Paint(st, code, p), p)
  {
    forall after ensures Strip(Paint(st, code, p) + after) == p + Strip(after) {
      PaintErasable(st, code, p, after);
      StripPlain(p, after);
    }
  }

  lemma ValueErases(st: Style, p: string)
    requires ESC !in p
    ensures Erases(Value(st, p), p) && Erases(Note(st, p), p)
  {
    forall after ensures Strip(Value(st, p) + after) == p + Strip(after) {
      ValueErasableBefore(st, p, after);
      StripPlain(p, after);
    }
    SgrIsCode(DIM);
    PaintErases(st, Sgr(DIM), p);
    PlainErases(p);
  }

  lemma ConcatErases(c: string, p: string, d: string, q: string)
    requires Erases(c, p) && Erases(d, q)
    ensures Erases(c + d, p + q)
  {
    forall after ensures Strip(c + d + after) == p + q + Strip(after) {
      ErasesAfter(c, p, d + after);
      ErasesAfter(d, q, after);
      TwoErased(c, p, d, q, after);
    }
  }

  lemma TwoErased(c: string, p: string, d: string, q: string, after: string)
    requires Strip(c + (d + after)) == p + Strip(d + after) && Strip(d + after) == q + Strip(after)
    ensures Strip(c + d + after) == p + q + Strip(after)
  {
    assert c + d + after == c + (d + after);
  }

  lemma ErasesAfter(c: string, p: string, after: string)
    requires Erases(c, p)
    ensures Strip(c + after) == p + Strip(after)
  {
  }

  lemma CodesConcat(c: string, d: string)
    requires IsCode(c) && IsCode(d)
    ensures IsCode(c + d)
  {
    ConcatErases(c, "", d, "");
    assert "" + "" == "";
  }
}
