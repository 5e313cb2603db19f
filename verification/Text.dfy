/** Go string operations, over code points. */
module Text {
  import opened Sequences

  const MAX_INT: nat := 0x7FFF_FFFF_FFFF_FFFF

  // ---- Decimal numbers ----

  predicate IsDigit(c: char) {
    '0' <= c <= '9'
  }

  ghost predicate AllDigits(s: string) {
    forall i :: 0 <= i < |s| ==> IsDigit(s[i])
  }

  function DigitChar(d: nat): char
    requires d < 10
  {
    ('0' as int + d) as char
  }

  function DigitValue(c: char): int {
    c as int - '0' as int
  }

  /** fmt's %d for a non-negative number. */
  function Decimal(n: nat): (s: string)
    ensures s != [] && AllDigits(s)
  {
    if n < 10 then [DigitChar(n)] else Decimal(n / 10) + [DigitChar(n % 10)]
  }

  function DecimalInt(n: int): string {
    if n < 0 then "-" + Decimal(-n) else Decimal(n)
  }

  function ParseDecimal(s: string): int {
    if s == [] then 0 else 10 * ParseDecimal(Front(s)) + DigitValue(Last(s))
  }

  lemma {:induction false} ParseUndoesPrint(n: nat)
    ensures ParseDecimal(Decimal(n)) == n
  {
    if n < 10 {
      assert Front(Decimal(n)) == [];
      assert ParseDecimal([]) == 0;
    } else {
      ParseUndoesPrint(n / 10);
      assert Front(Decimal(n)) == Decimal(n / 10) && Last(Decimal(n)) == DigitChar(n % 10);
    }
  }

  lemma DecimalInjective(a: nat, b: nat)
    requires Decimal(a) == Decimal(b)
    ensures a == b
  {
    ParseUndoesPrint(a);
    ParseUndoesPrint(b);
  }

  /** strconv.Atoi of a digit string, ignoring its range error: the value saturates. */
  function AtoiClamped(s: string): int {
    if ParseDecimal(s) > MAX_INT then MAX_INT else ParseDecimal(s)
  }

  /** The length of the run of digits `s` starts with: what `\d+` matches. */
  function DigitRun(s: string): (n: nat)
    ensures n <= |s|
  {
    if s != [] && IsDigit(s[0]) then DigitRun(s[1..]) + 1 else 0
  }

  lemma {:induction false} DigitRunIs(d: string, rest: string)
    requires AllDigits(d) && (rest == [] || !IsDigit(rest[0]))
    ensures DigitRun(d + rest) == |d|
  {
    if d == [] {
      assert d + rest == rest;
    } else {
      assert (d + rest)[1..] == d[1..] + rest;
      DigitRunIs(d[1..], rest);
    }
  }

  // ---- White space and trimming ----

  /** unicode.IsSpace: the White_Space code points. */
  predicate IsSpace(c: char) {
    || '\U{9}' <= c <= '\U{d}' || c == ' ' || c == '\U{85}' || c == '\U{a0}' || c == '\U{1680}'
    || '\U{2000}' <= c <= '\U{200a}' || c == '\U{2028}' || c == '\U{2029}' || c == '\U{202f}'
    || c == '\U{205f}' || c == '\U{3000}'
  }

  /** The regexp class \s. */
  predicate IsRegexpSpace(c: char) {
    c == '\t' || c == '\n' || c == '\U{c}' || c == '\r' || c == ' '
  }

  predicate IsDot(c: char) {
    c == '.'
  }

  function TrimLeft(p: char -> bool, s: string): string {
    if s != [] && p(s[0]) then TrimLeft(p, s[1..]) else s
  }

  function TrimRight(p: char -> bool, s: string): string {
    if s != [] && p(Last(s)) then TrimRight(p, Front(s)) else s
  }

  function Trim(p: char -> bool, s: string): string {
    TrimRight(p, TrimLeft(p, s))
  }

  lemma {:induction false} TrimLeftSlice(p: char -> bool, s: string) returns (lo: nat)
    ensures lo <= |s| && TrimLeft(p, s) == s[lo..]
    ensures lo < |s| ==> !p(s[lo])
    ensures forall i :: 0 <= i < lo ==> p(s[i])
  {
    if s != [] && p(s[0]) {
      lo := TrimLeftSlice(p, s[1..]);
      lo := lo + 1;
    } else {
      lo := 0;
    }
  }

  lemma {:induction false} TrimRightSlice(p: char -> bool, s: string) returns (hi: nat)
    ensures hi <= |s| && TrimRight(p, s) == s[..hi]
    ensures hi > 0 ==> !p(s[hi - 1])
    ensures forall i :: hi <= i < |s| ==> p(s[i])
  {
    if s != [] && p(Last(s)) {
      hi := TrimRightSlice(p, Front(s));
    } else {
      hi := |s|;
    }
  }

  lemma TrimSlice(p: char -> bool, s: string) returns (lo: nat, hi: nat)
    ensures lo <= hi <= |s| && Trim(p, s) == s[lo..hi]
    ensures lo < hi ==> !p(s[lo]) && !p(s[hi - 1])
  {
    lo := TrimLeftSlice(p, s);
    hi := TrimRightSlice(p, s[lo..]);
    assert s[lo..][..hi] == s[lo..lo + hi];
    assert hi > 0 ==> s[lo..][hi - 1] == s[lo + hi - 1];
    hi := lo + hi;
  }

  lemma {:induction false} TrimLeftIs(p: char -> bool, left: string, rest: string)
    requires forall c :: c in left ==> p(c)
    requires rest == [] || !p(rest[0])
    ensures TrimLeft(p, left + rest) == rest
  {
    if left == [] {
      assert left + rest == rest;
    } else {
      assert (left + rest)[1..] == left[1..] + rest;
      TrimLeftIs(p, left[1..], rest);
    }
  }

  lemma {:induction false} TrimRightIs(p: char -> bool, rest: string, right: string)
    requires forall c :: c in right ==> p(c)
    requires rest == [] || !p(Last(rest))
    ensures TrimRight(p, rest + right) == rest
  {
    if right == [] {
      assert rest + right == rest;
    } else {
      assert Front(rest + right) == rest + Front(right);
      TrimRightIs(p, rest, Front(right));
    }
  }

  /** Trimming removes exactly the padding around a core that does not start or end with it. */
  lemma TrimIs(p: char -> bool, left: string, core: string, right: string)
    requires forall c :: c in left || c in right ==> p(c)
    requires core == [] || (!p(core[0]) && !p(Last(core)))
    ensures Trim(p, left + core + right) == core
  {
    if core == [] {
      assert left + core + right == left + right + [];
      TrimLeftIs(p, left + right, []);
    } else {
      assert left + core + right == left + (core + right);
      TrimLeftIs(p, left, core + right);
      TrimRightIs(p, core, right);
    }
  }

  // ---- Searching ----

  /** strings.Index. */
  function Index(s: string, sub: string): (r: Option<nat>)
    ensures r.Some? ==> r.value <= |s|
  {
    if sub <= s then Some(0)
    else if s == [] then None
    else match Index(s[1..], sub)
         case None => None
         case Some(i) => Some(i + 1)
  }

  lemma {:induction false} IndexIsFirst(s: string, sub: string)
    ensures match Index(s, sub)
            case Some(i) => sub <= s[i..] && forall j :: 0 <= j < i ==> !(sub <= s[j..])
            case None => forall j :: 0 <= j <= |s| ==> !(sub <= s[j..])
  {
    assert s[0..] == s;
    if !(sub <= s) && s != [] {
      IndexIsFirst(s[1..], sub);
      assert forall j :: 1 <= j <= |s| ==> s[j..] == s[1..][j - 1..];
    }
  }

  predicate Contains(s: string, sub: string) {
    Index(s, sub).Some?
  }

  function LowerChar(c: char): char {
    if 'A' <= c <= 'Z' then (c as int + 32) as char else c
  }

  function Lower(s: string): string {
    Map(LowerChar, s)
  }

  lemma ContainsIff(s: string, sub: string)
    ensures Contains(s, sub) <==> exists j :: 0 <= j <= |s| && sub <= s[j..]
  {
    IndexIsFirst(s, sub);
  }

  lemma NeedsItsLetters(text: string, word: string, i: nat)
    requires i < |word| && word[i] !in text
    ensures !Contains(text, word)
  {
    ContainsIff(text, word);
  }

  lemma ContainsAt(text: string, before: string, word: string, after: string)
    requires text == before + word + after
    ensures Contains(text, word)
  {
    ContainsIff(text, word);
    assert text[|before|..] == word + after;
  }

  lemma LowerStays(s: string)
    requires forall c :: c in s ==> !('A' <= c <= 'Z')
    ensures Lower(s) == s
  {
    assert forall i :: 0 <= i < |s| ==> s[i] in s && Lower(s)[i] == LowerChar(s[i]);
  }

  lemma OccursInSlice(s: string, sub: string, lo: nat, hi: nat, j: nat)
    requires lo <= hi <= |s| && j <= hi - lo
    ensures sub <= s[lo..hi][j..] ==> sub <= s[lo + j..]
  {
    if sub <= s[lo..hi][j..] {
      assert sub == s[lo..hi][j..][..|sub|] == s[lo + j..][..|sub|];
    }
  }

  lemma NotInSlice(s: string, sub: string, lo: nat, hi: nat)
    requires lo <= hi <= |s| && !Contains(s, sub)
    ensures !Contains(s[lo..hi], sub)
  {
    ContainsIff(s, sub);
    ContainsIff(s[lo..hi], sub);
    forall j | 0 <= j <= hi - lo ensures !(sub <= s[lo..hi][j..]) {
      OccursInSlice(s, sub, lo, hi, j);
    }
  }

  /** An occurrence of a needle without `c` lies on one side of `c`. */
  lemma OccursOnOneSide(a: string, c: char, b: string, sub: string, j: nat)
    requires sub != [] && c !in sub && j <= |a| + 1 + |b|
    ensures sub <= (a + [c] + b)[j..] ==>
              (j + |sub| <= |a| && sub <= a[j..]) || (j > |a| && sub <= b[j - |a| - 1..])
  {
    var s := a + [c] + b;
    if sub <= s[j..] {
      forall i | j <= i < j + |sub| ensures s[i] != c {
        assert s[i] == s[j..][i - j] == sub[i - j];
      }
      assert s[|a|] == c;
      if j > |a| {
        assert sub == s[j..][..|sub|] == b[j - |a| - 1..][..|sub|];
      } else {
        assert sub == s[j..][..|sub|] == a[j..][..|sub|];
      }
    }
  }

  /** A separator that is not part of the needle keeps occurrences apart. */
  lemma NotInAcross(a: string, c: char, b: string, sub: string)
    requires sub != [] && c !in sub && !Contains(a, sub) && !Contains(b, sub)
    ensures !Contains(a + [c] + b, sub)
  {
    ContainsIff(a, sub);
    ContainsIff(b, sub);
    ContainsIff(a + [c] + b, sub);
    forall j | 0 <= j <= |a| + 1 + |b| ensures !(sub <= (a + [c] + b)[j..]) {
      OccursOnOneSide(a, c, b, sub, j);
    }
  }

  lemma NotInWithout(s: string, sub: string)
    requires sub != [] && sub[0] !in s
    ensures !Contains(s, sub)
  {
    ContainsIff(s, sub);
    forall j | 0 <= j <= |s| ensures !(sub <= s[j..]) {
      assert j < |s| ==> s[j..][0] == s[j];
    }
  }

  /** The first occurrence after a clean prefix and a separator. */
  lemma IndexAfter(a: string, c: char, b: string, sub: string)
    requires sub != [] && c !in sub && !Contains(a, sub) && sub <= b
    ensures Index(a + [c] + b, sub) == Some(|a| + 1)
  {
    var s := a + [c] + b;
    assert s[|a| + 1..] == b;
    IndexIsFirst(s, sub);
    ContainsIff(a, sub);
    forall j | 0 <= j <= |a| ensures !(sub <= s[j..]) {
      OccursOnOneSide(a, c, b, sub, j);
    }
  }

  // ---- Splitting ----

  function Find(s: string, c: char): (r: Option<nat>)
    ensures r.Some? ==> r.value < |s|
  {
    if s == [] then None
    else if s[0] == c then Some(0)
    else match Find(s[1..], c)
         case None => None
         case Some(i) => Some(i + 1)
  }

  lemma {:induction false} FindIs(a: string, c: char, b: string)
    requires c !in a
    ensures Find(a + [c] + b, c) == Some(|a|)
  {
    if a == [] {
      assert a + [c] + b == [c] + b;
    } else {
      assert (a + [c] + b)[1..] == a[1..] + [c] + b;
      FindIs(a[1..], c, b);
    }
  }

  lemma {:induction false} FindNone(s: string, c: char)
    ensures Find(s, c).None? <==> c !in s
    ensures Find(s, c).Some? ==> c !in s[..Find(s, c).value]
  {
    if s != [] && s[0] != c {
      FindNone(s[1..], c);
      assert s == [s[0]] + s[1..];
      match Find(s[1..], c) {
        case None =>
        case Some(i) => assert s[..i + 1] == [s[0]] + s[1..][..i];
      }
    }
  }

  /** strings.Split on one character. */
  function Split(s: string, c: char): seq<string>
    decreases |s|
  {
    match Find(s, c)
    case None => [s]
    case Some(i) => [s[..i]] + Split(s[i + 1..], c)
  }

  lemma {:induction false} SplitPieces(s: string, c: char, piece: string)
    requires piece in Split(s, c)
    ensures c !in piece && exists lo, hi :: 0 <= lo <= hi <= |s| && piece == s[lo..hi]
    decreases |s|
  {
    FindNone(s, c);
    match Find(s, c) {
      case None =>
        assert piece == s[0..|s|];
      case Some(i) =>
        if piece == s[..i] {
          assert piece == s[0..i];
        } else {
          assert piece in Split(s[i + 1..], c);
          SplitPieces(s[i + 1..], c, piece);
          var lo, hi :| 0 <= lo <= hi <= |s[i + 1..]| && piece == s[i + 1..][lo..hi];
          assert s[i + 1..] == s[i + 1..|s|];
          SliceOfSlice(s, i + 1, |s|, lo, hi);
        }
    }
  }

  /** strings.Join. */
  function Join(parts: seq<string>, sep: string): string {
    if parts == [] then "" else if |parts| == 1 then parts[0] else Join(Front(parts), sep) + sep + Last(parts)
  }
}
