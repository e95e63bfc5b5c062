/** Character classes and string tests the core uses: Kotlin's `isBlank`, `isDigit`,
    `contains(_, ignoreCase = true)`, the regular expression `^\d*\.?\d*$` and
    `toDoubleOrNull` on strings that expression admits. */
module Text {
  import opened Wrappers

  predicate IsAsciiDigit(c: char) { '0' <= c <= '9' }
  predicate IsAsciiUpper(c: char) { 'A' <= c <= 'Z' }
  predicate IsAsciiLetter(c: char) { 'A' <= c <= 'Z' || 'a' <= c <= 'z' }

  /** Kotlin's `Char.isWhitespace` on the JVM: `Character.isWhitespace(c) || Character.isSpaceChar(c)`. */
  predicate IsWhitespace(c: char) {
    c == ' ' || '\t' <= c <= '\r' || '\U{1C}' <= c <= '\U{1F}' ||
    c == '\U{A0}' || c == '\U{1680}' || '\U{2000}' <= c <= '\U{200A}' ||
    c == '\U{2028}' || c == '\U{2029}' || c == '\U{202F}' || c == '\U{205F}' || c == '\U{3000}'
  }

  /** `String.isBlank()`: empty or whitespace only. */
  predicate IsBlank(s: string) { forall i :: 0 <= i < |s| ==> IsWhitespace(s[i]) }

  /** ASCII case folding. Java folds a few other characters onto ASCII letters as well
      (U+017F to 's', U+212A to 'k'); they are not folded here. */
  function LowerAscii(c: char): char {
    if 'A' <= c <= 'Z' then (c as int + 32) as char else c
  }

  /** `s.startsWith(p, ignoreCase = true)`. */
  predicate StartsWithIgnoreCase(s: string, p: string) {
    |p| <= |s| && (|p| == 0 || (LowerAscii(s[0]) == LowerAscii(p[0]) && StartsWithIgnoreCase(s[1..], p[1..])))
  }

  /** `p` occurs, ignoring case, at position `i` of `s` (`regionMatches`). */
  predicate MatchesAt(s: string, p: string, i: nat) {
    i + |p| <= |s| && forall j :: 0 <= j < |p| ==> LowerAscii(s[i + j]) == LowerAscii(p[j])
  }

  /** `s.contains(p, ignoreCase = true)`: `p` occurs at some position of `s`. */
  predicate ContainsIgnoreCase(s: string, p: string) {
    exists i: nat :: i <= |s| && MatchesAt(s, p, i)
  }

  /** A pattern of two or more characters whose first two never appear side by side,
      ignoring case, is not contained. */
  lemma {:induction false} NoLeadingPair(s: string, p: string)
    requires |p| >= 2
    requires forall i :: 0 <= i < |s| - 1 ==>
      LowerAscii(s[i]) != LowerAscii(p[0]) || LowerAscii(s[i + 1]) != LowerAscii(p[1])
    ensures !ContainsIgnoreCase(s, p)
  {
    forall i: nat | i <= |s| ensures !MatchesAt(s, p, i) {
      if i + |p| <= |s| {
        assert LowerAscii(s[i]) != LowerAscii(p[0]) || LowerAscii(s[i + 1]) != LowerAscii(p[1]);
        assert s[i + 0] == s[i];
      }
    }
  }

  // ----- decimal text: the regular expression ^\d*\.?\d*$ -----

  predicate IsDigitOrDot(c: char) { IsAsciiDigit(c) || c == '.' }

  predicate AllDigits(s: string) { forall i :: 0 <= i < |s| ==> IsAsciiDigit(s[i]) }

  /** Length of the longest all-digit prefix. */
  function LeadingDigits(s: string): (k: nat)
    ensures k <= |s| && AllDigits(s[..k]) && (k < |s| ==> !IsAsciiDigit(s[k]))
  {
    if s == [] || !IsAsciiDigit(s[0]) then 0
    else
      var k := LeadingDigits(s[1..]);
      assert s[..k + 1] == [s[0]] + s[1..][..k];
      k + 1
  }

  /** `s.matches(Regex("^\\d*\\.?\\d*$"))`: digits, an optional dot, digits. */
  predicate IsDecimalText(s: string) {
    var k := LeadingDigits(s);
    k == |s| || (s[k] == '.' && AllDigits(s[k + 1..]))
  }

  /** The same language stated without the regular expression's structure:
      only digits and dots, and at most one dot. */
  lemma {:induction false} DecimalTextIsDigitsWithOneDot(s: string)
    ensures IsDecimalText(s) <==>
      (forall i :: 0 <= i < |s| ==> IsDigitOrDot(s[i])) &&
      (forall i, j :: 0 <= i < j < |s| && s[i] == '.' ==> s[j] != '.')
  {
    if IsDecimalText(s) {
      DecimalTextHasOneDot(s);
    } else if (forall i :: 0 <= i < |s| ==> IsDigitOrDot(s[i])) {
      SecondDotBreaksDecimalText(s);
    }
  }

  /** Forward direction: digits, then at most one dot, then digits. */
  lemma {:induction false} DecimalTextHasOneDot(s: string)
    requires IsDecimalText(s)
    ensures forall i :: 0 <= i < |s| ==> IsDigitOrDot(s[i])
    ensures forall i, j :: 0 <= i < j < |s| && s[i] == '.' ==> s[j] != '.'
  {
    var k := LeadingDigits(s);
    var head := s[..k];
    assert forall i :: 0 <= i < k ==> head[i] == s[i];
    if k < |s| {
      var tail := s[k + 1..];
      assert forall i :: k + 1 <= i < |s| ==> tail[i - k - 1] == s[i];
    }
  }

  /** Backward direction: text of digits and dots that is not decimal text holds two dots. */
  lemma {:induction false} SecondDotBreaksDecimalText(s: string)
    requires !IsDecimalText(s)
    requires forall i :: 0 <= i < |s| ==> IsDigitOrDot(s[i])
    ensures exists i, j :: 0 <= i < j < |s| && s[i] == '.' && s[j] == '.'
  {
    var k := LeadingDigits(s);
    assert s[k] == '.';
    var tail := s[k + 1..];
    var j :| 0 <= j < |tail| && !IsAsciiDigit(tail[j]);
    assert s[k + 1 + j] == tail[j] == '.';
  }

  predicate HasDigit(s: string) { exists i :: 0 <= i < |s| && IsAsciiDigit(s[i]) }

  predicate HasNonZeroDigit(s: string) { exists i :: 0 <= i < |s| && '1' <= s[i] <= '9' }

  /** Numeric value of a string of decimal digits. */
  function DigitsValue(s: string): (v: nat)
    requires AllDigits(s)
  {
    if s == [] then 0 else 10 * DigitsValue(s[..|s| - 1]) + (s[|s| - 1] as int - '0' as int)
  }

  lemma {:induction false} DigitsValuePositive(s: string)
    requires AllDigits(s)
    ensures DigitsValue(s) > 0 <==> exists i :: 0 <= i < |s| && s[i] != '0'
  {
    if s != [] {
      var t := s[..|s| - 1];
      DigitsValuePositive(t);
      assert forall i :: 0 <= i < |t| ==> t[i] == s[i];
    }
  }

  function Pow10(n: nat): (p: nat)
    ensures p >= 1
  {
    if n == 0 then 1 else 10 * Pow10(n - 1)
  }

  /** The integer digits and the fractional digits of a decimal text. */
  function WholePart(s: string): (w: string)
    requires IsDecimalText(s)
    ensures AllDigits(w)
  {
    s[..LeadingDigits(s)]
  }

  function FractionPart(s: string): (f: string)
    requires IsDecimalText(s)
    ensures AllDigits(f)
  {
    var k := LeadingDigits(s);
    if k == |s| then "" else s[k + 1..]
  }

  /** Where the digits of a decimal text sit: in its whole part or its fraction part. */
  lemma DecimalTextDigits(s: string)
    requires IsDecimalText(s)
    ensures HasDigit(s) <==> |WholePart(s)| + |FractionPart(s)| > 0
    ensures HasNonZeroDigit(s) <==>
      (exists i :: 0 <= i < |WholePart(s)| && WholePart(s)[i] != '0') ||
      (exists i :: 0 <= i < |FractionPart(s)| && FractionPart(s)[i] != '0')
  {
    var k := LeadingDigits(s);
    var w, f := WholePart(s), FractionPart(s);
    assert forall i :: 0 <= i < k ==> s[i] == w[i];
    assert forall i :: k < i < |s| ==> s[i] == f[i - k - 1];
    assert forall i :: 0 <= i < |f| ==> f[i] == s[i + k + 1];
    if |w| + |f| > 0 {
      if |w| > 0 { assert IsAsciiDigit(s[0]); } else { assert IsAsciiDigit(s[k + 1]); }
    }
  }

  lemma ScaledSum(a: nat, b: nat, p: nat)
    requires p >= 1
    ensures a as real + b as real / p as real >= 0.0
    ensures a as real + b as real / p as real > 0.0 <==> a > 0 || b > 0
  {
    var q := b as real / p as real;
    assert q * p as real == b as real;
    assert q >= 0.0;
    assert b > 0 ==> q > 0.0;
  }

  /** `toDoubleOrNull()` on a decimal text, with exact arithmetic: null exactly when
      there is no digit at all ("" and "."); otherwise the non-negative value written. */
  function ParseDecimal(s: string): (r: Option<real>)
    requires IsDecimalText(s)
    ensures r.None? <==> !HasDigit(s)
    ensures r.Some? ==> r.value >= 0.0
    ensures r.Some? ==> (r.value > 0.0 <==> HasNonZeroDigit(s))
  {
    var w, f := WholePart(s), FractionPart(s);
    DecimalTextDigits(s);
    DigitsValuePositive(w);
    DigitsValuePositive(f);
    ScaledSum(DigitsValue(w), DigitsValue(f), Pow10(|f|));
    if w == [] && f == [] then None
    else Some(DigitsValue(w) as real + DigitsValue(f) as real / Pow10(|f|) as real)
  }

  /** `filter { c -> c.isDigit() || c == '.' }` (the amount field of the transaction form). */
  function KeepDigitsAndDots(s: string): (r: string)
    ensures |r| <= |s|
    ensures forall i :: 0 <= i < |r| ==> IsDigitOrDot(r[i])
    ensures (forall i :: 0 <= i < |s| ==> IsDigitOrDot(s[i])) ==> r == s
  {
    if s == [] then []
    else
      var rest := KeepDigitsAndDots(s[1..]);
      if IsDigitOrDot(s[0]) then [s[0]] + rest else rest
  }

  /** The filter works character by character: filtering a concatenation filters each
      part, so every digit and dot is kept, in its order. */
  lemma {:induction false} KeepDigitsAndDotsAppend(a: string, b: string)
    ensures KeepDigitsAndDots(a + b) == KeepDigitsAndDots(a) + KeepDigitsAndDots(b)
  {
    if a == [] {
      assert a + b == b;
    } else {
      assert (a + b)[0] == a[0] && (a + b)[1..] == a[1..] + b;
      KeepDigitsAndDotsAppend(a[1..], b);
      if IsDigitOrDot(a[0]) {
        assert [a[0]] + (KeepDigitsAndDots(a[1..]) + KeepDigitsAndDots(b)) ==
          ([a[0]] + KeepDigitsAndDots(a[1..])) + KeepDigitsAndDots(b);
      }
    }
  }

  /** One character is kept exactly when it is a digit or a dot. */
  lemma KeepDigitsAndDotsChar(c: char)
    ensures KeepDigitsAndDots([c]) == if IsDigitOrDot(c) then [c] else []
  {
    assert [c][1..] == [];
  }

  /** `toDouble()` on a digits-and-dots string: `None` is the `NumberFormatException`
      thrown for two or more dots, "" or ".". */
  function ParseDigitsAndDots(s: string): (r: Option<real>)
    requires forall i :: 0 <= i < |s| ==> IsDigitOrDot(s[i])
    ensures r.Some? <==> IsDecimalText(s) && HasDigit(s)
    ensures r.Some? ==> IsDecimalText(s) && r == ParseDecimal(s)
    ensures r.Some? ==> r.value >= 0.0 && (r.value > 0.0 <==> HasNonZeroDigit(s))
  {
    if IsDecimalText(s) then ParseDecimal(s) else None
  }
}
