/** The two fixed regular expressions of the application, as explicit character-level
    predicates:
      email    `^[A-Za-z0-9+_.-]+@[A-Za-z0-9.-]+\.[A-Za-z]{2,}$`
      password `^(?=.*[A-Z])(?=.*\d).{8,}$`
    Both are matched with `String.matches`, i.e. against the whole string. */
module Validation {
  import opened Text
  import opened Seqs

  predicate IsLocalChar(c: char) {
    IsAsciiLetter(c) || IsAsciiDigit(c) || c == '+' || c == '_' || c == '.' || c == '-'
  }

  predicate IsDomainChar(c: char) {
    IsAsciiLetter(c) || IsAsciiDigit(c) || c == '.' || c == '-'
  }

  predicate AllLocal(s: string) { forall i :: 0 <= i < |s| ==> IsLocalChar(s[i]) }
  predicate AllDomain(s: string) { forall i :: 0 <= i < |s| ==> IsDomainChar(s[i]) }
  predicate AllLetters(s: string) { forall i :: 0 <= i < |s| ==> IsAsciiLetter(s[i]) }

  /** The email expression read off its structure: `s == L + "@" + D + "." + T` with
      `L` a non-empty run of local characters, `D` a non-empty run of domain characters
      and `T` two or more ASCII letters. `at` and `dot` are the positions of the '@'
      and of the '.' before `T`. */
  ghost predicate EmailShape(s: string) {
    exists at: nat, dot: nat {:trigger s[at], s[dot]} ::
      0 < at && at + 1 < dot && dot + 2 < |s| &&
      s[at] == '@' && s[dot] == '.' &&
      AllLocal(s[..at]) && AllDomain(s[at + 1..dot]) && AllLetters(s[dot + 1..])
  }

  /** `isValidEmail`: the '@' is the first one (no local character is an '@'), everything
      after it is a domain character, and the top-level label after the last '.'
      is at least two letters with a non-empty domain before it. */
  predicate IsValidEmail(s: string) {
    '@' in s &&
    var at := FirstIndex(s, '@');
    var rest := s[at + 1..];
    at > 0 && AllLocal(s[..at]) && AllDomain(rest) && '.' in rest &&
    var d := LastIndex(rest, '.');
    d >= 1 && d + 2 < |rest| && AllLetters(rest[d + 1..])
  }

  /** The scanning predicate accepts exactly the strings the expression describes. */
  lemma EmailScanMatchesShape(s: string)
    ensures IsValidEmail(s) <==> EmailShape(s)
  {
    if IsValidEmail(s) { EmailScanIsShaped(s); }
    if EmailShape(s) {
      var at: nat, dot: nat :| 0 < at && at + 1 < dot && dot + 2 < |s| &&
        s[at] == '@' && s[dot] == '.' &&
        AllLocal(s[..at]) && AllDomain(s[at + 1..dot]) && AllLetters(s[dot + 1..]);
      ShapedEmailScans(s, at, dot);
    }
  }

  lemma {:induction false} EmailScanIsShaped(s: string)
    requires IsValidEmail(s)
    ensures EmailShape(s)
  {
    var at := FirstIndex(s, '@');
    var rest := s[at + 1..];
    assert at > 0 && AllLocal(s[..at]) && AllDomain(rest) && '.' in rest;
    var d := LastIndex(rest, '.');
    assert d >= 1 && d + 2 < |rest| && AllLetters(rest[d + 1..]);
    var dot := at + 1 + d;
    assert s[at + 1..dot] == rest[..d];
    assert s[dot + 1..] == rest[d + 1..];
    DomainPrefix(rest, d);
    assert s[at] == '@' && s[dot] == rest[d] == '.';
  }

  lemma DomainPrefix(s: string, n: nat)
    requires AllDomain(s) && n <= |s|
    ensures AllDomain(s[..n])
  {
    assert forall i :: 0 <= i < n ==> s[..n][i] == s[i];
  }

  /** A run of local characters holds no '@', so the '@' of a shaped email is the first. */
  lemma ShapedEmailAt(s: string, at: nat)
    requires at < |s| && s[at] == '@' && AllLocal(s[..at])
    ensures '@' in s && FirstIndex(s, '@') == at
  {
    assert '@' !in s[..at] by {
      forall i | 0 <= i < at ensures s[..at][i] != '@' { assert IsLocalChar(s[..at][i]); }
    }
    var a := FirstIndex(s, '@');
  }

  /** Letters hold no '.', so the '.' before the top-level label is the last one. */
  lemma ShapedEmailDot(rest: string, d: nat)
    requires d < |rest| && rest[d] == '.' && AllLetters(rest[d + 1..])
    ensures '.' in rest && LastIndex(rest, '.') == d
  {
    var tail := rest[d + 1..];
    assert '.' !in tail by {
      forall i | 0 <= i < |tail| ensures tail[i] != '.' { assert IsAsciiLetter(tail[i]); }
    }
    var e := LastIndex(rest, '.');
  }

  lemma ShapedEmailScans(s: string, at: nat, dot: nat)
    requires 0 < at && at + 1 < dot && dot + 2 < |s|
    requires s[at] == '@' && s[dot] == '.'
    requires AllLocal(s[..at]) && AllDomain(s[at + 1..dot]) && AllLetters(s[dot + 1..])
    ensures IsValidEmail(s)
  {
    ShapedEmailAt(s, at);
    var rest := s[at + 1..];
    var d := dot - at - 1;
    assert rest[d + 1..] == s[dot + 1..];
    forall i | 0 <= i < |rest| ensures IsDomainChar(rest[i]) {
      if i < d { assert rest[i] == s[at + 1..dot][i]; }
      else if i > d { assert rest[i] == s[dot + 1..][i - d - 1]; }
    }
    ShapedEmailDot(rest, d);
  }

  /** The characters `.` does not match without DOTALL: Java's line terminators. */
  predicate IsLineTerminator(c: char) {
    c == '\n' || c == '\r' || c == '\U{85}' || c == '\U{2028}' || c == '\U{2029}'
  }

  /** `validatePassword`: at least eight characters, none a line terminator, at least one
      of them 'A'..'Z' and at least one '0'..'9'. Length is in Unicode characters, as
      the expression's `.` consumes a whole code point. */
  predicate IsValidPassword(p: string) {
    |p| >= 8 &&
    (forall i :: 0 <= i < |p| ==> !IsLineTerminator(p[i])) &&
    (exists i :: 0 <= i < |p| && IsAsciiUpper(p[i])) &&
    (exists i :: 0 <= i < |p| && IsAsciiDigit(p[i]))
  }
  /** A password is refused exactly when one of the rule's parts fails: it is shorter
      than eight characters, it holds a line terminator, it has no 'A'..'Z', or it has
      no '0'..'9'. */
  lemma PasswordRejections(p: string)
    ensures !IsValidPassword(p) <==>
      |p| < 8 ||
      (exists i :: 0 <= i < |p| && IsLineTerminator(p[i])) ||
      (forall i :: 0 <= i < |p| ==> !IsAsciiUpper(p[i])) ||
      (forall i :: 0 <= i < |p| ==> !IsAsciiDigit(p[i]))
  {
  }

  /** The rule only asks for things to be present, so appending characters other than
      line terminators to an accepted password keeps it accepted. */
  lemma {:induction false} ValidPasswordExtends(p: string, q: string)
    requires IsValidPassword(p)
    requires forall i :: 0 <= i < |q| ==> !IsLineTerminator(q[i])
    ensures IsValidPassword(p + q)
  {
    var u :| 0 <= u < |p| && IsAsciiUpper(p[u]);
    var d :| 0 <= d < |p| && IsAsciiDigit(p[d]);
    assert (p + q)[u] == p[u] && (p + q)[d] == p[d];
    forall i | 0 <= i < |p + q| ensures !IsLineTerminator((p + q)[i]) {
      if i < |p| { assert (p + q)[i] == p[i]; } else { assert (p + q)[i] == q[i - |p|]; }
    }
  }

  /** An accepted address holds exactly one '@': the local part and the domain are
      made of characters other than '@'. */
  lemma ValidEmailHasOneAt(s: string, i: nat)
    requires IsValidEmail(s)
    requires i < |s| && s[i] == '@'
    ensures i == FirstIndex(s, '@')
  {
  }

  /** The rule's three failure modes, one example each, beside a password it accepts. */
  lemma PasswordExamples()
    ensures IsValidPassword("Secret123")
    ensures !IsValidPassword("Secret1")
    ensures !IsValidPassword("secret123")
    ensures !IsValidPassword("SecretWord")
  {
    assert IsAsciiUpper("Secret123"[0]) && IsAsciiDigit("Secret123"[6]);
  }

  /** An address the expression accepts. */
  lemma EmailAccepted()
    ensures IsValidEmail("ann@bank.com")
  {
    ShapedEmailScans("ann@bank.com", 3, 8);
  }

  /** A one-letter top-level label is refused. */
  lemma ShortTopLabelRejected()
    ensures !IsValidEmail("ann@bank.c")
  {
    var s := "ann@bank.c";
    var at := FirstIndex(s, '@');
    assert at == 3;
    var rest := s[at + 1..];
    assert rest == "bank.c";
    var d := LastIndex(rest, '.');
    assert d == 4;
  }
}
