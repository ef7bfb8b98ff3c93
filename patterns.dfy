/**
 * Hand-coded ASCII recognisers for the regular expressions the sources evaluate with
 * `NSPredicate(format: "SELF MATCHES %@", ...)`. MATCHES anchors the pattern at both ends of the string.
 * Each recogniser is proved equal to the regex read as "the string splits into pieces that match the parts".
 */
module Patterns {
  import opened Wrappers
  import opened Text

  // ---------------------------------------------------------------------------
  // Email: `[A-Z0-9a-z._%+-]+@[A-Za-z0-9.-]+\.[A-Za-z]{2,}` (Validators) and `...{2,64}` (the view models).

  predicate IsEmailLocalChar(c: char) {
    IsAlphanumeric(c) || c == '.' || c == '_' || c == '%' || c == '+' || c == '-'
  }

  predicate IsEmailDomainChar(c: char) {
    IsAlphanumeric(c) || c == '.' || c == '-'
  }

  /** The repetition bound on the final letters: `{2,}` or `{2,64}`. */
  datatype TldLimit = Unbounded | AtMost(max: nat)

  predicate TldLengthOk(n: nat, limit: TldLimit) {
    2 <= n && (limit.AtMost? ==> n <= limit.max)
  }

  /** The regex matches with its `@` at index `at` and its `\.` at index `dot`. */
  predicate EmailPartsAt(s: string, at: nat, dot: nat, limit: TldLimit)
    requires at < dot < |s|
  {
    && 0 < at && at + 1 < dot
    && s[at] == '@' && s[dot] == '.'
    && AllChars(s[..at], IsEmailLocalChar)
    && AllChars(s[at + 1..dot], IsEmailDomainChar)
    && AllChars(s[dot + 1..], IsLetter)
    && TldLengthOk(|s| - dot - 1, limit)
  }

  /** The regex, read as "some choice of the `@` and the `\.` splits the string into matching parts". */
  ghost predicate EmailRegex(s: string, limit: TldLimit) {
    exists at: nat, dot: nat | at < dot < |s| :: EmailPartsAt(s, at, dot, limit)
  }

  function FirstIndexOf(s: string, c: char): (r: Option<nat>)
    ensures r.None? <==> c !in s
    ensures r.Some? ==> r.value < |s| && s[r.value] == c && c !in s[..r.value]
  {
    if s == [] then None
    else if s[0] == c then Some(0)
    else match FirstIndexOf(s[1..], c)
      case None => None
      case Some(i) => assert s[..i + 1] == [s[0]] + s[1..][..i]; Some(i + 1)
  }

  function LastIndexOf(s: string, c: char): (r: Option<nat>)
    ensures r.None? <==> c !in s
    ensures r.Some? ==> r.value < |s| && s[r.value] == c && c !in s[r.value + 1..]
  {
    if s == [] then None
    else if s[|s| - 1] == c then Some(|s| - 1)
    else
      var r := LastIndexOf(s[..|s| - 1], c);
      if r.Some? then assert s[r.value + 1..] == s[..|s| - 1][r.value + 1..] + [s[|s| - 1]]; r
      else assert s == s[..|s| - 1] + [s[|s| - 1]]; None
  }

  /** The recogniser: the `@` can only be the first `@` and the `\.` only the last `.`. */
  predicate MatchesEmail(s: string, limit: TldLimit) {
    var at, dot := FirstIndexOf(s, '@'), LastIndexOf(s, '.');
    at.Some? && dot.Some? && at.value < dot.value && EmailPartsAt(s, at.value, dot.value, limit)
  }

  /** The recogniser accepts exactly the strings the regex matches. */
  lemma MatchesEmailIsRegex(s: string, limit: TldLimit)
    ensures MatchesEmail(s, limit) <==> EmailRegex(s, limit)
  {
    if EmailRegex(s, limit) {
      var at: nat, dot: nat :| at < dot < |s| && EmailPartsAt(s, at, dot, limit);
      NoAtInLocalPart(s[..at]);
      FirstIndexIs(s, '@', at);
      NoDotInLetters(s[dot + 1..]);
      LastIndexIs(s, '.', dot);
    }
  }

  lemma FirstIndexIs(s: string, c: char, i: nat)
    requires i < |s| && s[i] == c && c !in s[..i]
    ensures FirstIndexOf(s, c) == Some(i)
  {
  }

  lemma LastIndexIs(s: string, c: char, i: nat)
    requires i < |s| && s[i] == c && c !in s[i + 1..]
    ensures LastIndexOf(s, c) == Some(i)
  {
  }

  lemma NoAtInLocalPart(t: string)
    requires AllChars(t, IsEmailLocalChar)
    ensures '@' !in t
  {
  }

  lemma NoAtInDomainPart(t: string)
    requires AllChars(t, IsEmailDomainChar)
    ensures '@' !in t
  {
  }

  lemma NoDotInLetters(t: string)
    requires AllChars(t, IsLetter)
    ensures '.' !in t && '@' !in t
  {
  }

  /**
   * What an accepted address looks like: exactly one `@`, something before it,
   * and a last `.` followed by at least two letters and nothing else.
   */
  lemma AcceptedEmailShape(s: string, limit: TldLimit)
    requires MatchesEmail(s, limit)
    ensures multiset(s)['@'] == 1
    ensures s[0] != '@'
    ensures LastIndexOf(s, '.').Some?
    ensures |s| - LastIndexOf(s, '.').value - 1 >= 2
    ensures AllChars(s[LastIndexOf(s, '.').value + 1..], IsLetter)
  {
    AcceptedEmailHasOneAt(s, limit);
  }

  lemma AcceptedEmailHasOneAt(s: string, limit: TldLimit)
    requires MatchesEmail(s, limit)
    ensures multiset(s)['@'] == 1 && s[0] != '@'
  {
    var at, dot := FirstIndexOf(s, '@').value, LastIndexOf(s, '.').value;
    var local, domain, tld := s[..at], s[at + 1..dot], s[dot + 1..];
    NoAtInLocalPart(local);
    NoAtInDomainPart(domain);
    NoDotInLetters(tld);
    var rest := s[at + 1..];
    assert rest == domain + ([s[dot]] + tld) by {
      assert rest == rest[..dot - at - 1] + rest[dot - at - 1..];
      assert rest[..dot - at - 1] == domain;
      assert rest[dot - at - 1..] == [s[dot]] + tld;
    }
    assert '@' !in rest;
    assert s == local + ([s[at]] + rest);
    MultisetCountSplit(local, '@', rest);
    assert IsEmailLocalChar(local[0]);
  }

  lemma MultisetCountSplit(a: string, c: char, b: string)
    requires c !in a && c !in b
    ensures multiset(a + ([c] + b))[c] == 1
  {
    assert multiset(a + ([c] + b)) == multiset(a) + multiset{c} + multiset(b);
  }

  // ---------------------------------------------------------------------------
  // Character classes of the other patterns.

  /** `[a-zA-Z\s'-]` of `Validators.isValidName`. */
  predicate IsNameChar(c: char) {
    IsLetter(c) || IsRegexSpace(c) || c == '\'' || c == '-'
  }

  /** `[a-zA-Z ]` of `SignUpViewModel.validateFullName`. */
  predicate IsFullNameChar(c: char) {
    IsLetter(c) || c == ' '
  }

  /** `[!@#$%^&*(),.?":{}|<>]` of `Validators.validatePassword`. */
  predicate IsValidatorsSpecial(c: char) {
    c in {'!', '@', '#', '$', '%', '^', '&', '*', '(', ')', ',', '.', '?', '"', ':', '{', '}', '|', '<', '>'}
  }

  /** `[!@#$%^&*()_+\-=\[\]{};':"\\|,.<>\/?]` of `SignUpViewModel.validatePassword`. */
  predicate IsSignUpSpecial(c: char) {
    c in {'!', '@', '#', '$', '%', '^', '&', '*', '(', ')', '_', '+', '-', '=', '[', ']', '{', '}',
          ';', '\'', ':', '"', '\\', '|', ',', '.', '<', '>', '/', '?'}
  }

  predicate NotLineTerminator(c: char) { !IsLineTerminator(c) }

  // ---------------------------------------------------------------------------
  // `.*[P].*` and `.*[P]+.*`: `.` does not match a line terminator, so the whole string must be free of them.

  /** The regex `.*[P].*`, read as a split of the string around one character of the class. */
  ghost predicate SomewhereRegex(s: string, p: char -> bool) {
    exists i | 0 <= i < |s| ::
      AllChars(s[..i], NotLineTerminator) && p(s[i]) && AllChars(s[i + 1..], NotLineTerminator)
  }

  /** The recogniser: one character of the class and no line terminator anywhere. */
  predicate MatchesSomewhere(s: string, p: char -> bool) {
    (exists i | 0 <= i < |s| :: p(s[i])) && AllChars(s, NotLineTerminator)
  }

  lemma MatchesSomewhereIsRegex(s: string, p: char -> bool)
    requires forall c :: p(c) ==> NotLineTerminator(c)
    ensures MatchesSomewhere(s, p) <==> SomewhereRegex(s, p)
  {
    if SomewhereRegex(s, p) {
      var i :| 0 <= i < |s| && AllChars(s[..i], NotLineTerminator) && p(s[i]) && AllChars(s[i + 1..], NotLineTerminator);
      forall k | 0 <= k < |s| ensures NotLineTerminator(s[k]) {
        if k < i { assert s[..i][k] == s[k]; }
        else if k > i { assert s[i + 1..][k - i - 1] == s[k]; }
      }
    }
    if MatchesSomewhere(s, p) {
      var i :| 0 <= i < |s| && p(s[i]);
      assert AllChars(s[..i], NotLineTerminator);
      assert AllChars(s[i + 1..], NotLineTerminator);
    }
  }

  /** A `+` on the class (`.*[P]+.*`) matches the same strings as the class alone. */
  ghost predicate SomewhereRunRegex(s: string, p: char -> bool) {
    exists i, j | 0 <= i < j <= |s| ::
      AllChars(s[..i], NotLineTerminator) && AllChars(s[i..j], p) && AllChars(s[j..], NotLineTerminator)
  }

  /** The recogniser accepts exactly the strings `.*[P]+.*` matches. */
  lemma MatchesSomewhereIsRunRegex(s: string, p: char -> bool)
    requires forall c :: p(c) ==> NotLineTerminator(c)
    ensures MatchesSomewhere(s, p) <==> SomewhereRunRegex(s, p)
  {
    MatchesSomewhereIsRegex(s, p);
    SomewhereRunIsSomewhere(s, p);
  }

  lemma SomewhereRunIsSomewhere(s: string, p: char -> bool)
    requires forall c :: p(c) ==> NotLineTerminator(c)
    ensures SomewhereRunRegex(s, p) <==> SomewhereRegex(s, p)
  {
    if SomewhereRegex(s, p) {
      var i :| 0 <= i < |s| && AllChars(s[..i], NotLineTerminator) && p(s[i]) && AllChars(s[i + 1..], NotLineTerminator);
      assert AllChars(s[i..i + 1], p);
    }
    if SomewhereRunRegex(s, p) {
      var i, j :| 0 <= i < j <= |s| && AllChars(s[..i], NotLineTerminator) && AllChars(s[i..j], p) && AllChars(s[j..], NotLineTerminator);
      assert p(s[i..j][0]);
      forall k | i + 1 <= k < |s| ensures NotLineTerminator(s[k]) {
        if k < j { assert p(s[i..j][k - i]); }
        else { assert s[j..][k - j] == s[k]; }
      }
      assert AllChars(s[i + 1..], NotLineTerminator);
    }
  }
}
