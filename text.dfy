/**
 * ASCII stand-ins for the Foundation string operations the sources use:
 * character classes, `lowercased()`, `trimmingCharacters(in:)`, `split(separator: " ")`,
 * `replacingOccurrences(of: "[^0-9]", ...)`, `contains(_:)` and decimal interpolation of an `Int`.
 * Swift's classes are Unicode-wide; the model restricts them to ASCII.
 */
module Text {

  predicate IsUpper(c: char) { 'A' <= c <= 'Z' }
  predicate IsLower(c: char) { 'a' <= c <= 'z' }
  predicate IsDigit(c: char) { '0' <= c <= '9' }
  predicate IsLetter(c: char) { IsUpper(c) || IsLower(c) }
  predicate IsAlphanumeric(c: char) { IsLetter(c) || IsDigit(c) }

  /** `CharacterSet.whitespacesAndNewlines`, ASCII part: space and U+0009 to U+000D. */
  predicate IsWhitespaceOrNewline(c: char) {
    c == ' ' || c == '\t' || c == '\n' || c == '\U{0B}' || c == '\U{0C}' || c == '\r'
  }

  /** ICU's `\s`, ASCII part: `[\t\n\f\r ]` (vertical tab is not in it). */
  predicate IsRegexSpace(c: char) {
    c == ' ' || c == '\t' || c == '\n' || c == '\U{0C}' || c == '\r'
  }

  /** The ASCII characters ICU's `.` refuses to match unless DOTALL is set. */
  predicate IsLineTerminator(c: char) {
    c == '\n' || c == '\U{0B}' || c == '\U{0C}' || c == '\r'
  }

  function DigitValue(c: char): (d: nat)
    requires IsDigit(c)
    ensures d <= 9
  {
    c as int - '0' as int
  }

  function DigitChar(d: nat): (c: char)
    requires d <= 9
    ensures IsDigit(c) && DigitValue(c) == d
  {
    ('0' as int + d) as char
  }

  function ToLower(c: char): char {
    if IsUpper(c) then (c as int + 32) as char else c
  }

  /** `lowercased()`, applied character by character. */
  function Lowercased(s: string): string {
    if s == [] then [] else [ToLower(s[0])] + Lowercased(s[1..])
  }

  predicate HasPrefix(s: string, p: string) {
    |p| <= |s| && s[..|p|] == p
  }

  /** `s.contains(t)`: `t` occurs in `s` as a contiguous substring; the empty string occurs everywhere. */
  predicate Contains(s: string, t: string) {
    HasPrefix(s, t) || (s != [] && Contains(s[1..], t))
  }

  predicate AllChars(s: string, p: char -> bool) {
    forall k | 0 <= k < |s| :: p(s[k])
  }

  /** `contains(where:)`. */
  predicate AnyChar(s: string, p: char -> bool) {
    exists k | 0 <= k < |s| :: p(s[k])
  }

  // ---------------------------------------------------------------------------
  // Keeping the decimal digits: `replacingOccurrences(of: "[^0-9]", with: "", options: .regularExpression)`

  function KeepDigits(s: string): (r: string)
    ensures |r| <= |s|
    ensures forall k | 0 <= k < |r| :: IsDigit(r[k])
  {
    if s == [] then []
    else (if IsDigit(s[0]) then [s[0]] else []) + KeepDigits(s[1..])
  }

  lemma {:induction false} KeepDigitsConcat(a: string, b: string)
    ensures KeepDigits(a + b) == KeepDigits(a) + KeepDigits(b)
  {
    if a == [] {
      assert a + b == b;
    } else {
      assert (a + b)[1..] == a[1..] + b;
      KeepDigitsConcat(a[1..], b);
    }
  }

  /** Removing the non-digits leaves a string of digits alone. */
  lemma {:induction false} KeepDigitsOfDigits(s: string)
    requires forall k | 0 <= k < |s| :: IsDigit(s[k])
    ensures KeepDigits(s) == s
  {
    if s != [] {
      KeepDigitsOfDigits(s[1..]);
    }
  }

  /** A string without digits disappears entirely. */
  lemma {:induction false} KeepDigitsOfNonDigits(s: string)
    requires forall k | 0 <= k < |s| :: !IsDigit(s[k])
    ensures KeepDigits(s) == []
  {
    if s != [] {
      KeepDigitsOfNonDigits(s[1..]);
    }
  }

  // ---------------------------------------------------------------------------
  // Trimming: `trimmingCharacters(in:)` removes the longest leading and trailing runs of `strip`.

  function TrimStart(s: string, strip: char -> bool): (i: nat)
    ensures i <= |s|
    ensures forall k | 0 <= k < i :: strip(s[k])
    ensures i < |s| ==> !strip(s[i])
    decreases |s|
  {
    if s == [] || !strip(s[0]) then 0 else 1 + TrimStart(s[1..], strip)
  }

  function TrimEnd(s: string, strip: char -> bool): (j: nat)
    ensures j <= |s|
    ensures forall k | j <= k < |s| :: strip(s[k])
    ensures 0 < j ==> !strip(s[j - 1])
    decreases |s|
  {
    if s == [] || !strip(s[|s| - 1]) then |s| else TrimEnd(s[..|s| - 1], strip)
  }

  function Trim(s: string, strip: char -> bool): (r: string)
    ensures |r| <= |s|
    ensures r == [] <==> forall k | 0 <= k < |s| :: strip(s[k])
    ensures r != [] ==> !strip(r[0]) && !strip(r[|r| - 1])
  {
    var i, j := TrimStart(s, strip), TrimEnd(s, strip);
    if j <= i then [] else s[i..j]
  }

  /** A string whose ends are already clean is its own trim. */
  lemma TrimClean(s: string, strip: char -> bool)
    requires s != [] ==> !strip(s[0]) && !strip(s[|s| - 1])
    ensures Trim(s, strip) == s
  {
    if s != [] {
      assert TrimStart(s, strip) == 0;
      assert TrimEnd(s, strip) == |s|;
    }
  }

  /** Trimming twice trims no more than trimming once. */
  lemma TrimIdempotent(s: string, strip: char -> bool)
    ensures Trim(Trim(s, strip), strip) == Trim(s, strip)
  {
    TrimClean(Trim(s, strip), strip);
  }

  /** Characters that are stripped anyway may be added in front without changing the trim. */
  lemma TrimIgnoresStrippedPrefix(p: string, s: string, strip: char -> bool)
    requires forall k | 0 <= k < |p| :: strip(p[k])
    ensures Trim(p + s, strip) == Trim(s, strip)
  {
    TrimStartPrefix(p, s, strip);
    TrimEndPrefix(p, s, strip);
    var i, j := TrimStart(s, strip), TrimEnd(s, strip);
    var i', j' := TrimStart(p + s, strip), TrimEnd(p + s, strip);
    assert i' == |p| + i;
    if j == 0 {
      assert j' == 0;
      assert Trim(p + s, strip) == [] && Trim(s, strip) == [];
    } else {
      assert j' == |p| + j;
      assert i < j;
      assert (p + s)[i'..j'] == s[i..j];
    }
  }

  lemma {:induction false} TrimStartPrefix(p: string, s: string, strip: char -> bool)
    requires forall k | 0 <= k < |p| :: strip(p[k])
    ensures TrimStart(p + s, strip) == |p| + TrimStart(s, strip)
    decreases |p|
  {
    if p == [] {
      assert p + s == s;
    } else {
      assert (p + s)[1..] == p[1..] + s;
      TrimStartPrefix(p[1..], s, strip);
    }
  }

  lemma {:induction false} TrimEndPrefix(p: string, s: string, strip: char -> bool)
    requires forall k | 0 <= k < |p| :: strip(p[k])
    ensures TrimEnd(s, strip) == 0 ==> TrimEnd(p + s, strip) == 0
    ensures TrimEnd(s, strip) > 0 ==> TrimEnd(p + s, strip) == |p| + TrimEnd(s, strip)
    decreases |s|
  {
    if s == [] {
      assert p + s == p;
      AllStrippedTrimEnd(p, strip);
    } else if !strip(s[|s| - 1]) {
      assert (p + s)[|p + s| - 1] == s[|s| - 1];
    } else {
      assert (p + s)[..|p + s| - 1] == p + s[..|s| - 1];
      TrimEndPrefix(p, s[..|s| - 1], strip);
    }
  }

  lemma {:induction false} AllStrippedTrimEnd(p: string, strip: char -> bool)
    requires forall k | 0 <= k < |p| :: strip(p[k])
    ensures TrimEnd(p, strip) == 0
    decreases |p|
  {
    if p != [] {
      AllStrippedTrimEnd(p[..|p| - 1], strip);
    }
  }

  /** Characters that are stripped anyway may be added behind without changing the trim. */
  lemma TrimIgnoresStrippedSuffix(s: string, q: string, strip: char -> bool)
    requires forall k | 0 <= k < |q| :: strip(q[k])
    ensures Trim(s + q, strip) == Trim(s, strip)
  {
    TrimEndSuffix(s, q, strip);
    TrimStartSuffix(s, q, strip);
    var i, j := TrimStart(s, strip), TrimEnd(s, strip);
    if i < |s| {
      assert i < j;
      assert (s + q)[i..j] == s[i..j];
    } else {
      assert forall k | 0 <= k < |s + q| :: strip((s + q)[k]);
    }
  }

  lemma {:induction false} TrimEndSuffix(s: string, q: string, strip: char -> bool)
    requires forall k | 0 <= k < |q| :: strip(q[k])
    ensures TrimEnd(s + q, strip) == TrimEnd(s, strip)
    decreases |q|
  {
    if q == [] {
      assert s + q == s;
    } else {
      assert (s + q)[..|s + q| - 1] == s + q[..|q| - 1];
      TrimEndSuffix(s, q[..|q| - 1], strip);
    }
  }

  lemma {:induction false} TrimStartSuffix(s: string, q: string, strip: char -> bool)
    ensures TrimStart(s, strip) < |s| ==> TrimStart(s + q, strip) == TrimStart(s, strip)
    decreases |s|
  {
    if s != [] && strip(s[0]) {
      assert (s + q)[1..] == s[1..] + q;
      TrimStartSuffix(s[1..], q, strip);
    }
  }

  // ---------------------------------------------------------------------------
  // Splitting on spaces: `split(separator: " ")`, which omits empty pieces.

  function SplitOnSpaces(s: string): (r: seq<string>)
    ensures forall k | 0 <= k < |r| :: r[k] != [] && ' ' !in r[k]
  {
    SplitFrom(s, [])
  }

  /** Splits `s`, where `word` is the piece collected so far. */
  function SplitFrom(s: string, word: string): (r: seq<string>)
    requires ' ' !in word
    ensures forall k | 0 <= k < |r| :: r[k] != [] && ' ' !in r[k]
    decreases |s|
  {
    if s == [] then
      (if word == [] then [] else [word])
    else if s[0] == ' ' then
      (if word == [] then [] else [word]) + SplitFrom(s[1..], [])
    else
      SplitFrom(s[1..], word + [s[0]])
  }

  /** The distinct words of `s`: `Set(s.split(separator: " "))`. */
  function Words(s: string): set<string> {
    Distinct(SplitOnSpaces(s))
  }

  /** The set of the elements of `ws`. */
  function Distinct(ws: seq<string>): (r: set<string>)
    ensures forall w :: w in r <==> w in ws
  {
    if ws == [] then {} else {ws[0]} + Distinct(ws[1..])
  }

  function Concat(ws: seq<string>): string {
    if ws == [] then [] else ws[0] + Concat(ws[1..])
  }

  function RemoveSpaces(s: string): string {
    if s == [] then [] else (if s[0] == ' ' then [] else [s[0]]) + RemoveSpaces(s[1..])
  }

  /** Splitting loses the spaces and nothing else: the pieces put back together are `s` without its spaces. */
  lemma SplitOnSpacesLosesOnlySpaces(s: string)
    ensures Concat(SplitOnSpaces(s)) == RemoveSpaces(s)
  {
    SplitFromConcat(s, []);
  }

  lemma {:induction false} ConcatAppend(a: seq<string>, b: seq<string>)
    ensures Concat(a + b) == Concat(a) + Concat(b)
  {
    if a == [] {
      assert a + b == b;
    } else {
      assert (a + b)[1..] == a[1..] + b;
      ConcatAppend(a[1..], b);
    }
  }

  lemma {:induction false} SplitFromConcat(s: string, word: string)
    requires ' ' !in word
    ensures Concat(SplitFrom(s, word)) == word + RemoveSpaces(s)
    decreases |s|
  {
    if s == [] {
      assert Concat([word]) == word + Concat([]);
    } else if s[0] == ' ' {
      var head: seq<string> := if word == [] then [] else [word];
      SplitFromConcat(s[1..], []);
      ConcatAppend(head, SplitFrom(s[1..], []));
      assert Concat(head) == word by {
        if word != [] { assert Concat([word]) == word + Concat([]); }
      }
    } else {
      SplitFromConcat(s[1..], word + [s[0]]);
    }
  }

  // ---------------------------------------------------------------------------
  // Decimal rendering, as string interpolation `"\(n)"` prints an `Int`.

  function NatToString(n: nat): (r: string)
    ensures r != []
    ensures forall k | 0 <= k < |r| :: IsDigit(r[k])
    decreases n
  {
    if n < 10 then [DigitChar(n)] else NatToString(n / 10) + [DigitChar(n % 10)]
  }

  function IntToString(i: int): (r: string)
    ensures r != []
  {
    if i < 0 then "-" + NatToString(-i) else NatToString(i)
  }

  /** Reads a string of decimal digits back as a number. */
  function DecimalValue(s: string): nat
    requires forall k | 0 <= k < |s| :: IsDigit(s[k])
  {
    if s == [] then 0 else DecimalValue(s[..|s| - 1]) * 10 + DigitValue(s[|s| - 1])
  }

  /** The rendering is exact: reading it back gives the number again. */
  lemma {:induction false} NatToStringRoundTrip(n: nat)
    ensures DecimalValue(NatToString(n)) == n
    decreases n
  {
    if n >= 10 {
      var s := NatToString(n);
      assert s[..|s| - 1] == NatToString(n / 10);
      NatToStringRoundTrip(n / 10);
    }
  }
}
