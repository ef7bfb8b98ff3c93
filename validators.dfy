/**
 * The static checks of `Validators`: email, password rules, phone digit counts,
 * names and the Luhn card check (ISO/IEC 7812-1, Annex B).
 */
module Validators {
  import opened Text
  import opened Patterns

  // ---------------------------------------------------------------------------
  // Email

  /** `isValidEmail`: the pattern `^[A-Z0-9a-z._%+-]+@[A-Za-z0-9.-]+\.[A-Za-z]{2,}$`. */
  function IsValidEmail(email: string): (r: bool)
    ensures r <==> EmailRegex(email, Unbounded)
  {
    MatchesEmailIsRegex(email, Unbounded);
    MatchesEmail(email, Unbounded)
  }

  /** An accepted address has one `@`, a non-empty local part, and ends in a `.` and two or more letters. */
  lemma ValidEmailShape(email: string)
    requires IsValidEmail(email)
    ensures multiset(email)['@'] == 1
    ensures email[0] != '@'
    ensures LastIndexOf(email, '.').Some?
    ensures |email| - LastIndexOf(email, '.').value - 1 >= 2
    ensures AllChars(email[LastIndexOf(email, '.').value + 1..], IsLetter)
  {
    AcceptedEmailShape(email, Unbounded);
  }

  // ---------------------------------------------------------------------------
  // Password rules

  datatype PasswordPolicy = PasswordPolicy(
    minLength: int,
    requireUppercase: bool,
    requireLowercase: bool,
    requireNumber: bool,
    requireSpecialCharacter: bool)

  /** The default arguments of `validatePassword`. */
  const DefaultPolicy := PasswordPolicy(8, true, true, true, true)

  datatype PasswordValidation = PasswordValidation(isValid: bool, errors: seq<string>)

  /** The five checks, in the order `validatePassword` runs them. */
  datatype PasswordRule = Length | Uppercase | Lowercase | Number | Special

  const RuleOrder: seq<PasswordRule> := [Length, Uppercase, Lowercase, Number, Special]

  /** The length check has no switch; the other four each have a `require*` flag. */
  predicate RuleEnabled(rule: PasswordRule, policy: PasswordPolicy) {
    match rule
    case Length => true
    case Uppercase => policy.requireUppercase
    case Lowercase => policy.requireLowercase
    case Number => policy.requireNumber
    case Special => policy.requireSpecialCharacter
  }

  /** The special-character rule is the pattern `.*[!@#$%^&*(),.?":{}|<>].*`. */
  predicate RuleFails(rule: PasswordRule, password: string, policy: PasswordPolicy) {
    match rule
    case Length => |password| < policy.minLength
    case Uppercase => !AnyChar(password, IsUpper)
    case Lowercase => !AnyChar(password, IsLower)
    case Number => !AnyChar(password, IsDigit)
    case Special => !MatchesSomewhere(password, IsValidatorsSpecial)
  }

  const MustContain := "Password must contain at least one "

  function RuleMessage(rule: PasswordRule, policy: PasswordPolicy): string {
    match rule
    case Length => "Password must be at least " + IntToString(policy.minLength) + " characters long"
    case Uppercase => MustContain + "uppercase letter"
    case Lowercase => MustContain + "lowercase letter"
    case Number => MustContain + "number"
    case Special => MustContain + "special character"
  }

  /** The message list of one rule on its own: its message if it is enabled and fails, else nothing. */
  function RuleReport(rule: PasswordRule, password: string, policy: PasswordPolicy): seq<string> {
    if RuleEnabled(rule, policy) && RuleFails(rule, password, policy) then [RuleMessage(rule, policy)] else []
  }

  /** The messages of the first `n` rules of `RuleOrder` that are enabled and fail, in that order. */
  function FailedUpTo(n: nat, password: string, policy: PasswordPolicy): (r: seq<string>)
    requires n <= |RuleOrder|
    ensures |r| <= n
  {
    if n == 0 then [] else FailedUpTo(n - 1, password, policy) + RuleReport(RuleOrder[n - 1], password, policy)
  }

  function PasswordErrors(password: string, policy: PasswordPolicy): seq<string> {
    FailedUpTo(|RuleOrder|, password, policy)
  }

  /** `validatePassword`: runs every enabled check and collects the messages of those that fail. */
  method ValidatePassword(password: string, policy: PasswordPolicy) returns (v: PasswordValidation)
    ensures v.errors == PasswordErrors(password, policy)
    ensures v.isValid <==> v.errors == []
  {
    var errors: seq<string> := [];
    if |password| < policy.minLength {
      errors := errors + [RuleMessage(Length, policy)];
    }
    assert errors == FailedUpTo(1, password, policy);
    if policy.requireUppercase && !AnyChar(password, IsUpper) {
      errors := errors + [RuleMessage(Uppercase, policy)];
    }
    assert errors == FailedUpTo(2, password, policy);
    if policy.requireLowercase && !AnyChar(password, IsLower) {
      errors := errors + [RuleMessage(Lowercase, policy)];
    }
    assert errors == FailedUpTo(3, password, policy);
    if policy.requireNumber && !AnyChar(password, IsDigit) {
      errors := errors + [RuleMessage(Number, policy)];
    }
    assert errors == FailedUpTo(4, password, policy);
    if policy.requireSpecialCharacter {
      if !MatchesSomewhere(password, IsValidatorsSpecial) {
        errors := errors + [RuleMessage(Special, policy)];
      }
    }
    assert errors == FailedUpTo(5, password, policy);
    v := PasswordValidation(errors == [], errors);
  }

  /** The position of each rule's message in the fixed order. */
  function RuleRank(rule: PasswordRule): (k: nat)
    ensures k < |RuleOrder| && RuleOrder[k] == rule
  {
    match rule
    case Length => 0
    case Uppercase => 1
    case Lowercase => 2
    case Number => 3
    case Special => 4
  }

  lemma RuleOrderRanks()
    ensures forall i | 0 <= i < |RuleOrder| :: RuleRank(RuleOrder[i]) == i
  {
  }

  /** No two rules share a message, so a message names its rule. */
  lemma {:induction false} RuleMessagesDistinct(a: PasswordRule, b: PasswordRule, policy: PasswordPolicy)
    requires RuleMessage(a, policy) == RuleMessage(b, policy)
    ensures a == b
  {
    var ma, mb := RuleMessage(a, policy), RuleMessage(b, policy);
    assert ma[14] == mb[14];
    if a != Length && b != Length {
      assert ma[35] == mb[35];
    }
  }

  /** A message is in the list exactly when one of the first `n` rules reports it. */
  lemma {:induction false} FailedUpToMembers(n: nat, password: string, policy: PasswordPolicy, m: string)
    requires n <= |RuleOrder|
    ensures m in FailedUpTo(n, password, policy) <==>
      exists i | 0 <= i < n :: RuleReport(RuleOrder[i], password, policy) == [m]
  {
    if n > 0 {
      FailedUpToMembers(n - 1, password, policy, m);
    }
  }

  /** Each rule's message is reported exactly when the rule is enabled and fails; at most five are reported. */
  lemma PasswordErrorsExact(password: string, policy: PasswordPolicy, rule: PasswordRule)
    ensures |PasswordErrors(password, policy)| <= 5
    ensures RuleMessage(rule, policy) in PasswordErrors(password, policy) <==>
      RuleEnabled(rule, policy) && RuleFails(rule, password, policy)
  {
    var m := RuleMessage(rule, policy);
    FailedUpToMembers(|RuleOrder|, password, policy, m);
    if m in PasswordErrors(password, policy) {
      var i :| 0 <= i < |RuleOrder| && RuleReport(RuleOrder[i], password, policy) == [m];
      RuleMessagesDistinct(RuleOrder[i], rule, policy);
    }
    if RuleEnabled(rule, policy) && RuleFails(rule, password, policy) {
      assert RuleReport(RuleOrder[RuleRank(rule)], password, policy) == [m];
    }
  }

  lemma {:induction false} FailedUpToEmpty(n: nat, password: string, policy: PasswordPolicy)
    requires n <= |RuleOrder|
    ensures FailedUpTo(n, password, policy) == [] <==>
      forall i | 0 <= i < n :: !(RuleEnabled(RuleOrder[i], policy) && RuleFails(RuleOrder[i], password, policy))
  {
    if n > 0 {
      FailedUpToEmpty(n - 1, password, policy);
    }
  }

  /** The password is valid exactly when every enabled rule passes. */
  lemma PasswordValidIff(password: string, policy: PasswordPolicy)
    ensures PasswordErrors(password, policy) == [] <==>
      forall rule: PasswordRule :: RuleEnabled(rule, policy) ==> !RuleFails(rule, password, policy)
  {
    FailedUpToEmpty(|RuleOrder|, password, policy);
    if PasswordErrors(password, policy) == [] {
      forall rule: PasswordRule | RuleEnabled(rule, policy) ensures !RuleFails(rule, password, policy) {
        assert RuleOrder[RuleRank(rule)] == rule;
      }
    }
  }

  /** A rule whose flag is off never reports, whatever the password. */
  lemma DisabledRuleSilent(password: string, policy: PasswordPolicy, rule: PasswordRule)
    requires !RuleEnabled(rule, policy)
    ensures RuleMessage(rule, policy) !in PasswordErrors(password, policy)
  {
    PasswordErrorsExact(password, policy, rule);
  }

  /** Of two messages in the list, the earlier one belongs to the rule that comes first in `RuleOrder`. */
  lemma {:induction false} FailedUpToOrdered(n: nat, password: string, policy: PasswordPolicy,
                                             i: nat, j: nat, first: PasswordRule, second: PasswordRule)
    requires n <= |RuleOrder|
    requires i < j < |FailedUpTo(n, password, policy)|
    requires FailedUpTo(n, password, policy)[i] == RuleMessage(first, policy)
    requires FailedUpTo(n, password, policy)[j] == RuleMessage(second, policy)
    ensures RuleRank(first) < RuleRank(second) < n
  {
    var before := FailedUpTo(n - 1, password, policy);
    if j < |before| {
      FailedUpToOrdered(n - 1, password, policy, i, j, first, second);
    } else {
      LastRuleReported(n, password, policy, j, second);
      assert before[i] == RuleMessage(first, policy);
      ReportedRuleRank(n - 1, password, policy, i, first);
    }
  }

  /** A message past the first `n - 1` rules' messages is the `n`-th rule's. */
  lemma LastRuleReported(n: nat, password: string, policy: PasswordPolicy, j: nat, rule: PasswordRule)
    requires 0 < n <= |RuleOrder|
    requires |FailedUpTo(n - 1, password, policy)| <= j < |FailedUpTo(n, password, policy)|
    requires FailedUpTo(n, password, policy)[j] == RuleMessage(rule, policy)
    ensures RuleRank(rule) == n - 1
  {
    RuleMessagesDistinct(RuleOrder[n - 1], rule, policy);
    RuleOrderRanks();
  }

  /** A message among the first `n` rules' messages belongs to one of those rules. */
  lemma ReportedRuleRank(n: nat, password: string, policy: PasswordPolicy, i: nat, rule: PasswordRule)
    requires n <= |RuleOrder|
    requires i < |FailedUpTo(n, password, policy)|
    requires FailedUpTo(n, password, policy)[i] == RuleMessage(rule, policy)
    ensures RuleRank(rule) < n
  {
    var m := RuleMessage(rule, policy);
    FailedUpToMembers(n, password, policy, m);
    var k :| 0 <= k < n && RuleReport(RuleOrder[k], password, policy) == [m];
    RuleMessagesDistinct(RuleOrder[k], rule, policy);
    RuleOrderRanks();
  }

  /** The messages appear in the fixed order length, uppercase, lowercase, number, special. */
  lemma PasswordErrorsOrdered(password: string, policy: PasswordPolicy, i: nat, j: nat, first: PasswordRule, second: PasswordRule)
    requires i < j < |PasswordErrors(password, policy)|
    requires PasswordErrors(password, policy)[i] == RuleMessage(first, policy)
    requires PasswordErrors(password, policy)[j] == RuleMessage(second, policy)
    ensures RuleRank(first) < RuleRank(second)
  {
    FailedUpToOrdered(|RuleOrder|, password, policy, i, j, first, second);
  }

  // ---------------------------------------------------------------------------
  // Phone numbers

  /** `isValidPhoneNumber`: only the decimal digits count. */
  predicate IsValidPhoneNumber(phoneNumber: string, countryCode: string := "US"): (r: bool)
    ensures r ==> 7 <= |KeepDigits(phoneNumber)| <= 15
    ensures r && countryCode == "US" ==> 10 <= |KeepDigits(phoneNumber)| <= 11
  {
    var digits := KeepDigits(phoneNumber);
    if countryCode == "US" then |digits| == 10 || (|digits| == 11 && HasPrefix(digits, "1"))
    else 7 <= |digits| <= 15
  }

  /** Separators without digits (spaces, dashes, brackets) may be inserted anywhere. */
  lemma PhoneSeparatorsIgnored(a: string, separator: string, b: string, countryCode: string)
    requires forall k | 0 <= k < |separator| :: !IsDigit(separator[k])
    ensures IsValidPhoneNumber(a + separator + b, countryCode) == IsValidPhoneNumber(a + b, countryCode)
  {
    KeepDigitsConcat(a + separator, b);
    KeepDigitsConcat(a, separator);
    KeepDigitsConcat(a, b);
    KeepDigitsOfNonDigits(separator);
  }

  /** A digit string is a US number iff it has ten digits, or eleven starting with the country code 1. */
  lemma UsPhoneDigits(digits: string)
    requires forall k | 0 <= k < |digits| :: IsDigit(digits[k])
    ensures IsValidPhoneNumber(digits, "US") <==> |digits| == 10 || (|digits| == 11 && digits[0] == '1')
  {
    KeepDigitsOfDigits(digits);
  }

  /** Every valid US number also passes the 7 to 15 digit rule of the other countries. */
  lemma UsPhoneValidElsewhere(phoneNumber: string, countryCode: string)
    requires IsValidPhoneNumber(phoneNumber, "US")
    ensures IsValidPhoneNumber(phoneNumber, countryCode)
  {
  }

  // ---------------------------------------------------------------------------
  // Names

  /** `isValidName`: bounds on the trimmed length, then `^[a-zA-Z\s'-]+$` on the trimmed name. */
  predicate IsValidName(name: string, minLength: int := 2, maxLength: int := 50) {
    var trimmed := Trim(name, IsWhitespaceOrNewline);
    !(|trimmed| < minLength || |trimmed| > maxLength) && trimmed != [] && AllChars(trimmed, IsNameChar)
  }

  /** Leading and trailing whitespace and newlines never change the verdict. */
  lemma NamePaddingIgnored(before: string, name: string, after: string, minLength: int, maxLength: int)
    requires AllChars(before, IsWhitespaceOrNewline) && AllChars(after, IsWhitespaceOrNewline)
    ensures IsValidName(before + name + after, minLength, maxLength) == IsValidName(name, minLength, maxLength)
  {
    TrimIgnoresStrippedPrefix(before, name + after, IsWhitespaceOrNewline);
    assert before + name + after == before + (name + after);
    TrimIgnoresStrippedSuffix(name, after, IsWhitespaceOrNewline);
  }

  /**
   * An accepted name, once trimmed, is within the bounds, consists only of letters, whitespace, `'` and `-`,
   * and begins and ends with a letter, `'` or `-`.
   */
  lemma ValidNameShape(name: string, minLength: int, maxLength: int)
    requires IsValidName(name, minLength, maxLength)
    ensures var t := Trim(name, IsWhitespaceOrNewline);
      minLength <= |t| <= maxLength && t != [] &&
      (forall k | 0 <= k < |t| :: IsLetter(t[k]) || IsRegexSpace(t[k]) || t[k] == '\'' || t[k] == '-') &&
      (IsLetter(t[0]) || t[0] in "'-") && (IsLetter(t[|t| - 1]) || t[|t| - 1] in "'-")
  {
  }

  // ---------------------------------------------------------------------------
  // Luhn check

  /** What one digit adds to the sum: digits at odd positions from the right are doubled, less 9 above 9. */
  function LuhnContribution(digit: nat, indexFromRight: nat): (c: nat)
    requires digit <= 9
    ensures c <= 9
  {
    if indexFromRight % 2 == 1 then
      var doubled := digit * 2;
      if doubled > 9 then doubled - 9 else doubled
    else digit
  }

  /** The Luhn sum of a digit string, walking from its last digit leftwards. */
  function LuhnSum(digits: string): nat
    requires AllChars(digits, IsDigit)
  {
    if digits == [] then 0
    else LuhnContribution(DigitValue(digits[|digits| - 1]), 0) + LuhnSumOdd(digits[..|digits| - 1])
  }

  /** The Luhn sum of a digit string whose last digit sits at an odd position from the right. */
  function LuhnSumOdd(digits: string): nat
    requires AllChars(digits, IsDigit)
  {
    if digits == [] then 0
    else LuhnContribution(DigitValue(digits[|digits| - 1]), 1) + LuhnSum(digits[..|digits| - 1])
  }

  /** The Luhn sum starting at parity `p` (0 for the check digit's position). */
  function LuhnSumAt(digits: string, p: nat): nat
    requires AllChars(digits, IsDigit)
  {
    if p % 2 == 0 then LuhnSum(digits) else LuhnSumOdd(digits)
  }

  /** Adding a digit on the left adds its contribution at its own position from the right. */
  lemma {:induction false} LuhnSumCons(c: char, digits: string, p: nat)
    requires IsDigit(c) && AllChars(digits, IsDigit)
    ensures LuhnSumAt([c] + digits, p) == LuhnSumAt(digits, p) + LuhnContribution(DigitValue(c), (p + |digits|) % 2)
    decreases |digits|
  {
    var s := [c] + digits;
    if digits != [] {
      assert s[..|s| - 1] == [c] + digits[..|digits| - 1];
      assert s[|s| - 1] == digits[|digits| - 1];
      LuhnSumCons(c, digits[..|digits| - 1], p + 1);
      assert (p + 1 + |digits| - 1) % 2 == (p + |digits|) % 2;
    } else {
      assert s[..|s| - 1] == [];
    }
  }

  /** `isValidCreditCard`: keep the digits, demand 13 to 19 of them, then run the Luhn sum from the right. */
  method IsValidCreditCard(cardNumber: string) returns (valid: bool)
    ensures valid <==>
      var digits := KeepDigits(cardNumber);
      13 <= |digits| <= 19 && LuhnSum(digits) % 10 == 0
  {
    var cleaned := KeepDigits(cardNumber);
    if !(|cleaned| >= 13 && |cleaned| <= 19) {
      return false;
    }
    var n := |cleaned|;
    var sum := 0;
    var index := 0;
    while index < n
      invariant 0 <= index <= n
      invariant sum == LuhnSum(cleaned[n - index..])
    {
      var digit := DigitValue(cleaned[n - 1 - index]);
      if index % 2 == 1 {
        var doubled := digit * 2;
        sum := sum + (if doubled > 9 then doubled - 9 else doubled);
      } else {
        sum := sum + digit;
      }
      LuhnSumCons(cleaned[n - 1 - index], cleaned[n - index..], 0);
      assert cleaned[n - 1 - index..] == [cleaned[n - 1 - index]] + cleaned[n - index..];
      index := index + 1;
    }
    assert cleaned[n - n..] == cleaned;
    valid := sum % 10 == 0;
  }

  /** The contribution is the digit sum of the doubled digit, as Annex B of ISO/IEC 7812-1 describes it. */
  lemma LuhnContributionIsDigitSum(digit: nat)
    requires digit <= 9
    ensures LuhnContribution(digit, 1) == (2 * digit) / 10 + (2 * digit) % 10
  {
  }

  /** At a fixed position, different digits contribute differently. */
  lemma LuhnContributionInjective(x: nat, y: nat, index: nat)
    requires x <= 9 && y <= 9 && x != y
    ensures LuhnContribution(x, index) != LuhnContribution(y, index)
  {
  }

  /** Splitting a digit string around one digit: the sum is the parts' sums plus that digit's contribution. */
  lemma {:induction false} LuhnSumSplit(a: string, c: char, b: string)
    requires AllChars(a, IsDigit) && IsDigit(c) && AllChars(b, IsDigit)
    ensures LuhnSum(a + [c] + b) == LuhnSumAt(a, |b| + 1) + LuhnContribution(DigitValue(c), |b| % 2) + LuhnSum(b)
    decreases |b|
  {
    if b == [] {
      var s := a + [c];
      assert a + [c] + b == s;
      assert s[..|s| - 1] == a;
      assert LuhnSumAt(a, 1) == LuhnSumOdd(a);
    } else {
      var s := a + [c] + b;
      var b' := b[..|b| - 1];
      assert s[..|s| - 1] == a + [c] + b';
      assert s[|s| - 1] == b[|b| - 1];
      LuhnSumSplitOdd(a, c, b');
      assert LuhnSumAt(a, |b'| + 2) == LuhnSumAt(a, |b| + 1);
    }
  }

  lemma {:induction false} LuhnSumSplitOdd(a: string, c: char, b: string)
    requires AllChars(a, IsDigit) && IsDigit(c) && AllChars(b, IsDigit)
    ensures LuhnSumOdd(a + [c] + b) == LuhnSumAt(a, |b| + 2) + LuhnContribution(DigitValue(c), (|b| + 1) % 2) + LuhnSumOdd(b)
    decreases |b|
  {
    if b == [] {
      var s := a + [c];
      assert a + [c] + b == s;
      assert s[..|s| - 1] == a;
      assert LuhnSumAt(a, 2) == LuhnSum(a);
    } else {
      var s := a + [c] + b;
      var b' := b[..|b| - 1];
      assert s[..|s| - 1] == a + [c] + b';
      assert s[|s| - 1] == b[|b| - 1];
      LuhnSumSplit(a, c, b');
      assert LuhnSumAt(a, |b'| + 1) == LuhnSumAt(a, |b| + 2);
      assert |b'| % 2 == (|b| + 1) % 2;
    }
  }

  /** The check catches every single mistyped digit: two numbers differing in one digit never both pass. */
  lemma LuhnDetectsSingleDigitError(a: string, x: char, y: char, b: string)
    requires AllChars(a, IsDigit) && IsDigit(x) && IsDigit(y) && AllChars(b, IsDigit) && x != y
    ensures LuhnSum(a + [x] + b) % 10 != LuhnSum(a + [y] + b) % 10
  {
    LuhnSumSplit(a, x, b);
    LuhnSumSplit(a, y, b);
    LuhnContributionInjective(DigitValue(x), DigitValue(y), |b| % 2);
    var rest := LuhnSumAt(a, |b| + 1) + LuhnSum(b);
    NearbyDiffersModTen(rest + LuhnContribution(DigitValue(x), |b| % 2), rest + LuhnContribution(DigitValue(y), |b| % 2));
  }

  lemma NearbyDiffersModTen(p: nat, q: nat)
    requires p != q && p - q < 10 && q - p < 10
    ensures p % 10 != q % 10
  {
  }
}
