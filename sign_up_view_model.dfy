/**
 * `SignUpViewModel`: five field validators that each write an error slot (the first failing rule's
 * message, or "" when the field is accepted), a form check that runs all five, and the sign-up flow.
 * The date of birth enters as the age in whole years that the calendar computation yields (`None` when
 * it yields none); the authentication service enters as the outcome of its call.
 */
module SignUp {
  import opened Wrappers
  import opened Text
  import opened Patterns
  import Validators

  const MinimumAge := 13

  // The messages of the five validators.
  const FullNameRequired := "Full name is required"
  const FullNameTooShort := "Full name must be at least 2 characters"
  const FullNameTooLong := "Full name must be less than 50 characters"
  const FullNameBadCharacters := "Full name can only contain letters and spaces"
  const EmailRequired := "Email is required"
  const EmailInvalid := "Please enter a valid email address"
  const PasswordRequired := "Password is required"
  const PasswordTooShort := "Password must be at least 8 characters"
  const ConfirmRequired := "Please confirm your password"
  const PasswordsDiffer := "Passwords do not match"
  const DateOfBirthMissing := "Invalid date of birth"
  const DateOfBirthImplausible := "Please enter a valid date of birth"
  const MustContain := "Password must contain at least one "

  // ---------------------------------------------------------------------------
  // The rules of each field, first failure wins.

  /** `validateFullName`: empty, shorter than 2, longer than 50, then `^[a-zA-Z ]+$`. */
  function FullNameError(name: string): string {
    if name == [] then FullNameRequired
    else if |name| < 2 then FullNameTooShort
    else if |name| > 50 then FullNameTooLong
    else if !AllChars(name, IsFullNameChar) then FullNameBadCharacters
    else ""
  }

  /** `validateEmail`: empty, then `[A-Z0-9a-z._%+-]+@[A-Za-z0-9.-]+\.[A-Za-z]{2,64}`. */
  function EmailError(email: string): string {
    if email == [] then EmailRequired
    else if !MatchesEmail(email, AtMost(64)) then EmailInvalid
    else ""
  }

  /** The character class of the last password rule, `[!@#$%^&*()_+\-=\[\]{};':"\\|,.<>\/?]`. */
  predicate HasSpecial(password: string) { MatchesSomewhere(password, IsSignUpSpecial) }

  /**
   * `validatePassword`: empty, shorter than 8, then `.*[A-Z]+.*`, `.*[a-z]+.*`, `.*[0-9]+.*` and the
   * special-character pattern.
   */
  function PasswordError(password: string): string {
    if password == [] then PasswordRequired
    else if |password| < 8 then PasswordTooShort
    else if !MatchesSomewhere(password, IsUpper) then MustContain + "uppercase letter"
    else if !MatchesSomewhere(password, IsLower) then MustContain + "lowercase letter"
    else if !MatchesSomewhere(password, IsDigit) then MustContain + "number"
    else if !HasSpecial(password) then MustContain + "special character"
    else ""
  }

  /** The four class checks, by the recogniser. */
  predicate PasswordPatternsMatch(password: string) {
    MatchesSomewhere(password, IsUpper) && MatchesSomewhere(password, IsLower) &&
    MatchesSomewhere(password, IsDigit) && HasSpecial(password)
  }

  /** `validateConfirmPassword`: empty, then equality with the password. */
  function ConfirmPasswordError(password: string, confirmPassword: string): string {
    if confirmPassword == [] then ConfirmRequired
    else if password != confirmPassword then PasswordsDiffer
    else ""
  }

  /** `validateDateOfBirth`, on the age in years: missing, under 13, over 150. */
  function DateOfBirthError(age: Option<int>): string {
    if age.None? then DateOfBirthMissing
    else if age.value < MinimumAge then "You must be at least " + IntToString(MinimumAge) + " years old"
    else if age.value > 150 then DateOfBirthImplausible
    else ""
  }

  // ---------------------------------------------------------------------------
  // What each rule set accepts

  /** A full name is accepted iff it has 2 to 50 characters, all ASCII letters or spaces. */
  lemma FullNameAccepted(name: string)
    ensures FullNameError(name) == "" <==> 2 <= |name| <= 50 && AllChars(name, IsFullNameChar)
    ensures name == [] ==> FullNameError(name) == FullNameRequired
  {
  }

  /** An email is accepted iff it matches the pattern with a top-level part of 2 to 64 letters. */
  lemma EmailAccepted(email: string)
    ensures EmailError(email) == "" <==> EmailRegex(email, AtMost(64))
    ensures email == [] ==> EmailError(email) == EmailRequired
  {
    MatchesEmailIsRegex(email, AtMost(64));
  }

  /** A password is accepted iff it has 8 or more characters and all four class patterns match. */
  lemma PasswordAccepted(password: string)
    ensures PasswordError(password) == "" <==> |password| >= 8 && PasswordPatternsMatch(password)
    ensures password == [] ==> PasswordError(password) == PasswordRequired
  {
  }

  /**
   * The recogniser agrees with the four patterns read as regexes. ICU's `.` does not match a line
   * terminator, so each pattern also demands that the password has none.
   */
  lemma PasswordPatternsAreRegexes(password: string)
    ensures PasswordPatternsMatch(password) <==>
      SomewhereRunRegex(password, IsUpper) && SomewhereRunRegex(password, IsLower) &&
      SomewhereRunRegex(password, IsDigit) && SomewhereRunRegex(password, IsSignUpSpecial)
  {
    MatchesSomewhereIsRunRegex(password, IsUpper);
    MatchesSomewhereIsRunRegex(password, IsLower);
    MatchesSomewhereIsRunRegex(password, IsDigit);
    MatchesSomewhereIsRunRegex(password, IsSignUpSpecial);
  }

  /** The confirmation is accepted iff it is non-empty and equal to the password. */
  lemma ConfirmPasswordAccepted(password: string, confirmPassword: string)
    ensures ConfirmPasswordError(password, confirmPassword) == "" <==> confirmPassword != [] && confirmPassword == password
  {
  }

  /** An age is accepted iff it is known and within 13 to 150; each side has its own message. */
  lemma DateOfBirthAccepted(age: Option<int>)
    ensures DateOfBirthError(age) == "" <==> age.Some? && MinimumAge <= age.value <= 150
    ensures age.Some? && age.value < MinimumAge ==> DateOfBirthError(age) == "You must be at least 13 years old"
    ensures age.Some? && age.value > 150 ==> DateOfBirthError(age) == DateOfBirthImplausible
  {
  }

  // ---------------------------------------------------------------------------
  // Properties of the rules

  /** The password rules are checked in order, so the length message hides every later message. */
  lemma ShortPasswordReportsLength(password: string)
    requires 0 < |password| < 8
    ensures PasswordError(password) == PasswordTooShort
  {
  }

  /** A line terminator anywhere makes every `.*[...]+.*` pattern fail, whatever else the password holds. */
  lemma LineTerminatorRejectsPassword(password: string, k: nat)
    requires k < |password| && IsLineTerminator(password[k])
    ensures PasswordError(password) != ""
  {
    assert !NotLineTerminator(password[k]);
  }

  /** Every special character of `Validators.validatePassword` is also one here. */
  lemma ValidatorsSpecialIsSignUpSpecial(c: char)
    requires IsValidatorsSpecial(c)
    ensures IsSignUpSpecial(c)
  {
  }

  /** A password that passes `Validators.validatePassword` with its defaults passes here too. */
  lemma ValidatorsAcceptedPasswordAccepted(password: string)
    requires Validators.PasswordErrors(password, Validators.DefaultPolicy) == []
    ensures PasswordError(password) == ""
  {
    var policy := Validators.DefaultPolicy;
    Validators.PasswordValidIff(password, policy);
    assert !Validators.RuleFails(Validators.Length, password, policy);
    assert !Validators.RuleFails(Validators.Uppercase, password, policy);
    assert !Validators.RuleFails(Validators.Lowercase, password, policy);
    assert !Validators.RuleFails(Validators.Number, password, policy);
    assert !Validators.RuleFails(Validators.Special, password, policy);
    var i :| 0 <= i < |password| && IsValidatorsSpecial(password[i]);
    assert IsSignUpSpecial(password[i]);
  }

  /** The converse fails: `_` is special here but not there. */
  lemma UnderscoreOnlyHere()
    ensures PasswordError("Abcdefg1_") == ""
    ensures Validators.PasswordErrors("Abcdefg1_", Validators.DefaultPolicy) != []
  {
    var p := "Abcdefg1_";
    assert IsUpper(p[0]) && IsLower(p[1]) && IsDigit(p[7]) && IsSignUpSpecial(p[8]);
    assert AllChars(p, NotLineTerminator);
    forall k | 0 <= k < |p| ensures !IsValidatorsSpecial(p[k]) {
    }
    assert Validators.RuleFails(Validators.Special, p, Validators.DefaultPolicy);
    Validators.PasswordValidIff(p, Validators.DefaultPolicy);
  }

  // ---------------------------------------------------------------------------
  // The view model

  class SignUpViewModel {
    var fullName: string
    var email: string
    var password: string
    var confirmPassword: string
    /** The age that the calendar computes from `dateOfBirth` and today. */
    var age: Option<int>
    var errorMessage: string
    var isLoading: bool
    var isSignUpSuccessful: bool

    var fullNameError: string
    var emailError: string
    var passwordError: string
    var confirmPasswordError: string
    var dateOfBirthError: string

    /**
     * Every field starts empty and `dateOfBirth` at today, which is age 0. Subscribing to `dateOfBirth`
     * (the one subscription without a debounce) validates it at once, so the age error shows from the start.
     */
    constructor ()
      ensures fullName == "" && email == "" && password == "" && confirmPassword == ""
      ensures age == Some(0) && errorMessage == "" && !isLoading && !isSignUpSuccessful
      ensures fullNameError == "" && emailError == "" && passwordError == "" && confirmPasswordError == ""
      ensures dateOfBirthError == DateOfBirthError(Some(0))
    {
      fullName, email, password, confirmPassword := "", "", "", "";
      age := Some(0);
      errorMessage, isLoading, isSignUpSuccessful := "", false, false;
      fullNameError, emailError, passwordError, confirmPasswordError, dateOfBirthError := "", "", "", "", "";
      new;
      var _ := ValidateDateOfBirth(age);
    }

    /** Picking a date of birth: the undebounced subscription validates the new age straight away. */
    method SetDateOfBirth(newAge: Option<int>)
      modifies this`age, this`dateOfBirthError
      ensures age == newAge && dateOfBirthError == DateOfBirthError(newAge)
    {
      age := newAge;
      var _ := ValidateDateOfBirth(newAge);
    }

    /** True when every error slot is empty. */
    predicate ErrorsClear()
      reads this
    {
      fullNameError == "" && emailError == "" && passwordError == "" &&
      confirmPasswordError == "" && dateOfBirthError == ""
    }

    method ValidateFullName(name: string) returns (ok: bool)
      modifies this`fullNameError
      ensures fullNameError == FullNameError(name)
      ensures ok <==> fullNameError == ""
    {
      if name == [] {
        fullNameError := FullNameRequired;
        return false;
      }
      if |name| < 2 {
        fullNameError := FullNameTooShort;
        return false;
      }
      if |name| > 50 {
        fullNameError := FullNameTooLong;
        return false;
      }
      if !AllChars(name, IsFullNameChar) {
        fullNameError := FullNameBadCharacters;
        return false;
      }
      fullNameError := "";
      return true;
    }

    method ValidateEmail(email: string) returns (ok: bool)
      modifies this`emailError
      ensures emailError == EmailError(email)
      ensures ok <==> emailError == ""
    {
      if email == [] {
        emailError := EmailRequired;
        return false;
      }
      if !MatchesEmail(email, AtMost(64)) {
        emailError := EmailInvalid;
        return false;
      }
      emailError := "";
      return true;
    }

    method ValidatePassword(password: string) returns (ok: bool)
      modifies this`passwordError
      ensures passwordError == PasswordError(password)
      ensures ok <==> passwordError == ""
    {
      if password == [] {
        passwordError := PasswordRequired;
        return false;
      }
      if |password| < 8 {
        passwordError := PasswordTooShort;
        return false;
      }
      if !MatchesSomewhere(password, IsUpper) {
        passwordError := MustContain + "uppercase letter";
        return false;
      }
      if !MatchesSomewhere(password, IsLower) {
        passwordError := MustContain + "lowercase letter";
        return false;
      }
      if !MatchesSomewhere(password, IsDigit) {
        passwordError := MustContain + "number";
        return false;
      }
      if !HasSpecial(password) {
        passwordError := MustContain + "special character";
        return false;
      }
      passwordError := "";
      return true;
    }

    method ValidateConfirmPassword(password: string, confirmPassword: string) returns (ok: bool)
      modifies this`confirmPasswordError
      ensures confirmPasswordError == ConfirmPasswordError(password, confirmPassword)
      ensures ok <==> confirmPasswordError == ""
    {
      if confirmPassword == [] {
        confirmPasswordError := ConfirmRequired;
        return false;
      }
      if password != confirmPassword {
        confirmPasswordError := PasswordsDiffer;
        return false;
      }
      confirmPasswordError := "";
      return true;
    }

    method ValidateDateOfBirth(age: Option<int>) returns (ok: bool)
      modifies this`dateOfBirthError
      ensures dateOfBirthError == DateOfBirthError(age)
      ensures ok <==> dateOfBirthError == ""
    {
      if age.None? {
        dateOfBirthError := DateOfBirthMissing;
        return false;
      }
      if age.value < MinimumAge {
        dateOfBirthError := "You must be at least " + IntToString(MinimumAge) + " years old";
        return false;
      }
      if age.value > 150 {
        dateOfBirthError := DateOfBirthImplausible;
        return false;
      }
      dateOfBirthError := "";
      return true;
    }

    /** `validateForm`: all five validators run, whatever the earlier ones found. */
    method ValidateForm() returns (isValid: bool)
      modifies this`fullNameError, this`emailError, this`passwordError, this`confirmPasswordError, this`dateOfBirthError
      ensures fullNameError == FullNameError(fullName) && emailError == EmailError(email)
      ensures passwordError == PasswordError(password)
      ensures confirmPasswordError == ConfirmPasswordError(password, confirmPassword)
      ensures dateOfBirthError == DateOfBirthError(age)
      ensures isValid <==> ErrorsClear()
    {
      isValid := true;
      var ok := ValidateFullName(fullName);
      if !ok { isValid := false; }
      assert isValid <==> fullNameError == "";
      ok := ValidateEmail(email);
      if !ok { isValid := false; }
      assert isValid <==> fullNameError == "" && emailError == "";
      ok := ValidatePassword(password);
      if !ok { isValid := false; }
      assert isValid <==> fullNameError == "" && emailError == "" && passwordError == "";
      ok := ValidateConfirmPassword(password, confirmPassword);
      if !ok { isValid := false; }
      assert isValid <==> fullNameError == "" && emailError == "" && passwordError == "" && confirmPasswordError == "";
      ok := ValidateDateOfBirth(age);
      if !ok { isValid := false; }
    }

    /**
     * `signUp` up to the service call: clears the general message, validates, and only on a valid form
     * sets `isLoading` and starts the call (`started`).
     */
    method SignUp() returns (started: bool)
      modifies this`errorMessage, this`isLoading,
        this`fullNameError, this`emailError, this`passwordError, this`confirmPasswordError, this`dateOfBirthError
      ensures errorMessage == ""
      ensures fullNameError == FullNameError(fullName) && emailError == EmailError(email)
      ensures passwordError == PasswordError(password)
      ensures confirmPasswordError == ConfirmPasswordError(password, confirmPassword)
      ensures dateOfBirthError == DateOfBirthError(age)
      ensures started <==> ErrorsClear()
      ensures isLoading == (if started then true else old(isLoading))
    {
      errorMessage := "";
      var valid := ValidateForm();
      if !valid {
        return false;
      }
      isLoading := true;
      return true;
    }

    /** The body of the sign-up task, once the service has answered. */
    method SignUpTaskFinished(outcome: Outcome)
      modifies this
      ensures !isLoading
      ensures outcome.Succeeded? ==>
        isSignUpSuccessful && fullName == "" && email == "" && password == "" && confirmPassword == "" &&
        age == Some(0) && errorMessage == "" && ErrorsClear()
      ensures outcome.Failed? ==>
        errorMessage == outcome.description && isSignUpSuccessful == old(isSignUpSuccessful) &&
        fullName == old(fullName) && email == old(email) && password == old(password) &&
        confirmPassword == old(confirmPassword) && age == old(age) &&
        fullNameError == old(fullNameError) && emailError == old(emailError) &&
        passwordError == old(passwordError) && confirmPasswordError == old(confirmPasswordError) &&
        dateOfBirthError == old(dateOfBirthError)
    {
      match outcome {
        case Succeeded =>
          isSignUpSuccessful := true;
          ClearForm();
        case Failed(description) =>
          errorMessage := description;
      }
      isLoading := false;
    }

    /** `clearForm`: every field and error back to empty; `dateOfBirth` back to today. */
    method ClearForm()
      modifies this
      ensures fullName == "" && email == "" && password == "" && confirmPassword == ""
      ensures age == Some(0) && errorMessage == "" && ErrorsClear()
      ensures isLoading == old(isLoading) && isSignUpSuccessful == old(isSignUpSuccessful)
    {
      fullName, email, password, confirmPassword := "", "", "", "";
      age := Some(0);
      errorMessage := "";
      fullNameError, emailError, passwordError, confirmPasswordError, dateOfBirthError := "", "", "", "", "";
    }
  }
}
