/**
 * `SignUpView`: the screen's own, looser field checks. Each writes an optional error slot
 * (`None` when the field is accepted); editing a field re-runs its check, and editing the password
 * also re-runs the confirmation check. The sign-up button re-runs all five checks and starts only on
 * a valid form; the later timer only clears `isLoading` and dismisses the screen.
 */
module SignUpScreen {
  import opened Wrappers
  import SignUp
  import Patterns

  // The screen's messages.
  const FullNameRequired := "Full name is required"
  const FullNameTooShort := "Full name must be at least 2 characters"
  const EmailRequired := "Email is required"
  const EmailInvalid := "Please enter a valid email address"
  const PasswordRequired := "Password is required"
  const PasswordTooShort := "Password must be at least 8 characters"
  const ConfirmRequired := "Please confirm your password"
  const PasswordsDiffer := "Passwords do not match"
  const TooYoung := "You must be at least 13 years old"

  // ---------------------------------------------------------------------------
  // The screen's checks

  function FullNameCheck(fullName: string): Option<string> {
    if fullName == [] then Some(FullNameRequired)
    else if |fullName| < 2 then Some(FullNameTooShort)
    else None
  }

  function EmailCheck(email: string): Option<string> {
    if email == [] then Some(EmailRequired)
    else if !('@' in email) || !('.' in email) then Some(EmailInvalid)
    else None
  }

  function PasswordCheck(password: string): Option<string> {
    if password == [] then Some(PasswordRequired)
    else if |password| < 8 then Some(PasswordTooShort)
    else None
  }

  function ConfirmPasswordCheck(password: string, confirmPassword: string): Option<string> {
    if confirmPassword == [] then Some(ConfirmRequired)
    else if confirmPassword != password then Some(PasswordsDiffer)
    else None
  }

  /** Only a known age under 13 is an error here; a missing age passes. */
  function DateOfBirthCheck(age: Option<int>): Option<string> {
    if age.Some? && age.value < 13 then Some(TooYoung) else None
  }

  /** The five checks all pass. */
  predicate ChecksPass(fullName: string, email: string, password: string, confirmPassword: string, age: Option<int>) {
    FullNameCheck(fullName).None? && EmailCheck(email).None? && PasswordCheck(password).None? &&
    ConfirmPasswordCheck(password, confirmPassword).None? && DateOfBirthCheck(age).None?
  }

  /** What the screen accepts, field by field. */
  lemma ChecksPassIff(fullName: string, email: string, password: string, confirmPassword: string, age: Option<int>)
    ensures ChecksPass(fullName, email, password, confirmPassword, age) <==>
      |fullName| >= 2 && '@' in email && '.' in email && |password| >= 8 &&
      confirmPassword == password && (age.Some? ==> age.value >= 13)
  {
  }

  /** A field that passes its check is non-empty, so `isFormValid`'s emptiness tests add nothing to the checks. */
  lemma ChecksImplyFilled(fullName: string, email: string, password: string, confirmPassword: string, age: Option<int>)
    ensures ChecksPass(fullName, email, password, confirmPassword, age) <==>
      fullName != [] && email != [] && password != [] && confirmPassword != [] &&
      FullNameCheck(fullName).None? && EmailCheck(email).None? && PasswordCheck(password).None? &&
      ConfirmPasswordCheck(password, confirmPassword).None? && DateOfBirthCheck(age).None?
  {
  }

  /** Every field the view model accepts, the screen accepts too. */
  lemma ViewModelIsStricter(fullName: string, email: string, password: string, confirmPassword: string, age: Option<int>)
    requires SignUp.FullNameError(fullName) == "" && SignUp.EmailError(email) == ""
    requires SignUp.PasswordError(password) == "" && SignUp.ConfirmPasswordError(password, confirmPassword) == ""
    requires SignUp.DateOfBirthError(age) == ""
    ensures ChecksPass(fullName, email, password, confirmPassword, age)
  {
    SignUp.FullNameAccepted(fullName);
    SignUp.EmailAccepted(email);
    SignUp.PasswordAccepted(password);
    SignUp.ConfirmPasswordAccepted(password, confirmPassword);
    SignUp.DateOfBirthAccepted(age);
    var at: nat, dot: nat :| at < dot < |email| && Patterns.EmailPartsAt(email, at, dot, Patterns.AtMost(64));
    assert email[at] == '@' && email[dot] == '.';
  }

  /** The converse fails: the screen lets through an address the view model refuses. */
  lemma ScreenAcceptsMore()
    ensures EmailCheck("@.").None?
    ensures SignUp.EmailError("@.") != ""
  {
    var e := "@.";
    assert e[0] == '@' && e[1] == '.';
    SignUp.EmailAccepted(e);
  }

  // ---------------------------------------------------------------------------
  // The screen state

  class SignUpForm {
    var fullName: string
    var email: string
    var password: string
    var confirmPassword: string
    /** The age the calendar computes from the picked date of birth. */
    var age: Option<int>
    var isLoading: bool
    var isDismissed: bool

    var fullNameError: Option<string>
    var emailError: Option<string>
    var passwordError: Option<string>
    var confirmPasswordError: Option<string>
    var dateOfBirthError: Option<string>

    constructor ()
      ensures fullName == "" && email == "" && password == "" && confirmPassword == "" && age == Some(0)
      ensures !isLoading && !isDismissed
      ensures fullNameError.None? && emailError.None? && passwordError.None?
      ensures confirmPasswordError.None? && dateOfBirthError.None?
    {
      fullName, email, password, confirmPassword := "", "", "", "";
      age := Some(0);
      isLoading, isDismissed := false, false;
      fullNameError, emailError, passwordError, confirmPasswordError, dateOfBirthError := None, None, None, None, None;
    }

    /** `isFormValid`: four non-empty text fields and no error shown. */
    predicate IsFormValid(): (r: bool)
      reads this
      ensures r ==> fullName != [] && email != [] && password != [] && confirmPassword != []
      ensures ErrorsCurrent() ==> (r <==> ChecksPass(fullName, email, password, confirmPassword, age))
    {
      ChecksImplyFilled(fullName, email, password, confirmPassword, age);
      fullName != [] && email != [] && password != [] && confirmPassword != [] &&
      fullNameError.None? && emailError.None? && passwordError.None? &&
      confirmPasswordError.None? && dateOfBirthError.None?
    }

    /** Every error slot shows what its check gives for the field's present value. */
    predicate ErrorsCurrent()
      reads this
    {
      fullNameError == FullNameCheck(fullName) && emailError == EmailCheck(email) &&
      passwordError == PasswordCheck(password) && confirmPasswordError == ConfirmPasswordCheck(password, confirmPassword) &&
      dateOfBirthError == DateOfBirthCheck(age)
    }

    /**
     * The sign-up button is disabled while loading or while the form is not valid: an enabled
     * button means four filled fields, and, with every error slot current, fields the checks accept.
     */
    predicate ButtonDisabled(): (r: bool)
      reads this
      ensures !r ==> !isLoading && fullName != [] && email != [] && password != [] && confirmPassword != []
      ensures ErrorsCurrent() ==> (!r <==> !isLoading && ChecksPass(fullName, email, password, confirmPassword, age))
    {
      isLoading || !IsFormValid()
    }

    method ValidateFullName()
      modifies this`fullNameError
      ensures fullNameError == FullNameCheck(fullName)
    {
      if fullName == [] {
        fullNameError := Some(FullNameRequired);
      } else if |fullName| < 2 {
        fullNameError := Some(FullNameTooShort);
      } else {
        fullNameError := None;
      }
    }

    method ValidateEmail()
      modifies this`emailError
      ensures emailError == EmailCheck(email)
    {
      if email == [] {
        emailError := Some(EmailRequired);
      } else if !('@' in email) || !('.' in email) {
        emailError := Some(EmailInvalid);
      } else {
        emailError := None;
      }
    }

    method ValidatePassword()
      modifies this`passwordError
      ensures passwordError == PasswordCheck(password)
    {
      if password == [] {
        passwordError := Some(PasswordRequired);
      } else if |password| < 8 {
        passwordError := Some(PasswordTooShort);
      } else {
        passwordError := None;
      }
    }

    method ValidateConfirmPassword()
      modifies this`confirmPasswordError
      ensures confirmPasswordError == ConfirmPasswordCheck(password, confirmPassword)
    {
      if confirmPassword == [] {
        confirmPasswordError := Some(ConfirmRequired);
      } else if confirmPassword != password {
        confirmPasswordError := Some(PasswordsDiffer);
      } else {
        confirmPasswordError := None;
      }
    }

    method ValidateDateOfBirth()
      modifies this`dateOfBirthError
      ensures dateOfBirthError == DateOfBirthCheck(age)
    {
      if age.Some? && age.value < 13 {
        dateOfBirthError := Some(TooYoung);
      } else {
        dateOfBirthError := None;
      }
    }

    /** Typing in the name field: `onChange` runs the check only when the value really changes. */
    /** The date picker's sheet: a picked date gives a new age, and `Done` re-runs the age check. */
    method EditDateOfBirth(value: Option<int>)
      modifies this`age, this`dateOfBirthError
      ensures age == value
      ensures dateOfBirthError == DateOfBirthCheck(value)
      ensures old(ErrorsCurrent()) ==> ErrorsCurrent()
    {
      age := value;
      ValidateDateOfBirth();
    }

    method EditFullName(value: string)
      modifies this`fullName, this`fullNameError
      ensures fullName == value
      ensures fullNameError == if value != old(fullName) then FullNameCheck(value) else old(fullNameError)
      ensures old(ErrorsCurrent()) ==> ErrorsCurrent()
    {
      var changed := value != fullName;
      fullName := value;
      if changed {
        ValidateFullName();
      }
    }

    method EditEmail(value: string)
      modifies this`email, this`emailError
      ensures email == value
      ensures emailError == if value != old(email) then EmailCheck(value) else old(emailError)
      ensures old(ErrorsCurrent()) ==> ErrorsCurrent()
    {
      var changed := value != email;
      email := value;
      if changed {
        ValidateEmail();
      }
    }

    /** A new password re-runs both the password check and the confirmation check. */
    method EditPassword(value: string)
      modifies this`password, this`passwordError, this`confirmPasswordError
      ensures password == value
      ensures passwordError == if value != old(password) then PasswordCheck(value) else old(passwordError)
      ensures confirmPasswordError ==
        if value != old(password) then ConfirmPasswordCheck(value, confirmPassword) else old(confirmPasswordError)
      ensures old(ErrorsCurrent()) ==> ErrorsCurrent()
    {
      var changed := value != password;
      password := value;
      if changed {
        ValidatePassword();
        ValidateConfirmPassword();
      }
    }

    method EditConfirmPassword(value: string)
      modifies this`confirmPassword, this`confirmPasswordError
      ensures confirmPassword == value
      ensures confirmPasswordError ==
        if value != old(confirmPassword) then ConfirmPasswordCheck(password, value) else old(confirmPasswordError)
      ensures old(ErrorsCurrent()) ==> ErrorsCurrent()
    {
      var changed := value != confirmPassword;
      confirmPassword := value;
      if changed {
        ValidateConfirmPassword();
      }
    }

    /**
     * `handleSignUp`: all five checks run, then the form must be valid; only then does `isLoading` turn on
     * (`started`).
     */
    method HandleSignUp() returns (started: bool)
      modifies this`isLoading,
        this`fullNameError, this`emailError, this`passwordError, this`confirmPasswordError, this`dateOfBirthError
      ensures fullNameError == FullNameCheck(fullName) && emailError == EmailCheck(email)
      ensures passwordError == PasswordCheck(password)
      ensures confirmPasswordError == ConfirmPasswordCheck(password, confirmPassword)
      ensures dateOfBirthError == DateOfBirthCheck(age)
      ensures started <==> ChecksPass(fullName, email, password, confirmPassword, age)
      ensures started <==> IsFormValid()
      ensures isLoading == if started then true else old(isLoading)
      ensures ErrorsCurrent()
    {
      ValidateFullName();
      ValidateEmail();
      ValidatePassword();
      ValidateConfirmPassword();
      ValidateDateOfBirth();
      ChecksImplyFilled(fullName, email, password, confirmPassword, age);
      if !IsFormValid() {
        return false;
      }
      isLoading := true;
      return true;
    }

    /** The delayed block after a started sign-up. */
    method SignUpTimerFired()
      modifies this`isLoading, this`isDismissed
      ensures !isLoading && isDismissed
    {
      isLoading := false;
      isDismissed := true;
    }
  }
}
