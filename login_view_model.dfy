/**
 * `LoginViewModel`: input checks where the first failure's message is the only one stored,
 * and the login flow around the authentication service, which enters as the outcome of its call.
 */
module Login {
  import opened Wrappers
  import opened Patterns
  import SignUp

  /** `isValidEmail`: `[A-Z0-9a-z._%+-]+@[A-Za-z0-9.-]+\.[A-Za-z]{2,64}`. */
  predicate IsValidEmail(email: string) {
    MatchesEmail(email, AtMost(64))
  }

  /** `validateInput` as a value: the message of the first failing check, or `None` when all pass. */
  function InputError(email: string, password: string): Option<string> {
    if email == [] then Some("Please enter your email")
    else if !IsValidEmail(email) then Some("Please enter a valid email address")
    else if password == [] then Some("Please enter your password")
    else if |password| < 6 then Some("Password must be at least 6 characters")
    else None
  }

  /** Input passes iff the email matches the pattern and the password has at least 6 characters. */
  lemma InputAccepted(email: string, password: string)
    ensures InputError(email, password).None? <==> EmailRegex(email, AtMost(64)) && |password| >= 6
  {
    MatchesEmailIsRegex(email, AtMost(64));
  }

  /** The email checks come first: a bad email is reported whatever the password is. */
  lemma EmailCheckedFirst(email: string, password: string, otherPassword: string)
    ensures !IsValidEmail(email) ==> InputError(email, password) == InputError(email, otherPassword)
    ensures email == [] ==> InputError(email, password) == Some("Please enter your email")
  {
  }

  /** Login's email rule and sign-up's accept the same addresses. */
  lemma SameEmailRuleAsSignUp(email: string)
    ensures IsValidEmail(email) <==> SignUp.EmailError(email) == ""
  {
    if IsValidEmail(email) {
      AcceptedEmailShape(email, AtMost(64));
    }
  }

  class LoginViewModel {
    var email: string
    var password: string
    var errorMessage: string
    var isLoading: bool
    var isLoggedIn: bool

    constructor ()
      ensures email == "" && password == "" && errorMessage == "" && !isLoading && !isLoggedIn
    {
      email, password, errorMessage := "", "", "";
      isLoading, isLoggedIn := false, false;
    }

    /** `validateInput`: writes the message of the first failing check; leaves it alone when all pass. */
    method ValidateInput() returns (ok: bool)
      modifies this`errorMessage
      ensures ok <==> InputError(email, password).None?
      ensures errorMessage == if ok then old(errorMessage) else InputError(email, password).value
    {
      if email == [] {
        errorMessage := "Please enter your email";
        return false;
      }
      if !IsValidEmail(email) {
        errorMessage := "Please enter a valid email address";
        return false;
      }
      if password == [] {
        errorMessage := "Please enter your password";
        return false;
      }
      if |password| < 6 {
        errorMessage := "Password must be at least 6 characters";
        return false;
      }
      return true;
    }

    /** `login` up to the service call: clears the message, validates, and only then sets `isLoading`. */
    method Login() returns (started: bool)
      modifies this`errorMessage, this`isLoading
      ensures started <==> InputError(email, password).None?
      ensures errorMessage == if started then "" else InputError(email, password).value
      ensures isLoading == if started then true else old(isLoading)
    {
      errorMessage := "";
      var valid := ValidateInput();
      if !valid {
        return false;
      }
      isLoading := true;
      return true;
    }

    /** The body of the login task, once the service has answered. */
    method LoginTaskFinished(outcome: Outcome)
      modifies this
      ensures !isLoading
      ensures outcome.Succeeded? ==> isLoggedIn && email == "" && password == "" && errorMessage == ""
      ensures outcome.Failed? ==>
        errorMessage == outcome.description && isLoggedIn == old(isLoggedIn) &&
        email == old(email) && password == old(password)
    {
      match outcome {
        case Succeeded =>
          isLoggedIn := true;
          ClearForm();
        case Failed(description) =>
          errorMessage := description;
      }
      isLoading := false;
    }

    /** `clearForm`: email, password and message back to empty. */
    method ClearForm()
      modifies this`email, this`password, this`errorMessage
      ensures email == "" && password == "" && errorMessage == ""
    {
      email, password, errorMessage := "", "", "";
    }
  }
}
