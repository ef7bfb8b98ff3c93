/**
 * `LoginView`: the login screen's own checks. The button is enabled only when nothing is loading and
 * both fields are filled in; pressing it guards on filled-in fields and on an email holding `@` and `.`,
 * and then starts a timer whose block reports that login is not implemented.
 */
module LoginScreen {
  import opened Wrappers
  import Login
  import Patterns

  /** The guards of `handleLogin` as a value: the message of the first failing one, or `None`. */
  function LoginGuard(email: string, password: string): (r: Option<string>)
    ensures r == Some("Please fill in all fields") <==> email == [] || password == []
    ensures r.Some? ==> r.value == "Please fill in all fields" || r.value == "Please enter a valid email address"
  {
    if email == [] || password == [] then Some("Please fill in all fields")
    else if !('@' in email) || !('.' in email) then Some("Please enter a valid email address")
    else None
  }

  /** `.disabled(isLoading || email.isEmpty || password.isEmpty)`. */
  predicate ButtonDisabledFor(isLoading: bool, email: string, password: string) {
    isLoading || email == [] || password == []
  }

  /** The guards pass iff both fields are filled and the email holds both `@` and `.`. */
  lemma LoginGuardPasses(email: string, password: string)
    ensures LoginGuard(email, password).None? <==> password != [] && '@' in email && '.' in email
  {
  }

  /** An enabled button never reaches the "fill in all fields" message. */
  lemma EnabledButtonFillsFields(isLoading: bool, email: string, password: string)
    requires !ButtonDisabledFor(isLoading, email, password)
    ensures LoginGuard(email, password) != Some("Please fill in all fields")
  {
  }

  /** Input the view model accepts passes the screen's guards too. */
  lemma ViewModelIsStricter(email: string, password: string)
    requires Login.InputError(email, password).None?
    ensures LoginGuard(email, password).None?
  {
    Login.InputAccepted(email, password);
    var at: nat, dot: nat :| at < dot < |email| && Patterns.EmailPartsAt(email, at, dot, Patterns.AtMost(64));
    assert email[at] == '@' && email[dot] == '.';
  }

  class LoginForm {
    var email: string
    var password: string
    var isLoading: bool
    var errorMessage: Option<string>

    constructor ()
      ensures email == "" && password == "" && !isLoading && errorMessage.None?
    {
      email, password := "", "";
      isLoading := false;
      errorMessage := None;
    }

    /** The button as drawn: an enabled one means nothing is loading and both fields are filled. */
    predicate ButtonDisabled(): (r: bool)
      reads this
      ensures !r ==> !isLoading && email != [] && password != []
      ensures !r ==> LoginGuard(email, password) != Some("Please fill in all fields")
    {
      ButtonDisabledFor(isLoading, email, password)
    }

    /** `handleLogin`: a failing guard shows its message; otherwise loading starts and the message clears. */
    method HandleLogin() returns (started: bool)
      modifies this`isLoading, this`errorMessage
      ensures started <==> LoginGuard(email, password).None?
      ensures started ==> isLoading && errorMessage.None?
      ensures !started ==> isLoading == old(isLoading) && errorMessage == LoginGuard(email, password)
    {
      if email == [] || password == [] {
        errorMessage := Some("Please fill in all fields");
        return false;
      }
      if !('@' in email) || !('.' in email) {
        errorMessage := Some("Please enter a valid email address");
        return false;
      }
      isLoading := true;
      errorMessage := None;
      return true;
    }

    /** The delayed block after a started login. */
    method LoginTimerFired()
      modifies this`isLoading, this`errorMessage
      ensures !isLoading && errorMessage == Some("Login functionality not implemented yet")
    {
      isLoading := false;
      errorMessage := Some("Login functionality not implemented yet");
    }
  }
}
