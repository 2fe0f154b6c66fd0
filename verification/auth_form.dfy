/**
 * The sign-in / sign-up dialog: field validation, then the loading and
 * error sequence around the auth hook's call, closing the dialog on success.
 */
module AuthForm {
  import opened Wrappers
  import opened DatabaseAuth

  const EmptyLoginMessage := "Please enter both email and password"
  const EmptySignupMessage := "Please fill in all fields"
  const ShortPasswordMessage := "Password must be at least 6 characters"
  const LoginFailedMessage := "Login failed. Please check your credentials."
  const SignupFailedMessage := "Signup failed. Please try again."
  const MinPasswordLength := 6

  /** Why a login is refused before any call: an empty email or password. */
  function LoginProblem(email: string, password: string): (r: Option<string>)
    ensures r.Some? <==> email == [] || password == []
    ensures r.Some? ==> r.value == EmptyLoginMessage
  {
    if email == [] || password == [] then Some(EmptyLoginMessage) else None
  }

  /** Why a signup is refused: an empty field first, then a password under six characters. */
  function SignupProblem(email: string, password: string, name: string): (r: Option<string>)
    ensures r.None? <==> email != [] && password != [] && name != [] && |password| >= MinPasswordLength
    ensures (email == [] || password == [] || name == []) ==> r == Some(EmptySignupMessage)
    ensures email != [] && password != [] && name != [] && |password| < MinPasswordLength ==>
      r == Some(ShortPasswordMessage)
  {
    if email == [] || password == [] || name == [] then Some(EmptySignupMessage)
    else if |password| < MinPasswordLength then Some(ShortPasswordMessage)
    else None
  }

  /** `error.message || fallback`: an empty message gives the fallback text. */
  function FailureMessage(message: string, fallback: string): (r: string)
    ensures message != [] ==> r == message
    ensures message == [] ==> r == fallback
    ensures fallback != [] ==> r != []
  {
    if message != [] then message else fallback
  }

  /** State of `AuthModal`: the inputs, the loading flag, the error text, and whether `onClose` ran. */
  class AuthDialog {
    var email: string
    var password: string
    var name: string
    var isLoading: bool
    var error: string
    var closed: bool

    constructor (email: string, password: string, name: string)
      ensures this.email == email && this.password == password && this.name == name
      ensures !isLoading && error == [] && !closed
    {
      this.email := email;
      this.password := password;
      this.name := name;
      isLoading := false;
      error := [];
      closed := false;
    }

    /** Before the call: set loading and clear the error. */
    method Begin()
      modifies this
      ensures isLoading && error == []
      ensures email == old(email) && password == old(password) && name == old(name) && closed == old(closed)
    {
      isLoading := true;
      error := [];
    }

    /** After the call: success closes the dialog, failure shows a message; loading ends either way. */
    method Finish(outcome: CallOutcome, fallback: string)
      modifies this
      ensures !isLoading
      ensures outcome.Succeeded? ==> closed && error == old(error)
      ensures outcome.Threw? ==> closed == old(closed) && error == FailureMessage(outcome.message, fallback)
      ensures email == old(email) && password == old(password) && name == old(name)
    {
      match outcome {
        case Succeeded =>
          closed := true;
        case Threw(message) =>
          error := FailureMessage(message, fallback);
      }
      isLoading := false;
    }

    /** `handleLogin`; `remote` is what the remote sign-in would do. Reports whether `signIn` ran. */
    method HandleLogin(auth: DatabaseAuthHook, remote: CallOutcome) returns (called: bool)
      modifies this, auth
      ensures called <==> LoginProblem(old(email), old(password)).None?
      ensures !called ==>
        error == EmptyLoginMessage && closed == old(closed) && isLoading == old(isLoading) && unchanged(auth)
      ensures called && old(auth.hasClient) && remote.Threw? ==>
        !isLoading && closed == old(closed) && error == FailureMessage(remote.message, LoginFailedMessage)
      ensures called && !(old(auth.hasClient) && remote.Threw?) ==> !isLoading && closed && error == []
      ensures called && !old(auth.hasClient) ==> auth.user == Some(LocalSignInUser(old(email)))
    {
      var problem := LoginProblem(email, password);
      if problem.Some? {
        error := problem.value;
        return false;
      }
      Begin();
      var outcome := auth.SignIn(email, password, remote);
      Finish(outcome, LoginFailedMessage);
      called := true;
    }

    /** `handleSignup`: the same sequence after the signup checks. Reports whether `signUp` ran. */
    method HandleSignup(auth: DatabaseAuthHook, remote: CallOutcome) returns (called: bool)
      modifies this, auth
      ensures called <==> SignupProblem(old(email), old(password), old(name)).None?
      ensures !called ==>
        error == SignupProblem(old(email), old(password), old(name)).value &&
        closed == old(closed) && isLoading == old(isLoading) && unchanged(auth)
      ensures called && old(auth.hasClient) && remote.Threw? ==>
        !isLoading && closed == old(closed) && error == FailureMessage(remote.message, SignupFailedMessage)
      ensures called && !(old(auth.hasClient) && remote.Threw?) ==> !isLoading && closed && error == []
      ensures called && !old(auth.hasClient) ==>
        auth.user == Some(AuthUser(LocalUserId, old(email), old(name)))
    {
      var problem := SignupProblem(email, password, name);
      if problem.Some? {
        error := problem.value;
        return false;
      }
      Begin();
      var outcome := auth.SignUp(email, password, name, remote);
      Finish(outcome, SignupFailedMessage);
      called := true;
    }
  }
}
