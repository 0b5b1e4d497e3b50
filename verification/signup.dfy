/** The sign-up page's submit handler: it clears the previous outcome,
    validates the two password fields in a fixed order, and only then calls
    the authentication provider, recording its outcome and ending the
    loading state whatever happened.

    The provider's answer is an input; the calls made to it and the
    redirects scheduled are logged. */
module SignUp {
  import opened Wrappers

  const MinPasswordLength := 6
  const MismatchMessage := "Passwords do not match"
  const TooShortMessage := "Password must be at least 6 characters long"
  const UnexpectedMessage := "An unexpected error occurred"
  const LoginRedirectDelayMs := 2000

  /** What the provider's `signUp` does: resolve with an error, resolve
      without one, or throw. */
  datatype ProviderAnswer = Rejected(message: string) | Accepted | Threw

  /** The message of the first validation check that fails, or none: the
      mismatch check comes before the length check. */
  function ValidationError(password: string, confirmPassword: string): (r: Option<string>)
    ensures r.None? <==> password == confirmPassword && |password| >= MinPasswordLength
    ensures password != confirmPassword ==> r == Some(MismatchMessage)
    ensures password == confirmPassword && |password| < MinPasswordLength ==> r == Some(TooShortMessage)
  {
    if password != confirmPassword then Some(MismatchMessage)
    else if |password| < MinPasswordLength then Some(TooShortMessage)
    else None
  }

  /** The order matters: a short password typed differently twice reports
      the mismatch, never the length. */
  lemma MismatchReportedFirst(password: string, confirmPassword: string)
    requires password != confirmPassword && |password| < MinPasswordLength
    ensures ValidationError(password, confirmPassword) == Some(MismatchMessage)
    ensures ValidationError(password, confirmPassword) != Some(TooShortMessage)
  {
  }

  /** The page sends a user home exactly when authentication has loaded and
      the user is signed in: never while loading, never when signed out. */
  function RedirectsHome(authLoading: bool, signedIn: bool): (r: bool)
    ensures r <==> signedIn && !authLoading
  {
    !authLoading && signedIn
  }

  datatype Redirect = Redirect(path: string, delayMs: nat)

  class SignUpForm {
    var email: string
    var password: string
    var confirmPassword: string
    var error: Option<string>
    var success: bool
    var loading: bool
    /** The `(email, password)` pairs passed to `signUp`, in order. */
    var signUpCalls: seq<(string, string)>
    var redirects: seq<Redirect>

    constructor (email: string, password: string, confirmPassword: string)
      ensures this.email == email && this.password == password && this.confirmPassword == confirmPassword
      ensures error == None && !success && !loading && signUpCalls == [] && redirects == []
    {
      this.email := email;
      this.password := password;
      this.confirmPassword := confirmPassword;
      error := None;
      success := false;
      loading := false;
      signUpCalls := [];
      redirects := [];
    }

    /** `handleSubmit`. A failed validation leaves its message, success
        false and nothing sent. Otherwise `signUp` is called once with the
        form's email and password; a rejection leaves its message, an
        acceptance sets success and schedules the login redirect, a throw
        leaves the generic message; loading ends false. */
    method HandleSubmit(answer: ProviderAnswer)
      modifies this`error, this`success, this`loading, this`signUpCalls, this`redirects
      ensures var invalid := ValidationError(password, confirmPassword);
        invalid.Some? ==>
          && error == invalid && !success && loading == old(loading)
          && signUpCalls == old(signUpCalls) && redirects == old(redirects)
      ensures ValidationError(password, confirmPassword).None? ==>
        && signUpCalls == old(signUpCalls) + [(email, password)]
        && !loading
        && success == answer.Accepted?
        && error == (match answer
                     case Rejected(m) => Some(m)
                     case Accepted => None
                     case Threw => Some(UnexpectedMessage))
        && redirects == old(redirects) + (if answer.Accepted? then [Redirect("/login", LoginRedirectDelayMs)] else [])
    {
      error := None;
      success := false;
      if password != confirmPassword {
        error := Some(MismatchMessage);
        return;
      }
      if |password| < MinPasswordLength {
        error := Some(TooShortMessage);
        return;
      }
      loading := true;
      signUpCalls := signUpCalls + [(email, password)];
      match answer {
        case Rejected(m) =>
          error := Some(m);
        case Accepted =>
          success := true;
          redirects := redirects + [Redirect("/login", LoginRedirectDelayMs)];
        case Threw =>
          error := Some(UnexpectedMessage);
      }
      loading := false;
    }

    /** The redirect effect, run with the auth state it observes: a loaded,
        signed-in user is sent home at once; otherwise nothing is scheduled
        and nothing else changes. */
    method RedirectEffect(authLoading: bool, signedIn: bool)
      modifies this`redirects
      ensures redirects == old(redirects) + (if RedirectsHome(authLoading, signedIn) then [Redirect("/", 0)] else [])
    {
      if !authLoading && signedIn {
        redirects := redirects + [Redirect("/", 0)];
      }
    }
  }

  /** A second submit after a rejected one starts from a clean outcome: the
      earlier message is gone once the retry is accepted. */
  method RetryAfterRejection() returns (firstError: Option<string>, secondError: Option<string>, succeeded: bool, calls: nat)
    ensures firstError == Some("User already registered")
    ensures secondError == None && succeeded && calls == 2
  {
    var form := new SignUpForm("a@example.com", "secret1", "secret1");
    form.HandleSubmit(Rejected("User already registered"));
    firstError := form.error;
    form.HandleSubmit(Accepted);
    secondError := form.error;
    succeeded := form.success;
    calls := |form.signUpCalls|;
  }

  /** Mismatched short passwords report the mismatch and call nothing. */
  method MismatchedShortPassword() returns (message: Option<string>, calls: nat)
    ensures message == Some(MismatchMessage) && calls == 0
  {
    var form := new SignUpForm("a@example.com", "abc", "abd");
    form.HandleSubmit(Accepted);
    message := form.error;
    calls := |form.signUpCalls|;
  }
}
