/**
 * The sign-up dialog (components/signup-modal.tsx): its submit handler
 * checks the two passwords, calls the session's `signup` and turns the
 * outcome into the dialog's error text, loading flag and close request.
 */
module SignupModal {

  import opened Wrappers
  import opened Web
  import opened ApiClient
  import opened AuthService
  import opened Session

  const SignupFailed := "Failed to create account"

  /** `err.message || "Failed to create account"`: the thrown message, or a fixed text when it is empty. */
  function FailureText(message: string): (text: string)
    ensures message != "" ==> text == message
    ensures message == "" ==> text == SignupFailed
    ensures text != ""
  {
    if message != "" then message else SignupFailed
  }

  class SignupDialog {
    var displayName: string
    var email: string
    var password: string
    var password2: string
    var error: string
    var isLoading: bool
    const auth: AuthProvider

    constructor (auth: AuthProvider)
      ensures this.auth == auth
      ensures displayName == "" && email == "" && password == "" && password2 == ""
      ensures error == "" && !isLoading
    {
      this.auth := auth;
      displayName, email, password, password2 := "", "", "", "";
      error, isLoading := "", false;
    }

    /**
     * `handleSubmit`. The previous error is cleared first. Differing passwords
     * show "Passwords don't match" and stop there: loading is not touched and
     * `signup` is not called, so the session and the browser are unchanged.
     * Matching passwords call `signup(email, password, password2, displayName)`
     * (`sent` is what reaches register): success asks the dialog to close with
     * no error; failure keeps it open with the failure text. Loading ends false
     * once the call was made.
     */
    method HandleSubmit(outcome: Result<AuthResponse, Error>) returns (closed: bool, sent: Option<RegisterData>)
      modifies this, auth, auth.browser
      ensures displayName == old(displayName) && email == old(email)
      ensures password == old(password) && password2 == old(password2)
      ensures old(password) != old(password2) ==>
        && error == PasswordMismatch && isLoading == old(isLoading) && !closed && sent == None
        && unchanged(auth) && unchanged(auth.browser)
      ensures old(password) == old(password2) ==>
        && sent == Some(RegisterData(displayName, email, password, password2))
        && !isLoading
        && (closed <==> outcome.Ok?)
      ensures old(password) == old(password2) ==> !auth.isLoading
      ensures old(password) == old(password2) && outcome.Ok? ==>
        && error == "" && auth.user == Some(outcome.value.user)
        && auth.browser.storage == SessionStorage(old(auth.browser.storage), outcome.value)
        && auth.browser.cookies == SessionCookies(old(auth.browser.cookies), outcome.value)
        && auth.browser.href == old(auth.browser.href)
      ensures old(password) == old(password2) && outcome.Err? ==>
        && error == FailureText(outcome.error.message) && auth.user == old(auth.user)
        && auth.browser.storage == StorageAfterError(old(auth.browser.storage), outcome.error)
        && auth.browser.cookies == old(auth.browser.cookies)
        && auth.browser.href == HrefAfterError(old(auth.browser.href), outcome.error)
    {
      error := "";
      if password != password2 {
        error := PasswordMismatch;
        return false, None;
      }
      isLoading := true;
      var r;
      r, sent := auth.Signup(email, password, password2, displayName, outcome);
      if r.Ok? {
        closed := true;
      } else {
        closed := false;
        error := FailureText(r.error.message);
      }
      isLoading := false;
    }
  }
}
