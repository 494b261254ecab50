/**
 * The log-in dialog (components/login-modal.tsx): its submit handler calls
 * the session's `login` and turns the outcome into the dialog's error text,
 * loading flag and close request.
 */
module LoginModal {

  import opened Wrappers
  import opened Web
  import opened ApiClient
  import opened AuthService
  import opened Session

  const InvalidCredentials := "Invalid email or password"

  class LoginDialog {
    var email: string
    var password: string
    var error: string
    var isLoading: bool
    const auth: AuthProvider

    constructor (auth: AuthProvider)
      ensures this.auth == auth
      ensures email == "" && password == "" && error == "" && !isLoading
    {
      this.auth := auth;
      email, password := "", "";
      error, isLoading := "", false;
    }

    /**
     * `handleSubmit`: the error is cleared and loading set before `login` is
     * called. Success asks the dialog to close and leaves no error; any
     * failure shows the fixed text, whatever the server said. Loading ends
     * false either way.
     */
    method HandleSubmit(outcome: Result<AuthResponse, Error>) returns (closed: bool)
      modifies this, auth, auth.browser
      ensures email == old(email) && password == old(password)
      ensures !isLoading
      ensures closed <==> outcome.Ok?
      ensures !auth.isLoading
      ensures outcome.Ok? ==> error == "" && auth.user == Some(outcome.value.user)
      ensures outcome.Ok? ==> auth.browser.storage == SessionStorage(old(auth.browser.storage), outcome.value)
      ensures outcome.Ok? ==> auth.browser.cookies == SessionCookies(old(auth.browser.cookies), outcome.value)
      ensures outcome.Ok? ==> auth.browser.href == old(auth.browser.href)
      ensures outcome.Err? ==> error == InvalidCredentials && auth.user == old(auth.user)
      ensures outcome.Err? ==> auth.browser.storage == StorageAfterError(old(auth.browser.storage), outcome.error)
      ensures outcome.Err? ==> auth.browser.cookies == old(auth.browser.cookies)
      ensures outcome.Err? ==> auth.browser.href == HrefAfterError(old(auth.browser.href), outcome.error)
    {
      error := "";
      isLoading := true;
      var r := auth.Login(email, password, outcome);
      if r.Ok? {
        closed := true;
      } else {
        closed := false;
        error := InvalidCredentials;
      }
      isLoading := false;
    }
  }
}
