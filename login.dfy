/** The login page: submits e-mail and password; success hands the response to the
    session store and goes home, failure shows a message and keeps what was typed. */
module LoginPage {
  import opened Common
  import Api
  import AuthContext

  class Login {
    const session: AuthContext.AuthProvider
    var email: string
    var password: string
    var error: string
    var loading: bool

    constructor (session: AuthContext.AuthProvider)
      ensures this.session == session
      ensures email == "" && password == "" && error == "" && !loading
    {
      this.session := session;
      email, password, error, loading := "", "", "", false;
    }

    /** `handleSubmit`: clears the error, then on success calls the session's `login`
        with the response and navigates to "/"; on failure leaves the session alone and
        shows the server's message or "Login failed. Please try again.". The inputs are
        never cleared; loading ends either way. */
    method HandleSubmit(res: Response<AuthContext.AuthPayload>)
      modifies this`error, this`loading, session, session.browser
      ensures email == old(email) && password == old(password)
      ensures !loading
      ensures res.Ok? ==> error == ""
                          && session.user == Some(AuthContext.MergeUser(old(session.user), res.data.user))
                          && session.token == res.data.token
                          && session.browser.storage == Some(Stored.Record(session.user.value, res.data.token))
                          && session.browser.location == "/"
      ensures res.Err? ==> error == MessageOr(res, "Login failed. Please try again.")
                           && session.user == old(session.user) && session.token == old(session.token)
                           && session.browser.storage == Api.StorageAfter(old(session.browser.storage), res)
                           && session.browser.location == Api.LocationAfter(old(session.browser.location), res)
      ensures session.loading == old(session.loading)
    {
      error := "";
      loading := true;
      var r := Api.Intercept(session.browser, res);
      if r.Ok? {
        session.Login(r.data);
        session.browser.location := "/";
      } else {
        error := MessageOr(r, "Login failed. Please try again.");
      }
      loading := false;
    }
  }
}
