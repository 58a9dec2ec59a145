/** Sequences of session operations, as the pages and the client wrapper drive them, with
    what holds after each sequence. */
module Scenarios {
  import opened Common
  import Api
  import AuthContext
  import LoginPage

  /** Whatever the session held, logging in and then out leaves no record, no user and no
      token. */
  method LoginThenLogout(s: AuthContext.AuthProvider, data: AuthContext.AuthPayload)
    modifies s, s.browser
    ensures s.browser.storage == None && s.user == None && s.token == None
  {
    s.Login(data);
    s.Logout();
  }

  /** A start-up without a record: no user, no token, and loading over. */
  method StartWithoutRecord(b: Browser) returns (s: AuthContext.AuthProvider)
    requires b.storage == None
    ensures fresh(s) && s.browser == b && s.user == None && s.token == None && !s.loading
  {
    s := new AuthContext.AuthProvider(b);
    var threw := s.Init();
  }

  /** A start-up after a login in an earlier visit restores the same user and token from
      the record, with no call to the server. */
  method RestoreAfterLogin(b: Browser, data: AuthContext.AuthPayload)
    returns (earlier: AuthContext.AuthProvider, later: AuthContext.AuthProvider)
    modifies b
    ensures earlier.browser == b && later.browser == b
    ensures later.user == earlier.user && later.token == earlier.token && !later.loading
    ensures later.Mirrored()
  {
    earlier := new AuthContext.AuthProvider(b);
    earlier.Login(data);
    later := new AuthContext.AuthProvider(b);
    var threw := later.Init();
  }

  /** A 401 removes the record and moves to "/login" but leaves the in-memory user and
      token as they were: after a login, the session no longer mirrors storage. */
  method UnauthorizedAfterLogin(s: AuthContext.AuthProvider, data: AuthContext.AuthPayload, err: Response<()>)
    requires Api.Unauthorized(err)
    modifies s, s.browser
    ensures s.user.Some? && s.user == Some(AuthContext.MergeUser(old(s.user), data.user))
    ensures s.token == data.token
    ensures s.browser.storage == None && s.browser.location == "/login"
    ensures !s.Mirrored()
  {
    s.Login(data);
    var passed := Api.Intercept(s.browser, err);
  }

  /** The hard navigation to "/login" that follows a 401 reloads the application: the
      provider mounted afterwards finds no record and starts with nobody logged in. */
  method UnauthorizedThenReload(s: AuthContext.AuthProvider, err: Response<()>)
    returns (reloaded: AuthContext.AuthProvider)
    requires Api.Unauthorized(err)
    modifies s.browser
    ensures reloaded.browser == s.browser && s.browser.location == "/login"
    ensures reloaded.user == None && reloaded.token == None && !reloaded.loading
  {
    var passed := Api.Intercept(s.browser, err);
    reloaded := StartWithoutRecord(s.browser);
  }

  /** A first login through the login page on a fresh application: the session holds
      exactly the user and token the server returned, storage holds the same, and the page
      has moved to "/". */
  method FirstLogin(b: Browser, payload: AuthContext.AuthPayload)
    returns (s: AuthContext.AuthProvider, page: LoginPage.Login)
    requires b.storage == None
    modifies b
    ensures s.browser == b && page.session == s
    ensures s.user == Some(payload.user) && s.token == payload.token
    ensures b.storage == Some(Record(payload.user, payload.token))
    ensures b.location == "/" && page.error == ""
  {
    s := StartWithoutRecord(b);
    page := new LoginPage.Login(s);
    page.HandleSubmit(Ok(payload));
    AuthContext.MergeFromNothing(payload.user);
  }
}
