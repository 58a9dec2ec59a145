/** The registration page: redirects a logged-in visitor home, keeps the form one field
    per input id, and on success logs the new account in. */
module RegisterPage {
  import opened Common
  import Api
  import AuthContext

  /** The form as first shown. */
  const BlankForm: map<string, string> := map["name" := "", "email" := "", "password" := ""]

  class Register {
    const session: AuthContext.AuthProvider
    var formData: map<string, string>
    var error: string
    var loading: bool

    constructor (session: AuthContext.AuthProvider)
      ensures this.session == session
      ensures formData == BlankForm && error == "" && !loading
    {
      this.session := session;
      formData, error, loading := BlankForm, "", false;
    }

    /** The effect run whenever the user changes: someone logged in is sent to "/". */
    method RedirectIfLoggedIn()
      modifies session.browser
      ensures session.browser.location == if session.user.Some? then "/" else old(session.browser.location)
      ensures session.browser.storage == old(session.browser.storage)
    {
      if session.user.Some? {
        session.browser.location := "/";
      }
    }

    /** `handleChange`: the field named by the input's id takes the typed value; every
        other field keeps its value. */
    method HandleChange(id: string, value: string)
      modifies this`formData
      ensures id in formData && formData[id] == value
      ensures forall k :: k != id ==> (k in formData <==> k in old(formData))
      ensures forall k :: k in old(formData) && k != id ==> formData[k] == old(formData)[k]
    {
      formData := formData[id := value];
    }

    /** `handleSubmit`: sends the form (`sent`); success logs the response in and goes to
        "/"; failure leaves the session alone and shows the server's message or
        "Registration failed. Try again.". Loading ends either way. */
    method HandleSubmit(res: Response<AuthContext.AuthPayload>) returns (sent: map<string, string>)
      modifies this`error, this`loading, session, session.browser
      ensures sent == formData && formData == old(formData)
      ensures !loading
      ensures res.Ok? ==> error == ""
                          && session.user == Some(AuthContext.MergeUser(old(session.user), res.data.user))
                          && session.token == res.data.token
                          && session.browser.storage == Some(Stored.Record(session.user.value, res.data.token))
                          && session.browser.location == "/"
      ensures res.Err? ==> error == MessageOr(res, "Registration failed. Try again.")
                           && session.user == old(session.user) && session.token == old(session.token)
                           && session.browser.storage == Api.StorageAfter(old(session.browser.storage), res)
                           && session.browser.location == Api.LocationAfter(old(session.browser.location), res)
      ensures session.loading == old(session.loading)
    {
      error := "";
      loading := true;
      sent := formData;
      var r := Api.Intercept(session.browser, res);
      if r.Ok? {
        session.Login(r.data);
        session.browser.location := "/";
      } else {
        error := MessageOr(r, "Registration failed. Try again.");
      }
      loading := false;
    }
  }
}
