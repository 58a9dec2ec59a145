/** The profile page: redirects when nobody is logged in, fills its form from the
    session's user, saves through an `updateUser` the session never provides, deletes the
    account after confirmation, and logs out. */
module ProfilePage {
  import opened Common
  import Api
  import AuthContext

  datatype ProfileForm = ProfileForm(name: string, mobile: string, linkedin: string)

  /** A banner: its text and whether it reports success or an error. */
  datatype Message = Message(text: string, kind: string)

  /** A field of the user, or "" when the user has none. */
  function FieldOrBlank(user: User, field: string): (value: string)
    ensures field in user ==> value == user[field]
    ensures field !in user ==> value == ""
  {
    if field in user then user[field] else ""
  }

  /** The form filled from a user: `name`, `mobile` and `linkedin` copied, each missing one
      left blank. */
  function FormFromUser(user: User): (form: ProfileForm)
    ensures form.name == FieldOrBlank(user, "name")
    ensures form.mobile == FieldOrBlank(user, "mobile")
    ensures form.linkedin == FieldOrBlank(user, "linkedin")
  {
    ProfileForm(FieldOrBlank(user, "name"), FieldOrBlank(user, "mobile"), FieldOrBlank(user, "linkedin"))
  }

  class Profile {
    const session: AuthContext.AuthProvider
    var editMode: bool
    var formData: ProfileForm
    var saving: bool
    var message: Message

    constructor (session: AuthContext.AuthProvider)
      ensures this.session == session
      ensures formData == if session.user.Some? then FormFromUser(session.user.value) else ProfileForm("", "", "")
      ensures !editMode && !saving && message == Message("", "")
    {
      this.session := session;
      formData := if session.user.Some? then FormFromUser(session.user.value) else ProfileForm("", "", "");
      editMode, saving, message := false, false, Message("", "");
    }

    /** The effect run whenever the user changes: nobody logged in means "/login". */
    method RedirectIfLoggedOut()
      modifies session.browser
      ensures session.browser.location == if session.user.None? then "/login" else old(session.browser.location)
      ensures session.browser.storage == old(session.browser.storage)
    {
      if session.user.None? {
        session.browser.location := "/login";
      }
    }

    /** The effect that refills the form whenever the user changes. */
    method SyncForm()
      modifies this`formData
      ensures formData == if session.user.Some? then FormFromUser(session.user.value) else old(formData)
    {
      if session.user.Some? {
        formData := FormFromUser(session.user.value);
      }
    }

    /** The page renders nothing at all while nobody is logged in. */
    method Render() returns (rendered: bool)
      ensures rendered <==> session.user.Some?
    {
      rendered := session.user.Some?;
    }

    /** The Edit / Cancel button. */
    method ToggleEditMode()
      modifies this`editMode
      ensures editMode == !old(editMode)
    {
      editMode := !editMode;
    }

    /** `handleSave`: sends the form (`sent`). A successful answer is handed to
        `updateUser`, which is not among the names the session provides; calling it throws
        inside the `try`, so the session is never updated and the page reports "Failed to
        update profile", exactly as for a failed request without a server message. */
    method HandleSave(res: Response<AuthContext.AuthPayload>) returns (sent: ProfileForm)
      modifies this`saving, this`message, session.browser
      ensures sent == formData
      ensures !saving && editMode == old(editMode)
      ensures message.kind == "error"
      ensures res.Ok? ==> message.text == "Failed to update profile"
      ensures res.Err? ==> message.text == MessageOr(res, "Failed to update profile")
      ensures session.user == old(session.user) && session.token == old(session.token)
      ensures session.browser.storage == Api.StorageAfter(old(session.browser.storage), res)
      ensures session.browser.location == Api.LocationAfter(old(session.browser.location), res)
    {
      saving := true;
      message := Message("", "");
      sent := formData;
      var r := Api.Intercept(session.browser, res);
      if r.Ok? {
        // The provider's value holds user, token, login, logout and loading but no
        // `updateUser`: the call is a TypeError,
        // which has no `response`, so the catch falls back to its default text.
        message := Message("Failed to update profile", "error");
      } else {
        message := Message(MessageOr(r, "Failed to update profile"), "error");
      }
      saving := false;
    }

    /** `handleDeleteAccount`: nothing happens unless confirmed. A successful delete ends
        the session and goes to "/register"; a failure keeps the session and shows an
        error. */
    method HandleDeleteAccount(confirmed: bool, res: Response<()>)
      modifies this`message, session, session.browser
      ensures !confirmed ==> message == old(message) && session.user == old(session.user)
                             && session.token == old(session.token)
                             && session.browser.storage == old(session.browser.storage)
                             && session.browser.location == old(session.browser.location)
      ensures confirmed && res.Ok? ==> session.user == None && session.token == None
                                       && session.browser.storage == None
                                       && session.browser.location == "/register"
                                       && message == old(message)
      ensures session.loading == old(session.loading)
      ensures confirmed && res.Err? ==> message == Message("Failed to delete account. Try again.", "error")
                                        && session.user == old(session.user) && session.token == old(session.token)
                                        && session.browser.storage == Api.StorageAfter(old(session.browser.storage), res)
                                        && session.browser.location == Api.LocationAfter(old(session.browser.location), res)
    {
      if !confirmed {
        return;
      }
      var r := Api.Intercept(session.browser, res);
      if r.Ok? {
        session.Logout();
        session.browser.location := "/register";
      } else {
        message := Message("Failed to delete account. Try again.", "error");
      }
    }

    /** `handleLogout`: end the session and go to "/login". */
    method HandleLogout()
      modifies session, session.browser
      ensures session.user == None && session.token == None && session.browser.storage == None
      ensures session.browser.location == "/login"
      ensures session.loading == old(session.loading)
    {
      session.Logout();
      session.browser.location := "/login";
    }
  }
}
