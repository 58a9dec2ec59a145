/** The password reset page: the same six-box code entry (without the Backspace rule), and
    a submission carrying the e-mail, the joined code and the new password. */
module ResetPasswordPage {
  import opened Common
  import Otp
  import Api

  /** What the reset request carries. */
  datatype ResetRequest = ResetRequest(email: string, otp: string, password: string)

  class ResetPassword {
    const email: Option<string>
    const browser: Browser
    var otp: seq<string>
    var focus: int
    var password: string
    var loading: bool
    var error: string
    var success: string
    var scheduled: Option<string>

    ghost predicate Valid()
      reads this
    {
      Otp.WellFormed(otp)
    }

    constructor (email: Option<string>, browser: Browser)
      ensures Valid() && otp == Otp.Blank
      ensures this.email == email && this.browser == browser
      ensures password == "" && !loading && error == "" && success == "" && scheduled == None
    {
      this.email := email;
      this.browser := browser;
      otp := Otp.Blank;
      focus := 0;
      password := "";
      loading := false;
      error, success := "", "";
      scheduled := None;
    }

    /** Rendering: without an e-mail address the page navigates to "/forgot-password" and
        renders nothing. */
    method Render() returns (rendered: bool)
      modifies browser
      ensures rendered <==> Otp.EmailRedirect(email, "/forgot-password").None?
      ensures rendered ==> browser.location == old(browser.location)
      ensures !rendered ==> browser.location == "/forgot-password"
      ensures browser.storage == old(browser.storage)
    {
      var redirect := Otp.EmailRedirect(email, "/forgot-password");
      if redirect.Some? {
        browser.location := redirect.value;
        return false;
      }
      return true;
    }

    /** `handleOtpChange(value, index)`: a value that is not empty and not one character
        0-9 is ignored; otherwise only box `index` changes, and a non-empty value moves
        focus to box `otp-(index+1)` unless this is the last box. */
    method HandleOtpChange(value: string, index: nat)
      requires Valid() && index < Otp.Slots
      modifies this`otp, this`focus
      ensures Valid()
      ensures !Otp.Accepts(value) ==> otp == old(otp) && focus == old(focus)
      ensures Otp.Accepts(value) ==> otp == old(otp)[index := value]
      ensures focus == if Otp.Accepts(value) && value != "" && index < 5 then index + 1 else old(focus)
    {
      if !Otp.Accepts(value) {
        return;
      }
      var updated := otp[index := value];
      otp := updated;
      if value != "" && index < 5 {
        focus := index + 1;
      }
    }

    /** `handleSubmit`: clears the error (not an earlier success), sends `request`;
        success sets the message and schedules the move to "/login", failure shows the
        server's message or "Reset failed". */
    method HandleSubmit(res: Response<()>) returns (request: ResetRequest)
      requires Valid() && Otp.EmailRedirect(email, "/forgot-password").None?
      modifies this`loading, this`error, this`success, this`scheduled, browser
      ensures request == ResetRequest(email.value, Otp.Join(otp), password)
      ensures !loading
      ensures res.Ok? ==> error == "" && success == "Password changed successfully"
                          && scheduled == Some("/login")
      ensures res.Err? ==> error == MessageOr(res, "Reset failed") && success == old(success)
                           && scheduled == old(scheduled)
      ensures browser.storage == Api.StorageAfter(old(browser.storage), res)
      ensures browser.location == Api.LocationAfter(old(browser.location), res)
    {
      error := "";
      loading := true;
      request := ResetRequest(email.value, Otp.Join(otp), password);
      var r := Api.Intercept(browser, res);
      if r.Ok? {
        success := "Password changed successfully";
        scheduled := Some("/login");
      } else {
        error := MessageOr(r, "Reset failed");
      }
      loading := false;
    }
  }
}
