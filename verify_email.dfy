/** The e-mail verification page: a six-box code entry with a focus cursor, submission of
    the joined code, and a resend that clears the boxes. */
module VerifyEmailPage {
  import opened Common
  import Otp
  import Api

  /** What the verification request carries. */
  datatype VerifyRequest = VerifyRequest(email: string, otp: string)

  class VerifyEmail {
    const email: Option<string>
    const browser: Browser
    var otp: seq<string>
    /** Index of the box holding keyboard focus. */
    var focus: int
    var loading: bool
    var resending: bool
    var error: string
    var success: string
    /** Target of a navigation scheduled on a timer, if any. */
    var scheduled: Option<string>

    ghost predicate Valid()
      reads this
    {
      Otp.WellFormed(otp)
    }

    constructor (email: Option<string>, browser: Browser)
      ensures Valid() && otp == Otp.Blank
      ensures this.email == email && this.browser == browser
      ensures !loading && !resending && error == "" && success == "" && scheduled == None
    {
      this.email := email;
      this.browser := browser;
      otp := Otp.Blank;
      focus := 0;
      loading, resending := false, false;
      error, success := "", "";
      scheduled := None;
    }

    /** Rendering: without an e-mail address the page navigates to "/register" and
        renders nothing. */
    method Render() returns (rendered: bool)
      modifies browser
      ensures rendered <==> Otp.EmailRedirect(email, "/register").None?
      ensures rendered ==> browser.location == old(browser.location)
      ensures !rendered ==> browser.location == "/register"
      ensures browser.storage == old(browser.storage)
    {
      var redirect := Otp.EmailRedirect(email, "/register");
      if redirect.Some? {
        browser.location := redirect.value;
        return false;
      }
      return true;
    }

    /** `handleOtpChange(index, value)`: a value that is neither empty nor one digit is
        ignored; otherwise only box `index` takes the value, and a non-empty value moves
        focus to the next box unless this is the last one. */
    method HandleOtpChange(index: nat, value: string)
      requires Valid() && index < Otp.Slots
      modifies this`otp, this`focus
      ensures Valid()
      ensures !Otp.Accepts(value) ==> otp == old(otp) && focus == old(focus)
      ensures Otp.Accepts(value) ==> otp == old(otp)[index := value]
      ensures focus == if Otp.Accepts(value) && value != "" && index < 5 then index + 1 else old(focus)
    {
      if !Otp.Accepts(value) {
        return;
      }
      var newOtp := otp[index := value];
      otp := newOtp;
      if value != "" && index < 5 {
        focus := index + 1;
      }
    }

    /** `handleKeyDown(index, e)`: Backspace in an empty box other than the first moves
        focus one box back; any other key, or a non-empty box, leaves focus alone. */
    method HandleKeyDown(index: nat, key: string)
      requires Valid() && index < Otp.Slots
      modifies this`focus
      ensures focus == if key == "Backspace" && otp[index] == "" && index > 0 then index - 1 else old(focus)
    {
      if key == "Backspace" && otp[index] == "" && index > 0 {
        focus := index - 1;
      }
    }

    /** `handleVerify`: submits the e-mail with the joined code (`request`); success shows a
        message and schedules the move to "/login", failure shows the server's message or
        "OTP verification failed". */
    method HandleVerify(res: Response<()>) returns (request: VerifyRequest)
      requires Valid() && Otp.EmailRedirect(email, "/register").None?
      modifies this`loading, this`error, this`success, this`scheduled, browser
      ensures request == VerifyRequest(email.value, Otp.Join(otp))
      ensures |request.otp| <= Otp.Slots
      ensures !loading
      ensures res.Ok? ==> error == "" && success == "Email verified successfully. Redirecting..."
                          && scheduled == Some("/login")
      ensures res.Err? ==> error == MessageOr(res, "OTP verification failed") && success == ""
                           && scheduled == old(scheduled)
      ensures browser.storage == Api.StorageAfter(old(browser.storage), res)
      ensures browser.location == Api.LocationAfter(old(browser.location), res)
    {
      error, success := "", "";
      loading := true;
      request := VerifyRequest(email.value, Otp.Join(otp));
      var r := Api.Intercept(browser, res);
      if r.Ok? {
        success := "Email verified successfully. Redirecting...";
        scheduled := Some("/login");
      } else {
        error := MessageOr(r, "OTP verification failed");
      }
      loading := false;
    }

    /** `handleResend`: on success every box is emptied and focus returns to the first;
        on failure the boxes are kept and the error is the server's message or "Failed to
        resend OTP". */
    method HandleResend(res: Response<()>)
      requires Valid()
      modifies this`otp, this`focus, this`resending, this`error, this`success, browser
      ensures Valid()
      ensures !resending
      ensures res.Ok? ==> otp == Otp.Blank && focus == 0 && error == ""
                          && success == "New OTP sent to your email"
      ensures res.Err? ==> otp == old(otp) && focus == old(focus) && success == ""
                           && error == MessageOr(res, "Failed to resend OTP")
      ensures browser.storage == Api.StorageAfter(old(browser.storage), res)
      ensures browser.location == Api.LocationAfter(old(browser.location), res)
    {
      error, success := "", "";
      resending := true;
      var r := Api.Intercept(browser, res);
      if r.Ok? {
        success := "New OTP sent to your email";
        otp := Otp.Blank;
        focus := 0;
      } else {
        error := MessageOr(r, "Failed to resend OTP");
      }
      resending := false;
    }
  }
}
