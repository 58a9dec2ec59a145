/** A job's detail page: loading the job, looking up whether the logged-in user has
    already applied, and the apply area's decision table (already applied, apply button,
    closed button, form). */
module JobDetailsPage {
  import opened Common
  import Api
  import AuthContext

  /** What the action area shows. */
  datatype ApplyArea =
    | AlreadyApplied
    | ApplyButton(enabled: bool, caption: string)
    | ApplyForm
    | Nothing

  /** The action area as a function of the page state: with the form closed, "Already
      Applied" when the user has applied and the apply button otherwise, disabled and
      reading "Applications Closed" exactly when the job is inactive; with the form open,
      the form unless the user has applied. */
  function Area(showApplyForm: bool, hasApplied: bool, isActive: bool): (area: ApplyArea)
    ensures area.AlreadyApplied? <==> !showApplyForm && hasApplied
    ensures area.ApplyButton? <==> !showApplyForm && !hasApplied
    ensures area.ApplyButton? ==> (area.enabled <==> isActive)
    ensures area.ApplyButton? ==> area.caption == (if isActive then "Apply For Job" else "Applications Closed")
    ensures area.ApplyForm? <==> showApplyForm && !hasApplied
    ensures hasApplied ==> !area.ApplyButton? && !area.ApplyForm?
  {
    if !showApplyForm then
      if hasApplied then AlreadyApplied
      else ApplyButton(isActive, if isActive then "Apply For Job" else "Applications Closed")
    else if !hasApplied then ApplyForm
    else Nothing
  }

  /** The whole page: a loading screen, "Job Not Found", or the job with its action area. */
  datatype Screen = Loading | NotFound | Detail(job: Job, area: ApplyArea)

  function View(loading: bool, job: Option<Job>, showApplyForm: bool, hasApplied: bool): (s: Screen)
    ensures s.Loading? <==> loading
    ensures s.NotFound? <==> !loading && job.None?
    ensures s.Detail? ==> job == Some(s.job) && s.area == Area(showApplyForm, hasApplied, s.job.isActive)
  {
    if loading then Loading
    else if job.None? then NotFound
    else Detail(job.value, Area(showApplyForm, hasApplied, job.value.isActive))
  }

  /** An inactive job never offers an enabled apply action, whatever the application
      state. */
  lemma ClosedJobCannotBeApplied(showApplyForm: bool, hasApplied: bool)
    ensures var area := Area(showApplyForm, hasApplied, false);
            !(area.ApplyButton? && area.enabled)
  {
  }

  class JobDetails {
    const id: string
    const session: AuthContext.AuthProvider
    var job: Option<Job>
    /** The resume link typed into the apply form. */
    var resumeLink: string
    var loading: bool
    var submitting: bool
    var showApplyForm: bool
    var error: string
    var success: string
    var hasApplied: bool
    var application: Option<Application>

    constructor (id: string, session: AuthContext.AuthProvider)
      ensures this.id == id && this.session == session
      ensures job == None && resumeLink == "" && loading && !submitting && !showApplyForm
      ensures error == "" && success == "" && !hasApplied && application == None
    {
      this.id := id;
      this.session := session;
      job, resumeLink, loading, submitting, showApplyForm := None, "", true, false, false;
      error, success, hasApplied, application := "", "", false, None;
    }

    /** `checkApplicationStatus`: an application in the answer marks the job as applied
        to; an empty answer changes nothing; a failed lookup counts as "not applied". */
    method CheckApplicationStatus(lookup: Response<Option<Application>>)
      modifies this`hasApplied, this`application, session.browser
      ensures lookup.Ok? && lookup.data.Some? ==> hasApplied && application == lookup.data
      ensures lookup.Ok? && lookup.data.None? ==> hasApplied == old(hasApplied) && application == old(application)
      ensures lookup.Err? ==> !hasApplied && application == old(application)
      ensures session.browser.storage == Api.StorageAfter(old(session.browser.storage), lookup)
      ensures session.browser.location == Api.LocationAfter(old(session.browser.location), lookup)
    {
      var r := Api.Intercept(session.browser, lookup);
      if r.Ok? {
        if r.data.Some? {
          hasApplied := true;
          application := r.data;
        }
      } else {
        hasApplied := false;
      }
    }

    /** `fetchJobData`: loads the job; only when that succeeds and both a user and a token
        are present is the prior-application lookup issued (`lookedUp`). A failed load
        sets "Failed to load job details". Loading ends either way. */
    method FetchJobData(jobRes: Response<Job>, lookup: Response<Option<Application>>) returns (lookedUp: bool)
      modifies this`job, this`error, this`loading, this`hasApplied, this`application, session.browser
      ensures lookedUp <==> jobRes.Ok? && session.user.Some? && HasToken(session.token)
      ensures job == if jobRes.Ok? then Some(jobRes.data) else old(job)
      ensures error == if jobRes.Ok? then old(error) else "Failed to load job details"
      ensures !lookedUp ==> hasApplied == old(hasApplied) && application == old(application)
      ensures lookedUp && lookup.Ok? && lookup.data.Some? ==> hasApplied && application == lookup.data
      ensures lookedUp && lookup.Ok? && lookup.data.None? ==> hasApplied == old(hasApplied) && application == old(application)
      ensures lookedUp && lookup.Err? ==> !hasApplied && application == old(application)
      ensures !loading
      ensures session.browser.storage ==
                if lookedUp then Api.StorageAfter(old(session.browser.storage), lookup)
                else Api.StorageAfter(old(session.browser.storage), jobRes)
      ensures session.browser.location ==
                if lookedUp then Api.LocationAfter(old(session.browser.location), lookup)
                else Api.LocationAfter(old(session.browser.location), jobRes)
    {
      lookedUp := false;
      var r := Api.Intercept(session.browser, jobRes);
      if r.Ok? {
        job := Some(r.data);
        if session.user.Some? && HasToken(session.token) {
          lookedUp := true;
          CheckApplicationStatus(lookup);
        }
      } else {
        error := "Failed to load job details";
      }
      loading := false;
    }

    /** `handleApplyClick`: with nobody logged in, go to "/login" and leave the form shut;
        otherwise open the form. */
    method HandleApplyClick()
      modifies this`showApplyForm, session.browser
      ensures session.user.None? ==> session.browser.location == "/login" && showApplyForm == old(showApplyForm)
      ensures session.user.Some? ==> showApplyForm && session.browser.location == old(session.browser.location)
      ensures session.browser.storage == old(session.browser.storage)
    {
      if session.user.None? {
        session.browser.location := "/login";
        return;
      }
      showApplyForm := true;
    }

    /** The form's Cancel button. */
    method CancelForm()
      modifies this`showApplyForm
      ensures !showApplyForm
    {
      showApplyForm := false;
    }

    /** The resume link input. */
    method SetResumeLink(link: string)
      modifies this`resumeLink
      ensures resumeLink == link
    {
      resumeLink := link;
    }

    /** `handleApply`: sends the resume link (`sent`). A successful submission marks the
        job as applied to and closes the form; a failure keeps both and shows the server's
        message or "Something went wrong". Submitting ends either way. */
    method HandleApply(res: Response<()>) returns (sent: string)
      modifies this`error, this`success, this`submitting, this`hasApplied, this`showApplyForm, session.browser
      ensures sent == resumeLink
      ensures !submitting
      ensures res.Ok? ==> success == "Application submitted successfully" && error == ""
                          && hasApplied && !showApplyForm
      ensures res.Err? ==> error == MessageOr(res, "Something went wrong") && success == ""
                           && hasApplied == old(hasApplied) && showApplyForm == old(showApplyForm)
      ensures session.browser.storage == Api.StorageAfter(old(session.browser.storage), res)
      ensures session.browser.location == Api.LocationAfter(old(session.browser.location), res)
    {
      error, success := "", "";
      submitting := true;
      sent := resumeLink;
      var r := Api.Intercept(session.browser, res);
      if r.Ok? {
        success := "Application submitted successfully";
        hasApplied := true;
        showApplyForm := false;
      } else {
        error := MessageOr(r, "Something went wrong");
      }
      submitting := false;
    }
  }
}
