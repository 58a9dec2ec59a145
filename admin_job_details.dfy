/** One job in the admin console: the applications that belong to it, opening and closing
    applications, editing, deleting, and setting an application's status. */
module AdminJobDetailsPage {
  import opened Common
  import Lists
  import Api
  import AuthContext
  import AdminDashboardPage

  /** `a.jobId && (a.jobId._id === id || a.jobId === id)`: the application refers to job
      `id`, by a populated job object or by the raw id (an empty raw id is falsy). */
  predicate BelongsTo(a: Application, id: string)
    ensures a.job.NoJob? ==> !BelongsTo(a, id)
    ensures AdminDashboardPage.CountedFor(a, id) ==> BelongsTo(a, id)
    ensures a.job.RawId? ==> (BelongsTo(a, id) <==> id != "" && a.job.rawId == id)
  {
    match a.job
    case NoJob => false
    case Populated(j) => j == id
    case RawId(r) => r != "" && r == id
  }

  /** The applications the page keeps from the admin-wide list. */
  function ForJob(apps: seq<Application>, id: string): (kept: seq<Application>)
    ensures |kept| <= |apps|
    ensures forall i :: 0 <= i < |kept| ==> BelongsTo(kept[i], id)
  {
    Lists.Filter(apps, (a: Application) => BelongsTo(a, id))
  }

  /** The page keeps exactly the applications that belong to the job, in their order. */
  lemma ForJobExact(apps: seq<Application>, id: string)
    ensures forall a :: a in ForJob(apps, id) <==> a in apps && BelongsTo(a, id)
    ensures forall i :: 0 <= i < |apps| ==> ForJob(apps, id) == ForJob(apps[..i], id) + ForJob(apps[i..], id)
  {
    forall a
      ensures a in ForJob(apps, id) <==> a in apps && BelongsTo(a, id)
    {
      Lists.FilterMember(apps, (x: Application) => BelongsTo(x, id), a);
    }
    forall i | 0 <= i < |apps|
      ensures ForJob(apps, id) == ForJob(apps[..i], id) + ForJob(apps[i..], id)
    {
      assert apps == apps[..i] + apps[i..];
      Lists.FilterAppend(apps[..i], apps[i..], (x: Application) => BelongsTo(x, id));
    }
  }

  /** The dashboard card of a job never shows more applications than the job's own page
      lists: the card counts populated references only, the page raw ids as well. */
  lemma {:induction false} CardCountWithinPage(apps: seq<Application>, id: string)
    ensures AdminDashboardPage.ApplicationCount(apps, id) <= |ForJob(apps, id)|
  {
    Lists.FilterMonotone(apps,
      (a: Application) => AdminDashboardPage.CountedFor(a, id),
      (a: Application) => BelongsTo(a, id));
  }

  /** The grey badge every status but the three decisions gets. */
  const DefaultBadge := "bg-gray-100 text-gray-700 font-bold border border-gray-200"

  /** The class of an application's status badge. */
  function Badge(status: string): (style: string)
    ensures style == DefaultBadge <==> status !in {"Selected", "Rejected", "Shortlisted"}
  {
    if status == "Selected" then "bg-emerald-100 text-emerald-700 font-bold border border-emerald-200"
    else if status == "Rejected" then "bg-red-100 text-red-700 font-bold border border-red-200"
    else if status == "Shortlisted" then "bg-blue-100 text-blue-700 font-bold border border-blue-200"
    else DefaultBadge
  }

  /** Selected, Rejected and Shortlisted each get a badge of their own; every other
      status shares the grey one. */
  lemma BadgesDistinct(s: string, t: string)
    ensures Badge(s) == Badge(t) <==>
              s == t || (s !in {"Selected", "Rejected", "Shortlisted"} && t !in {"Selected", "Rejected", "Shortlisted"})
  {
  }

  /** The confirmation shown after the open/close request succeeds. */
  function ToggleMessage(state: bool): (message: string)
    ensures state <==> message == "Applications Reopened"
    ensures !state <==> message == "Applications Closed"
  {
    if state then "Applications Reopened" else "Applications Closed"
  }

  /** The request body of a status change. */
  datatype StatusRequest = StatusRequest(applicationId: string, status: string)

  class AdminJobDetails {
    const id: string
    const session: AuthContext.AuthProvider
    var job: Option<Job>
    var applications: seq<Application>
    var loading: bool
    var editMode: bool
    /** The job as being edited; set together with `job` by every fetch. */
    var editData: Option<Job>
    var saving: bool
    var message: string
    /** The contents of the two rich-text editors. */
    var descriptionEditor: string
    var requirementsEditor: string

    constructor (id: string, session: AuthContext.AuthProvider)
      ensures this.id == id && this.session == session
      ensures job == None && applications == [] && loading && !editMode
      ensures editData == None && !saving && message == ""
    {
      this.id := id;
      this.session := session;
      job, applications, loading, editMode := None, [], true, false;
      editData, saving, message := None, false, "";
      descriptionEditor, requirementsEditor := "", "";
    }

    /** `fetchJob`: a fetched job replaces both the shown job and the edit copy. */
    method FetchJob(res: Response<Job>)
      modifies this`job, this`editData, session.browser
      ensures job == if res.Ok? then Some(res.data) else old(job)
      ensures editData == if res.Ok? then Some(res.data) else old(editData)
      ensures session.browser.storage == Api.StorageAfter(old(session.browser.storage), res)
      ensures session.browser.location == Api.LocationAfter(old(session.browser.location), res)
    {
      var r := Api.Intercept(session.browser, res);
      if r.Ok? {
        job := Some(r.data);
        editData := Some(r.data);
      }
    }

    /** `fetchApplications`: of the admin-wide list, keep those that belong to this job. */
    method FetchApplications(res: Response<seq<Application>>)
      modifies this`applications, session.browser
      ensures applications == if res.Ok? then ForJob(res.data, id) else old(applications)
      ensures session.browser.storage == Api.StorageAfter(old(session.browser.storage), res)
      ensures session.browser.location == Api.LocationAfter(old(session.browser.location), res)
    {
      var r := Api.Intercept(session.browser, res);
      if r.Ok? {
        applications := ForJob(r.data, id);
      }
    }

    /** `fetchAll`: both fetches, then loading ends whatever happened. */
    method FetchAll(jobRes: Response<Job>, appsRes: Response<seq<Application>>)
      modifies this`job, this`editData, this`applications, this`loading, session.browser
      ensures job == if jobRes.Ok? then Some(jobRes.data) else old(job)
      ensures editData == if jobRes.Ok? then Some(jobRes.data) else old(editData)
      ensures applications == if appsRes.Ok? then ForJob(appsRes.data, id) else old(applications)
      ensures !loading
      ensures session.browser.storage ==
                Api.StorageAfter(Api.StorageAfter(old(session.browser.storage), jobRes), appsRes)
      ensures session.browser.location ==
                Api.LocationAfter(Api.LocationAfter(old(session.browser.location), jobRes), appsRes)
    {
      FetchJob(jobRes);
      FetchApplications(appsRes);
      loading := false;
    }

    /** The Edit Job button: enter edit mode with the editors holding the job's
        description and requirements. */
    method StartEditing()
      requires job.Some?
      modifies this`editMode, this`descriptionEditor, this`requirementsEditor
      ensures editMode
      ensures descriptionEditor == job.value.description && requirementsEditor == job.value.requirements
    {
      editMode := true;
      descriptionEditor := job.value.description;
      requirementsEditor := job.value.requirements;
    }

    /** The Cancel button of the edit form: leave edit mode, keeping the edit copy. */
    method CancelEditing()
      modifies this`editMode
      ensures !editMode
    {
      editMode := false;
    }

    /** `toggleApplications(state)`: asks for `isActive == state` (`requested`). Success
        shows "Applications Reopened" or "Applications Closed" and fetches the job again;
        failure shows "Action failed". */
    method ToggleApplications(state: bool, res: Response<()>, refetch: Response<Job>)
      returns (requested: bool)
      modifies this`message, this`job, this`editData, session.browser
      ensures requested == state
      ensures res.Ok? ==> message == ToggleMessage(state)
                          && job == (if refetch.Ok? then Some(refetch.data) else old(job))
                          && editData == (if refetch.Ok? then Some(refetch.data) else old(editData))
      ensures res.Err? ==> message == "Action failed" && job == old(job) && editData == old(editData)
      ensures session.browser.storage ==
                if res.Ok? then Api.StorageAfter(old(session.browser.storage), refetch)
                else Api.StorageAfter(old(session.browser.storage), res)
      ensures session.browser.location ==
                if res.Ok? then Api.LocationAfter(old(session.browser.location), refetch)
                else Api.LocationAfter(old(session.browser.location), res)
    {
      requested := state;
      var r := Api.Intercept(session.browser, res);
      if r.Ok? {
        message := ToggleMessage(state);
        FetchJob(refetch);
      } else {
        message := "Action failed";
      }
    }

    /** The Stop Applications / Reopen button: always asks for the opposite of the job's
        current state. */
    method ToggleControl(res: Response<()>, refetch: Response<Job>) returns (requested: bool)
      requires job.Some?
      modifies this`message, this`job, this`editData, session.browser
      ensures requested == !old(job).value.isActive
      ensures res.Ok? ==> message == (if old(job).value.isActive then "Applications Closed" else "Applications Reopened")
                          && job == (if refetch.Ok? then Some(refetch.data) else old(job))
                          && editData == (if refetch.Ok? then Some(refetch.data) else old(editData))
      ensures res.Err? ==> message == "Action failed" && job == old(job) && editData == old(editData)
      ensures session.browser.storage ==
                if res.Ok? then Api.StorageAfter(old(session.browser.storage), refetch)
                else Api.StorageAfter(old(session.browser.storage), res)
      ensures session.browser.location ==
                if res.Ok? then Api.LocationAfter(old(session.browser.location), refetch)
                else Api.LocationAfter(old(session.browser.location), res)
    {
      requested := ToggleApplications(!job.value.isActive, res, refetch);
    }

    /** `saveJobChanges`: sends the edit copy with `description` and `requirements` taken
        from the editors (`payload`). Success leaves edit mode, fetches the job again and
        shows "Update successful"; failure shows "Save failed" and stays in edit mode.
        Saving ends either way. */
    method SaveJobChanges(res: Response<()>, refetch: Response<Job>) returns (payload: Job)
      requires editData.Some?
      modifies this`saving, this`editMode, this`message, this`job, this`editData, session.browser
      ensures payload == old(editData).value.(description := descriptionEditor,
                                              requirements := requirementsEditor)
      ensures !saving
      ensures res.Ok? ==> !editMode && message == "Update successful"
                          && job == (if refetch.Ok? then Some(refetch.data) else old(job))
                          && editData == (if refetch.Ok? then Some(refetch.data) else old(editData))
      ensures res.Err? ==> editMode == old(editMode) && message == "Save failed" && job == old(job)
                           && editData == old(editData)
      ensures session.browser.storage ==
                if res.Ok? then Api.StorageAfter(old(session.browser.storage), refetch)
                else Api.StorageAfter(old(session.browser.storage), res)
      ensures session.browser.location ==
                if res.Ok? then Api.LocationAfter(old(session.browser.location), refetch)
                else Api.LocationAfter(old(session.browser.location), res)
    {
      saving := true;
      payload := editData.value.(description := descriptionEditor, requirements := requirementsEditor);
      var r := Api.Intercept(session.browser, res);
      if r.Ok? {
        editMode := false;
        FetchJob(refetch);
        message := "Update successful";
      } else {
        message := "Save failed";
      }
      saving := false;
    }

    /** `deleteJob`: nothing happens unless the administrator confirms. A successful
        delete goes to "/admin/dashboard"; a failed one shows "Delete failed". */
    method DeleteJob(confirmed: bool, res: Response<()>)
      modifies this`message, session.browser
      ensures !confirmed ==> message == old(message)
                             && session.browser.location == old(session.browser.location)
                             && session.browser.storage == old(session.browser.storage)
      ensures confirmed && res.Ok? ==> session.browser.location == "/admin/dashboard" && message == old(message)
      ensures confirmed && res.Err? ==> message == "Delete failed"
                                        && session.browser.location == Api.LocationAfter(old(session.browser.location), res)
      ensures confirmed ==> session.browser.storage == Api.StorageAfter(old(session.browser.storage), res)
    {
      if !confirmed {
        return;
      }
      var r := Api.Intercept(session.browser, res);
      if r.Ok? {
        session.browser.location := "/admin/dashboard";
      } else {
        message := "Delete failed";
      }
    }

    /** `updateStatus(appId, status)`: sends `{status}` for that application; when the
        request succeeds the job's applications are fetched again. A failure is not
        caught, so nothing else happens. */
    method UpdateStatus(appId: string, status: string, res: Response<()>, refetch: Response<seq<Application>>)
      returns (request: StatusRequest)
      modifies this`applications, session.browser
      ensures request == StatusRequest(appId, status)
      ensures res.Ok? ==> applications == (if refetch.Ok? then ForJob(refetch.data, id) else old(applications))
      ensures res.Err? ==> applications == old(applications)
      ensures session.browser.storage ==
                if res.Ok? then Api.StorageAfter(old(session.browser.storage), refetch)
                else Api.StorageAfter(old(session.browser.storage), res)
      ensures session.browser.location ==
                if res.Ok? then Api.LocationAfter(old(session.browser.location), refetch)
                else Api.LocationAfter(old(session.browser.location), res)
    {
      request := StatusRequest(appId, status);
      var r := Api.Intercept(session.browser, res);
      if r.Ok? {
        FetchApplications(refetch);
      }
    }
  }
}
