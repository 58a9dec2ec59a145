/** The admin console's dashboard: statistics over all jobs and applications, the
    per-job application count on each job card, and the "add job" modal. */
module AdminDashboardPage {
  import opened Common
  import Lists
  import Api
  import AuthContext

  /** The add-job form. `description` and `requirements` stay empty here: the rich-text
      editors hold that text. */
  datatype JobForm = JobForm(title: string, company: string, description: string,
                             location: string, jobType: string, requirements: string)

  /** The form as first shown and as reset after a successful creation. */
  const EmptyForm: JobForm := JobForm("", "", "", "", "Full-time", "")

  /** The statistics row: job total, application total, Selected and Rejected counts. */
  function Stats(jobs: seq<Job>, apps: seq<Application>): (row: seq<Stat>)
    ensures |row| == 4
    ensures row[0] == Stat("Total Jobs", |jobs|) && row[1] == Stat("Total Applications", |apps|)
    ensures row[2].name == "Selected" && row[3].name == "Rejected"
    ensures row[2].value == |Lists.Filter(apps, (a: Application) => a.status == "Selected")|
    ensures row[3].value == |Lists.Filter(apps, (a: Application) => a.status == "Rejected")|
    ensures row[2].value + row[3].value <= row[1].value
  {
    var selected := Lists.Filter(apps, (a: Application) => a.status == "Selected");
    var rejected := Lists.Filter(apps, (a: Application) => a.status == "Rejected");
    Lists.FilterDisjointCounts(apps,
      (a: Application) => a.status == "Selected",
      (a: Application) => a.status == "Rejected");
    [ Stat("Total Jobs", |jobs|), Stat("Total Applications", |apps|),
      Stat("Selected", |selected|), Stat("Rejected", |rejected|) ]
  }

  /** `a.jobId && a.jobId._id === job._id`: only a populated job reference with that id
      counts; a raw id string has no `_id` and never does. */
  predicate CountedFor(a: Application, jobId: string)
    ensures a.job.NoJob? || a.job.RawId? ==> !CountedFor(a, jobId)
    ensures a.job == Populated(jobId) ==> CountedFor(a, jobId)
  {
    a.job.Populated? && a.job.jobId == jobId
  }

  /** The "N applications" figure on a job's card. */
  function ApplicationCount(apps: seq<Application>, jobId: string): (n: nat)
    ensures n <= |apps|
  {
    |Lists.Filter(apps, (a: Application) => CountedFor(a, jobId))|
  }

  /** Appending an application adds one to a card's count exactly when it is counted for
      that card: one whose job was deleted, or that carries only the raw id, adds nothing. */
  lemma {:induction false} CountAddsMatching(apps: seq<Application>, a: Application, jobId: string)
    ensures ApplicationCount(apps + [a], jobId) == ApplicationCount(apps, jobId) + (if CountedFor(a, jobId) then 1 else 0)
  {
    Lists.FilterAppend(apps, [a], (x: Application) => CountedFor(x, jobId));
  }

  class AdminDashboard {
    const session: AuthContext.AuthProvider
    var jobs: seq<Job>
    var applications: seq<Application>
    var loading: bool
    var showModal: bool
    var formData: JobForm
    var submitting: bool
    var error: string
    /** The contents of the two rich-text editors. */
    var descriptionEditor: string
    var requirementsEditor: string

    constructor (session: AuthContext.AuthProvider)
      ensures this.session == session
      ensures jobs == [] && applications == [] && loading && !showModal
      ensures formData == EmptyForm && !submitting && error == ""
      ensures descriptionEditor == "" && requirementsEditor == ""
    {
      this.session := session;
      jobs, applications, loading, showModal := [], [], true, false;
      formData, submitting, error := EmptyForm, false, "";
      descriptionEditor, requirementsEditor := "", "";
    }

    /** `fetchData`: the job and application fetches run side by side; each one that
        succeeds stores its list, a failed one leaves its list alone, and loading ends
        whatever happened. */
    method FetchData(jobsRes: Response<seq<Job>>, appsRes: Response<seq<Application>>)
      modifies this`jobs, this`applications, this`loading, session.browser
      ensures jobs == if jobsRes.Ok? then jobsRes.data else old(jobs)
      ensures applications == if appsRes.Ok? then appsRes.data else old(applications)
      ensures !loading
      ensures session.browser.storage ==
                Api.StorageAfter(Api.StorageAfter(old(session.browser.storage), jobsRes), appsRes)
      ensures session.browser.location ==
                Api.LocationAfter(Api.LocationAfter(old(session.browser.location), jobsRes), appsRes)
    {
      var jr := Api.Intercept(session.browser, jobsRes);
      if jr.Ok? {
        jobs := jr.data;
      }
      var ar := Api.Intercept(session.browser, appsRes);
      if ar.Ok? {
        applications := ar.data;
      }
      loading := false;
    }

    /** The "+ ADD JOB" button. */
    method OpenModal()
      modifies this`showModal
      ensures showModal
    {
      showModal := true;
    }

    /** The modal's close and cancel buttons. The two editors live inside the modal, so
        closing it unmounts them and their text is lost; the controlled form survives. */
    method CloseModal()
      modifies this`showModal, this`descriptionEditor, this`requirementsEditor
      ensures !showModal
      ensures descriptionEditor == "" && requirementsEditor == ""
    {
      showModal := false;
      descriptionEditor, requirementsEditor := "", "";
    }

    /** `handleAddJob`: sends the form with `description` and `requirements` taken from
        the editors (`payload`). On success the form and the editors are reset, the modal
        closes and the job list is fetched again (`refetched`) -- and a failure of that
        refetch is reported like a failed creation. On a failed creation the form and the
        modal stay and the error is the server's message or "Failed to create job".
        Submitting ends either way. */
    method HandleAddJob(create: Response<()>, refetch: Response<seq<Job>>)
      returns (payload: JobForm, refetched: bool)
      modifies this`error, this`submitting, this`formData, this`descriptionEditor,
               this`requirementsEditor, this`showModal, this`jobs, session.browser
      ensures payload == old(formData).(description := old(descriptionEditor),
                                        requirements := old(requirementsEditor))
      ensures refetched <==> create.Ok?
      ensures !submitting
      ensures create.Ok? ==> formData == EmptyForm && descriptionEditor == ""
                             && requirementsEditor == "" && !showModal
      ensures create.Ok? ==> jobs == (if refetch.Ok? then refetch.data else old(jobs))
      ensures create.Ok? ==> error == (if refetch.Ok? then "" else MessageOr(refetch, "Failed to create job"))
      ensures create.Err? ==> formData == old(formData) && showModal == old(showModal)
                              && descriptionEditor == old(descriptionEditor)
                              && requirementsEditor == old(requirementsEditor)
                              && jobs == old(jobs) && error == MessageOr(create, "Failed to create job")
      ensures session.browser.storage ==
                if create.Ok? then Api.StorageAfter(old(session.browser.storage), refetch)
                else Api.StorageAfter(old(session.browser.storage), create)
      ensures session.browser.location ==
                if create.Ok? then Api.LocationAfter(old(session.browser.location), refetch)
                else Api.LocationAfter(old(session.browser.location), create)
    {
      error := "";
      submitting := true;
      refetched := false;
      payload := formData.(description := descriptionEditor, requirements := requirementsEditor);
      var r := Api.Intercept(session.browser, create);
      if r.Ok? {
        formData := EmptyForm;
        descriptionEditor, requirementsEditor := "", "";
        showModal := false;
        refetched := true;
        var jr := Api.Intercept(session.browser, refetch);
        if jr.Ok? {
          jobs := jr.data;
        } else {
          error := MessageOr(jr, "Failed to create job");
        }
      } else {
        error := MessageOr(r, "Failed to create job");
      }
      submitting := false;
    }
  }
}
