/** The landing page: the four most recent jobs and two calls to action whose targets
    depend on whether someone is logged in. */
module HomePage {
  import opened Common
  import Api
  import AuthContext

  /** `res.data.slice(0, 4)`: the first four jobs, or all of them when there are fewer. */
  function LatestJobs(jobs: seq<Job>): (latest: seq<Job>)
    ensures |latest| == if |jobs| < 4 then |jobs| else 4
    ensures forall i :: 0 <= i < |latest| ==> latest[i] == jobs[i]
  {
    if |jobs| < 4 then jobs else jobs[..4]
  }

  /** The hero button: the job list for a logged-in user, the login page otherwise. */
  function GetStarted(user: Option<User>): (link: Link)
    ensures link.text == "Get Started →"
    ensures link.to == (if user.Some? then "/jobs" else "/login")
  {
    Link(if user.Some? then "/jobs" else "/login", "Get Started →")
  }

  /** The closing call to action: the applicant dashboard for any logged-in user (an
      administrator included), sign-up otherwise. */
  function CallToAction(user: Option<User>): (link: Link)
    ensures user.Some? ==> link == Link("/dashboard", "Go to Dashboard")
    ensures user.None? ==> link == Link("/register", "Sign Up")
  {
    if user.Some? then Link("/dashboard", "Go to Dashboard") else Link("/register", "Sign Up")
  }

  class Home {
    const session: AuthContext.AuthProvider
    var latestJobs: seq<Job>
    var loading: bool

    constructor (session: AuthContext.AuthProvider)
      ensures this.session == session && latestJobs == [] && loading
    {
      this.session := session;
      latestJobs, loading := [], true;
    }

    /** `fetchLatestJobs`: keeps the first four fetched jobs; a failed fetch leaves the
        list as it was (empty on mount); loading ends either way. */
    method FetchLatestJobs(res: Response<seq<Job>>)
      modifies this`latestJobs, this`loading, session.browser
      ensures latestJobs == if res.Ok? then LatestJobs(res.data) else old(latestJobs)
      ensures !loading
      ensures session.browser.storage == Api.StorageAfter(old(session.browser.storage), res)
      ensures session.browser.location == Api.LocationAfter(old(session.browser.location), res)
    {
      var r := Api.Intercept(session.browser, res);
      if r.Ok? {
        latestJobs := LatestJobs(r.data);
      }
      loading := false;
    }
  }
}
