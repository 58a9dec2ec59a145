/** The public job listing: fetched once, filtered by job type, with a header that counts
    every fetched job and an empty state when the filter leaves nothing. */
module JobsPage {
  import opened Common
  import Lists
  import Api

  /** The jobs shown under the type filter `filter` ("all", "Full-time", "Internship"). */
  function FilteredJobs(jobs: seq<Job>, filter: string): (shown: seq<Job>)
    ensures filter == "all" ==> shown == jobs
    ensures filter != "all" ==> forall i :: 0 <= i < |shown| ==> shown[i].jobType == filter
    ensures |shown| <= |jobs|
  {
    Lists.SelectBy(jobs, filter, (j: Job) => j.jobType)
  }

  /** Under any filter but "all" the listing holds exactly the jobs of that type, in the
      order they were fetched. */
  lemma FilteredJobsExact(jobs: seq<Job>, filter: string)
    requires filter != "all"
    ensures forall j :: j in FilteredJobs(jobs, filter) <==> j in jobs && j.jobType == filter
    ensures forall i :: 0 <= i < |jobs| ==>
              FilteredJobs(jobs, filter) == FilteredJobs(jobs[..i], filter) + FilteredJobs(jobs[i..], filter)
  {
    Lists.SelectByExact(jobs, filter, (j: Job) => j.jobType);
    forall i | 0 <= i < |jobs|
      ensures FilteredJobs(jobs, filter) == FilteredJobs(jobs[..i], filter) + FilteredJobs(jobs[i..], filter)
    {
      assert jobs == jobs[..i] + jobs[i..];
    }
  }

  /** What the page shows. */
  datatype Screen = Loading | Listing(headerCount: nat, cards: seq<Job>) | NoOpportunities(headerCount: nat)

  /** The header always counts every fetched job; the body lists the filtered jobs, or
      shows "No opportunities available" when there are none. */
  function View(loading: bool, jobs: seq<Job>, filter: string): (s: Screen)
    ensures loading <==> s.Loading?
    ensures !loading ==> s.headerCount == |jobs|
    ensures s.NoOpportunities? <==> !loading && FilteredJobs(jobs, filter) == []
    ensures s.Listing? ==> s.cards == FilteredJobs(jobs, filter) && |s.cards| <= s.headerCount
  {
    if loading then Loading
    else if |FilteredJobs(jobs, filter)| == 0 then NoOpportunities(|jobs|)
    else Listing(|jobs|, FilteredJobs(jobs, filter))
  }

  class Jobs {
    const browser: Browser
    var jobs: seq<Job>
    var loading: bool
    var filter: string

    constructor (browser: Browser)
      ensures this.browser == browser && jobs == [] && loading && filter == "all"
    {
      this.browser := browser;
      jobs, loading, filter := [], true, "all";
    }

    /** `fetchJobs`: a successful fetch replaces the list; a failed one leaves it (empty
        on mount); loading ends either way. */
    method FetchJobs(res: Response<seq<Job>>)
      modifies this`jobs, this`loading, browser
      ensures jobs == if res.Ok? then res.data else old(jobs)
      ensures !loading
      ensures browser.storage == Api.StorageAfter(old(browser.storage), res)
      ensures browser.location == Api.LocationAfter(old(browser.location), res)
    {
      var r := Api.Intercept(browser, res);
      if r.Ok? {
        jobs := r.data;
      }
      loading := false;
    }

    /** A filter button. */
    method SetFilter(f: string)
      modifies this`filter
      ensures filter == f
    {
      filter := f;
    }
  }
}
