/** The applicant's dashboard: a token guard that redirects but still fetches, the
    status filter over the fetched applications, the statistics row and the status
    badge styles. */
module UserDashboardPage {
  import opened Common
  import Lists
  import Api
  import AuthContext

  /** The applications shown under the status filter `filter` ("all" or a status). */
  function FilteredApps(apps: seq<Application>, filter: string): (shown: seq<Application>)
    ensures filter == "all" ==> shown == apps
    ensures filter != "all" ==> forall i :: 0 <= i < |shown| ==> shown[i].status == filter
    ensures |shown| <= |apps|
  {
    Lists.SelectBy(apps, filter, (a: Application) => a.status)
  }

  /** Under any filter but "all" the dashboard shows exactly the applications with that
      status, in the order they were fetched. */
  lemma FilteredAppsExact(apps: seq<Application>, filter: string)
    requires filter != "all"
    ensures forall a :: a in FilteredApps(apps, filter) <==> a in apps && a.status == filter
    ensures forall i :: 0 <= i < |apps| ==>
              FilteredApps(apps, filter) == FilteredApps(apps[..i], filter) + FilteredApps(apps[i..], filter)
  {
    Lists.SelectByExact(apps, filter, (a: Application) => a.status);
    forall i | 0 <= i < |apps|
      ensures FilteredApps(apps, filter) == FilteredApps(apps[..i], filter) + FilteredApps(apps[i..], filter)
    {
      assert apps == apps[..i] + apps[i..];
    }
  }

  /** How many applications have status `status`. */
  function StatusCount(apps: seq<Application>, status: string): (n: nat)
    ensures n <= |apps|
  {
    |Lists.Filter(apps, (a: Application) => a.status == status)|
  }

  /** The statistics row: total, then the Selected, Shortlisted and Rejected counts. */
  function Stats(apps: seq<Application>): (row: seq<Stat>)
    ensures |row| == 4
    ensures row[0] == Stat("Total Apps", |apps|)
    ensures row[1].name == "Selected" && row[2].name == "Shortlisted" && row[3].name == "Rejected"
    ensures forall i :: 1 <= i < 4 ==> row[i].value == StatusCount(apps, row[i].name)
  {
    [ Stat("Total Apps", |apps|),
      Stat("Selected", StatusCount(apps, "Selected")),
      Stat("Shortlisted", StatusCount(apps, "Shortlisted")),
      Stat("Rejected", StatusCount(apps, "Rejected")) ]
  }

  /** The three status figures together never exceed the total: no application is
      counted under two statuses. */
  lemma StatsWithinTotal(apps: seq<Application>)
    ensures Stats(apps)[1].value + Stats(apps)[2].value + Stats(apps)[3].value <= Stats(apps)[0].value
  {
    Lists.FilterExclusiveCounts(apps,
      (a: Application) => a.status == "Selected",
      (a: Application) => a.status == "Shortlisted",
      (a: Application) => a.status == "Rejected");
  }

  /** The badge of "Applied" and of any status the client does not know. */
  const DefaultStyle := "bg-[#daebff] text-black border-black"

  /** The class of the status badge in the applications table. */
  function StatusStyle(status: string): (style: string)
    ensures style == DefaultStyle <==> status !in {"Selected", "Rejected", "Shortlisted"}
  {
    match status
    case "Selected" => "bg-[#b4f481] text-black border-black"
    case "Rejected" => "bg-rose-500 text-white border-black"
    case "Shortlisted" => "bg-[#ffde59] text-black border-black"
    case _ => DefaultStyle
  }

  /** Selected, Rejected and Shortlisted each get a badge of their own; every other
      status ("Applied" included) shares the default one. */
  lemma StatusStylesDistinct(s: string, t: string)
    ensures StatusStyle(s) == StatusStyle(t) <==>
              s == t || (s !in {"Selected", "Rejected", "Shortlisted"} && t !in {"Selected", "Rejected", "Shortlisted"})
  {
  }

  /** The `Authorization` header the page sends; a missing token is spelled "null". */
  function BearerHeader(token: Option<string>): (header: string)
    ensures token.Some? ==> header == "Bearer " + token.value
    ensures token.None? ==> header == "Bearer null"
  {
    "Bearer " + (if token.Some? then token.value else "null")
  }

  class UserDashboard {
    const session: AuthContext.AuthProvider
    var apps: seq<Application>
    var loading: bool
    var filter: string

    constructor (session: AuthContext.AuthProvider)
      ensures this.session == session
      ensures apps == [] && loading && filter == "all"
    {
      this.session := session;
      apps, loading, filter := [], true, "all";
    }

    /** The mount effect: without a token the page navigates to "/login", and then -- there
        is no early return -- fetches the applications anyway (`authorization` is the header
        it sends). A failed fetch leaves the list as it was; loading ends either way. */
    method OnMount(res: Response<seq<Application>>) returns (authorization: string)
      modifies this`apps, this`loading, session.browser
      ensures authorization == BearerHeader(session.token)
      ensures apps == if res.Ok? then res.data else old(apps)
      ensures !loading
      ensures session.browser.location ==
                Api.LocationAfter(if HasToken(session.token) then old(session.browser.location) else "/login", res)
      ensures session.browser.storage == Api.StorageAfter(old(session.browser.storage), res)
    {
      if !HasToken(session.token) {
        session.browser.location := "/login";
      }
      authorization := BearerHeader(session.token);
      var r := Api.Intercept(session.browser, res);
      if r.Ok? {
        apps := r.data;
      }
      loading := false;
    }

    /** A filter button. */
    method SetFilter(f: string)
      modifies this`filter
      ensures filter == f
    {
      filter := f;
    }
  }
}
