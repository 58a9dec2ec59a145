# Job portal front-end: session store, guards, code entry and list logic

A model of the logic of a React job-portal front-end. The model has four parts:

- the **session store**: the authentication context with its `user`, `token` and `loading` state, and the persisted `"auth"` record that the context reads at start-up, writes on login and removes on logout;
- the **global 401 rule** of the shared HTTP client;
- the **page handlers** that drive the session store and the pages' own state: the job-details apply flow, e-mail verification and password reset, the applicant and admin dashboards, the job listing, home, login, registration, profile and the navigation bar;
- the **decisions and list computations** behind what those pages show: redirect guards, the apply-area decision table, role-based dashboard links, status and type filters, per-job application matching, and the statistics rows.

Each HTTP call is a parameter of type `Response<T>`: either `Ok(data)`, or `Err(status?, message?)`. Each handler first passes that outcome through `Api.Intercept`, which is the client's response interceptor. The browser is a `Common.Browser` object with two fields:

- `storage`: the `"auth"` key, which holds no record, a `Record(user, token)`, or `Malformed` text that fails to parse;
- `location`: set both by router navigation and by assignments to `window.location.href`.

`window.confirm` is a boolean parameter. A navigation that the source delays with a timer is recorded in a `scheduled` field.

The model keeps three behaviours of the code as they are:

- `login` **merges** the incoming user into the previous one instead of replacing it (`AuthContext.MergeKeepsStaleFields`).
- The profile page calls `updateUser`, which the context never provides. Saving a profile therefore always reports "Failed to update profile" and never updates the session (`ProfilePage.Profile.HandleSave`).
- The 401 rule removes the stored record and moves to `/login`, but leaves the in-memory `user` and `token` alone. After a login, a 401 therefore leaves the session no longer mirroring storage (`Scenarios.UnauthorizedAfterLogin`). Only the page reload that follows starts from an empty session (`Scenarios.UnauthorizedThenReload`).

Modules, one per source file, plus three shared ones:

- `Common`: shared values and the browser.
- `Lists`: `Array.prototype.filter` and its counting facts.
- `Otp`: the six-slot code buffer used by two pages.
- `Api`, `AuthContext`, `JobDetailsPage`, `VerifyEmailPage`, `ResetPasswordPage`, `UserDashboardPage`, `JobsPage`, `AdminDashboardPage`, `AdminJobDetailsPage`, `NavbarComponent`, `HomePage`, `RegisterPage`, `LoginPage`, `ProfilePage`: one per source file.
- `Scenarios`: sequences of session operations.

## Model

| member | source | states |
|---|---|---|
| Common.MessageOr | src/pages/Login.jsx:29-32 | The error text is the server's message when that message is non-empty, and the page's fallback otherwise; it is never empty when the fallback is not |
| Common.HasToken | src/pages/JobDetails.jsx:26 | A token counts as present only when it exists, and the empty string does not count |
| Lists.Filter | src/pages/UserDashboard.jsx:42 | The filtered list is no longer than the input; every kept element passes the test and comes from the input |
| Lists.FilterAppend | src/pages/UserDashboard.jsx:42 | Filtering distributes over concatenation, so the filter never reorders |
| Lists.FilterMember | src/pages/admin/AdminJobDetails.jsx:49-51 | An element is kept if and only if it is in the list and passes the test |
| Lists.FilterMonotone | src/pages/admin/AdminJobDetails.jsx:49-51 | A weaker test keeps at least as many elements |
| Lists.FilterDisjointCounts | src/pages/admin/AdminDashboard.jsx:155-156 | Two mutually exclusive tests together keep at most the whole list |
| Lists.FilterExclusiveCounts | src/pages/UserDashboard.jsx:46-48 | Three pairwise exclusive tests together keep at most the whole list |
| Lists.SelectBy | src/pages/Jobs.jsx:31-34 | The value "all" returns the list unchanged; any other value keeps only elements whose key equals it |
| Lists.SelectByExact | src/pages/Jobs.jsx:31-34 | Under a value other than "all", an element is shown if and only if it is in the list with that key, and the selection distributes over any split of the list |
| Api.StorageAfter | src/services/api.js:11-13 | A 401 error removes the stored record; a success, any other status, or an error with no response leaves it |
| Api.LocationAfter | src/services/api.js:11-16 | A 401 error moves to "/login"; every other outcome leaves the location |
| Api.Unauthorized | src/services/api.js:11 | Only an error can trigger the rule, and an error that arrived without a response never does |
| Api.Intercept | src/services/api.js:8-21 | The outcome reaches the caller unchanged (success resolved, error re-rejected as the same error); storage and location change only as the two functions above say |
| AuthContext.MergeUser | src/context/AuthContext.jsx:29-32 | The merged user holds every incoming field with its new value, plus every previous field the incoming user lacks with its old value, and no other field |
| AuthContext.AuthProvider.constructor | src/context/AuthContext.jsx:7-9 | The provider starts with no user, no token and loading true |
| AuthContext.AuthProvider.Init | src/context/AuthContext.jsx:12-22 | A stored record sets user and token from it; no record leaves both as they were; loading ends false; text that does not parse throws before loading is cleared |
| AuthContext.AuthProvider.Login | src/context/AuthContext.jsx:25-46 | The user becomes the merge of the previous and incoming users, and the token is replaced outright; the stored record holds exactly that user and token, so storage mirrors the session |
| AuthContext.AuthProvider.Logout | src/context/AuthContext.jsx:48-52 | The record is removed and user and token are cleared |
| AuthContext.MergeKeepsStaleFields | src/context/AuthContext.jsx:29-32 | Logging in over an existing session can keep a field of the earlier user, so the stored user differs from the one the server returned |
| AuthContext.MergeFromNothing | src/context/AuthContext.jsx:27-32 | With no previous user, the merged user is exactly the incoming one |
| AuthContext.MergeIdempotent | src/context/AuthContext.jsx:29-32 | Logging in twice with the same payload stores the same user as logging in once |
| Otp.Join | src/pages/VerifyEmail.jsx:50 | Over accepted slots, the submitted code is no longer than the buffer and consists only of digits |
| Otp.Split | src/pages/VerifyEmail.jsx:50 | No source line splits a code: this is the reference inverse of the join at that line, one slot per character in order, used to state the round trips `SplitJoin` and `JoinSplit` |
| Otp.JoinFilled | src/pages/VerifyEmail.jsx:50 | When every slot holds one character, the code has one character per slot, in slot order |
| Otp.JoinShort | src/pages/VerifyEmail.jsx:50 | Over accepted slots, any empty slot makes the code shorter than the buffer |
| Otp.CompleteIffFilled | src/pages/VerifyEmail.jsx:50 | A well-formed buffer gives a six-digit code if and only if no slot is empty |
| Otp.SplitJoin | src/pages/ResetPassword.jsx:41 | Splitting the code of a filled buffer gives the buffer back |
| Otp.JoinSplit | src/pages/ResetPassword.jsx:41 | Joining the slots of a split code gives the code back |
| Otp.EmailRedirect | src/pages/VerifyEmail.jsx:18-21 | A page redirects, to its fallback, if and only if the navigation state has no non-empty e-mail address |
| Otp.Accepts | src/pages/VerifyEmail.jsx:24 | An accepted value has at most one character and holds only digits; the empty string and every single digit 0-9 are accepted |
| VerifyEmailPage.VerifyEmail.constructor | src/pages/VerifyEmail.jsx:10-14 | Six empty slots; not loading or resending; no messages |
| VerifyEmailPage.VerifyEmail.Render | src/pages/VerifyEmail.jsx:18-21 | Without an e-mail address the page navigates to "/register" and renders nothing; with one it renders and stays |
| VerifyEmailPage.VerifyEmail.HandleOtpChange | src/pages/VerifyEmail.jsx:23-33 | A value that is neither empty nor one digit changes nothing; otherwise only the slot at `index` changes and the buffer keeps six accepted slots; focus advances only for a non-empty value below the last slot |
| VerifyEmailPage.VerifyEmail.HandleKeyDown | src/pages/VerifyEmail.jsx:35-39 | Backspace on an empty slot other than the first moves focus back one slot; otherwise focus stays |
| VerifyEmailPage.VerifyEmail.HandleVerify | src/pages/VerifyEmail.jsx:41-60 | The request carries the e-mail address and the joined code, at most six digits; success shows the message and schedules "/login"; failure shows the server's message or "OTP verification failed"; loading ends false |
| VerifyEmailPage.VerifyEmail.HandleResend | src/pages/VerifyEmail.jsx:62-77 | Success empties all six slots and puts focus on the first; failure keeps the slots and shows the server's message or "Failed to resend OTP" |
| ResetPasswordPage.ResetPassword.constructor | src/pages/ResetPassword.jsx:15-19 | Six empty slots; empty password; no messages |
| ResetPasswordPage.ResetPassword.Render | src/pages/ResetPassword.jsx:9-13 | Without an e-mail address the page navigates to "/forgot-password" and renders nothing |
| ResetPasswordPage.ResetPassword.HandleOtpChange | src/pages/ResetPassword.jsx:21-31 | A value that is not empty and not one character 0-9 changes nothing; otherwise only the slot at `index` changes and the length stays six; focus advances only for a non-empty value below the last slot |
| ResetPasswordPage.ResetPassword.HandleSubmit | src/pages/ResetPassword.jsx:33-52 | The request carries the e-mail address, the joined code and the password; success sets the message and schedules "/login"; failure shows the server's message or "Reset failed" and keeps an earlier success message |
| UserDashboardPage.FilteredApps | src/pages/UserDashboard.jsx:40-42 | "all" shows every application; any other filter shows only applications with that status |
| UserDashboardPage.FilteredAppsExact | src/pages/UserDashboard.jsx:40-42 | Under a status filter, an application is shown if and only if it has that status, in fetch order |
| UserDashboardPage.StatusCount | src/pages/UserDashboard.jsx:46-48 | A per-status count never exceeds the number of applications |
| UserDashboardPage.Stats | src/pages/UserDashboard.jsx:44-49 | Four figures named Total Apps, Selected, Shortlisted and Rejected, in that order: the total, then each status figure equal to the count of applications with that status |
| UserDashboardPage.StatsWithinTotal | src/pages/UserDashboard.jsx:44-49 | The three status figures together never exceed the total |
| UserDashboardPage.StatusStyle | src/pages/UserDashboard.jsx:31-38 | A status gets the default badge if and only if it is not Selected, Rejected or Shortlisted |
| UserDashboardPage.StatusStylesDistinct | src/pages/UserDashboard.jsx:31-38 | Two statuses get the same badge class if and only if they are equal or both outside Selected, Rejected and Shortlisted, so "Applied" gets the default |
| UserDashboardPage.BearerHeader | src/pages/UserDashboard.jsx:20-22 | The header is "Bearer " followed by the token, or "Bearer null" when there is none |
| UserDashboardPage.UserDashboard.constructor | src/pages/UserDashboard.jsx:7-9 | No applications, loading, filter "all" |
| UserDashboardPage.UserDashboard.OnMount | src/pages/UserDashboard.jsx:13-29 | Without a token the page navigates to "/login" and still issues the fetch; a fetched list replaces the applications, and a failed fetch keeps them; loading ends false |
| UserDashboardPage.UserDashboard.SetFilter | src/pages/UserDashboard.jsx:86 | A filter button sets the filter |
| JobsPage.FilteredJobs | src/pages/Jobs.jsx:31-34 | "all" shows every job; any other filter shows only jobs of that type, never more jobs than were fetched |
| JobsPage.FilteredJobsExact | src/pages/Jobs.jsx:31-34 | Under a type filter, a job is shown if and only if it has that type, in fetch order |
| JobsPage.View | src/pages/Jobs.jsx:36-97 | While loading, only the loading screen shows; after that the header always counts every fetched job, and "No opportunities available" shows exactly when the filter leaves nothing |
| JobsPage.Jobs.constructor | src/pages/Jobs.jsx:6-8 | No jobs, loading, filter "all" |
| JobsPage.Jobs.FetchJobs | src/pages/Jobs.jsx:14-23 | A fetched list replaces the jobs and a failed fetch keeps them; loading ends false |
| JobsPage.Jobs.SetFilter | src/pages/Jobs.jsx:61-92 | A filter button sets the filter |
| HomePage.LatestJobs | src/pages/Home.jsx:18 | The first min(4, n) fetched jobs, in order |
| HomePage.GetStarted | src/pages/Home.jsx:55-60 | "Get Started" leads to "/jobs" for a logged-in user and to "/login" otherwise |
| HomePage.CallToAction | src/pages/Home.jsx:205-207 | Any logged-in user, administrators included, gets "/dashboard" ("Go to Dashboard"); otherwise "/register" ("Sign Up") |
| HomePage.Home.constructor | src/pages/Home.jsx:7-8 | No jobs, loading |
| HomePage.Home.FetchLatestJobs | src/pages/Home.jsx:15-24 | A fetched list is cut to its first four jobs and a failed fetch keeps the list; loading ends false |
| JobDetailsPage.Area | src/pages/JobDetails.jsx:155-173 | With the form closed: "Already Applied" if the user has applied, otherwise the apply button, disabled and reading "Applications Closed" exactly when the job is inactive. With the form open: the form only if the user has not applied |
| JobDetailsPage.View | src/pages/JobDetails.jsx:84-98 | A loading screen while loading, "Job Not Found" without a job, and otherwise the job with its action area |
| JobDetailsPage.ClosedJobCannotBeApplied | src/pages/JobDetails.jsx:162-168 | An inactive job never offers an enabled apply button |
| JobDetailsPage.JobDetails.constructor | src/pages/JobDetails.jsx:9-17 | No job, empty resume link, loading, form closed, not applied, no messages |
| JobDetailsPage.JobDetails.CheckApplicationStatus | src/pages/JobDetails.jsx:38-52 | An application in the answer marks the job as applied to; an empty answer changes nothing; a failed lookup marks it as not applied |
| JobDetailsPage.JobDetails.FetchJobData | src/pages/JobDetails.jsx:20-36 | The lookup is issued if and only if the job loads and both a user and a token are present; an issued lookup then acts as CheckApplicationStatus does (found: applied; empty: nothing changes; failed: not applied, application kept); a failed load shows "Failed to load job details"; loading ends false |
| JobDetailsPage.JobDetails.HandleApplyClick | src/pages/JobDetails.jsx:54-60 | With no user the page goes to "/login" and leaves the form as it was; with a user the form opens |
| JobDetailsPage.JobDetails.CancelForm | src/pages/JobDetails.jsx:197-203 | Cancel closes the form |
| JobDetailsPage.JobDetails.SetResumeLink | src/pages/JobDetails.jsx:182-189 | The input sets the resume link |
| JobDetailsPage.JobDetails.HandleApply | src/pages/JobDetails.jsx:62-82 | Sends the resume link; success marks the job as applied to and closes the form; failure keeps both and shows the server's message or "Something went wrong"; submitting ends false |
| NavbarComponent.MenuItems | src/components/Navbar.jsx:38-44 | Exactly five distinct entries, in order: Home "/", About "/about", Services "/#services", Jobs "/jobs", Contact "/contact" |
| NavbarComponent.IsAdmin | src/components/Navbar.jsx:104 | A user without a role is never an administrator, and an administrator's role is "admin" |
| NavbarComponent.DashboardLink | src/components/Navbar.jsx:104-108 | Role "admin" gets "/admin/dashboard" ("Admin Panel"); any other role, or none, gets "/dashboard" ("Applications") |
| NavbarComponent.AccountArea | src/components/Navbar.jsx:74-119 | Login and Join links exactly when nobody is logged in; otherwise the profile menu, whose dashboard entry follows the role |
| NavbarComponent.MobileLinks | src/components/Navbar.jsx:141-156 | The five menu items, followed by Login and Join only when nobody is logged in |
| NavbarComponent.Navbar.constructor | src/components/Navbar.jsx:10-11 | Both menus start closed |
| NavbarComponent.Navbar.ToggleProfileMenu | src/components/Navbar.jsx:86 | The profile button flips the profile menu |
| NavbarComponent.Navbar.ToggleMobileMenu | src/components/Navbar.jsx:123 | The mobile toggle flips the mobile menu |
| NavbarComponent.Navbar.CloseProfileMenu | src/components/Navbar.jsx:98-104 | Following a profile-menu entry closes that menu |
| NavbarComponent.Navbar.CloseMobileMenu | src/components/Navbar.jsx:137-154 | Following a mobile link, or clicking the backdrop, closes the mobile menu |
| NavbarComponent.Navbar.HandleClickOutside | src/components/Navbar.jsx:18-25 | While someone is logged in, a click outside the profile menu closes it; the mobile menu closes only if it is open and the click is outside both the menu and the toggle; no menu is ever opened |
| NavbarComponent.Navbar.HandleLogout | src/components/Navbar.jsx:31-36 | The session and the record are cleared, the page goes to "/login", and both menus close; the session's loading flag is untouched |
| AdminDashboardPage.Stats | src/pages/admin/AdminDashboard.jsx:152-157 | Total jobs and total applications, then Selected and Rejected, each the number of applications with that status; the two together never exceed the application total |
| AdminDashboardPage.CountedFor | src/pages/admin/AdminDashboard.jsx:214 | An application whose job was deleted, or that carries only the raw id, is never counted; one whose job reference is populated with the card's id always is |
| AdminDashboardPage.ApplicationCount | src/pages/admin/AdminDashboard.jsx:214 | A card's count never exceeds the number of applications |
| AdminDashboardPage.CountAddsMatching | src/pages/admin/AdminDashboard.jsx:214 | Adding an application raises a card's count by one exactly when its job reference is populated with that job's id; a deleted job or a raw id adds nothing |
| AdminDashboardPage.AdminDashboard.constructor | src/pages/admin/AdminDashboard.jsx:13-32 | Empty lists, loading, modal closed, the blank form with type "Full-time", empty editors |
| AdminDashboardPage.AdminDashboard.FetchData | src/pages/admin/AdminDashboard.jsx:38-56 | Each fetch that succeeds stores its list and each that fails keeps the old one; loading ends false whatever happened |
| AdminDashboardPage.AdminDashboard.OpenModal | src/pages/admin/AdminDashboard.jsx:198 | "+ ADD JOB" opens the modal |
| AdminDashboardPage.AdminDashboard.CloseModal | src/pages/admin/AdminDashboard.jsx:223-301 | The close and cancel buttons shut the modal; the description and requirements editors inside it are unmounted, so both are empty when it reopens, while the form fields are kept |
| AdminDashboardPage.AdminDashboard.HandleAddJob | src/pages/admin/AdminDashboard.jsx:58-85 | The payload is the form with description and requirements taken from the editors. Success resets the form and editors, closes the modal and refetches the jobs; a failed refetch is reported like a failed creation. Failure keeps the form, the editors and the modal and shows the server's message or "Failed to create job". Submitting ends false |
| AdminJobDetailsPage.ForJob | src/pages/admin/AdminJobDetails.jsx:49-51 | Every kept application belongs to the job, and none are added |
| AdminJobDetailsPage.BelongsTo | src/pages/admin/AdminJobDetails.jsx:50 | An application whose job was deleted never belongs; every application the dashboard card counts belongs; a raw id belongs exactly when it is non-empty and equal to the page id |
| AdminJobDetailsPage.ForJobExact | src/pages/admin/AdminJobDetails.jsx:49-51 | An application is kept if and only if its job reference is populated with the page id or is a non-empty raw id equal to it; order is preserved |
| AdminJobDetailsPage.CardCountWithinPage | src/pages/admin/AdminJobDetails.jsx:49-51 | The dashboard card's count for a job never exceeds the number of applications the job's own page lists |
| AdminJobDetailsPage.Badge | src/pages/admin/AdminJobDetails.jsx:151-156 | A status gets the grey badge if and only if it is not Selected, Rejected or Shortlisted |
| AdminJobDetailsPage.BadgesDistinct | src/pages/admin/AdminJobDetails.jsx:151-156 | Selected, Rejected and Shortlisted each get their own badge; every other status shares the grey one |
| AdminJobDetailsPage.ToggleMessage | src/pages/admin/AdminJobDetails.jsx:62 | "Applications Reopened" exactly when reopening, "Applications Closed" exactly when closing |
| AdminJobDetailsPage.AdminJobDetails.constructor | src/pages/admin/AdminJobDetails.jsx:14-25 | No job, no applications, loading, not editing or saving, no message |
| AdminJobDetailsPage.AdminJobDetails.FetchJob | src/pages/admin/AdminJobDetails.jsx:39-43 | A fetched job replaces both the shown job and the edit copy |
| AdminJobDetailsPage.AdminJobDetails.FetchApplications | src/pages/admin/AdminJobDetails.jsx:45-53 | Of the fetched list, only the applications that belong to this job are kept |
| AdminJobDetailsPage.AdminJobDetails.FetchAll | src/pages/admin/AdminJobDetails.jsx:31-37 | Both fetches run: a fetched job replaces the job and the edit copy, fetched applications are filtered to this job, a failed fetch keeps its part; loading ends false whatever happened |
| AdminJobDetailsPage.AdminJobDetails.StartEditing | src/pages/admin/AdminJobDetails.jsx:200 | Edit Job enters edit mode with the editors holding the job's description and requirements |
| AdminJobDetailsPage.AdminJobDetails.CancelEditing | src/pages/admin/AdminJobDetails.jsx:249 | Cancel leaves edit mode |
| AdminJobDetailsPage.AdminJobDetails.ToggleApplications | src/pages/admin/AdminJobDetails.jsx:55-68 | The request asks for the given state; success shows the matching message and refetches the job, replacing the job and the edit copy; failure shows "Action failed" and changes no job data |
| AdminJobDetailsPage.AdminJobDetails.ToggleControl | src/pages/admin/AdminJobDetails.jsx:203-211 | The button always requests the opposite of the job's current state: "Stop Applications" leads to "Applications Closed", "Reopen" to "Applications Reopened"; the refetch, the failure message and the browser effects are those of the toggle |
| AdminJobDetailsPage.AdminJobDetails.SaveJobChanges | src/pages/admin/AdminJobDetails.jsx:70-91 | The payload is the edit copy with description and requirements taken from the editors; success leaves edit mode with "Update successful" and refetches the job and the edit copy; failure shows "Save failed" and keeps the job, the edit copy and edit mode; saving ends false |
| AdminJobDetailsPage.AdminJobDetails.DeleteJob | src/pages/admin/AdminJobDetails.jsx:93-103 | Without confirmation nothing changes; a successful delete goes to "/admin/dashboard"; a failure shows "Delete failed" |
| AdminJobDetailsPage.AdminJobDetails.UpdateStatus | src/pages/admin/AdminJobDetails.jsx:105-112 | Sends the status for that application and, on success, refetches this job's applications; a failure changes nothing |
| LoginPage.Login.constructor | src/pages/Login.jsx:7-10 | Empty inputs, no error, not loading |
| LoginPage.Login.HandleSubmit | src/pages/Login.jsx:15-37 | Success logs the response in through the session store and goes to "/"; failure leaves the session and shows the server's message or "Login failed. Please try again."; the inputs are kept; loading ends false |
| RegisterPage.Register.constructor | src/pages/Register.jsx:7-13 | Blank name, e-mail and password; no error; not loading |
| RegisterPage.Register.RedirectIfLoggedIn | src/pages/Register.jsx:19-21 | A logged-in visitor is sent to "/"; otherwise the location stays |
| RegisterPage.Register.HandleChange | src/pages/Register.jsx:23-25 | Only the field named by the input's id changes |
| RegisterPage.Register.HandleSubmit | src/pages/Register.jsx:27-41 | Sends the form; success logs in and goes to "/"; failure leaves the session and shows the server's message or "Registration failed. Try again."; loading ends false and the session's loading flag is untouched |
| ProfilePage.FieldOrBlank | src/pages/Profile.jsx:24-26 | The user's field, or "" when the user lacks it |
| ProfilePage.FormFromUser | src/pages/Profile.jsx:21-29 | Name, mobile and LinkedIn copied from the user, with each missing field left blank |
| ProfilePage.Profile.constructor | src/pages/Profile.jsx:9-16 | The form is filled from the user, or blank with no user; not editing; no message |
| ProfilePage.Profile.RedirectIfLoggedOut | src/pages/Profile.jsx:18-20 | With nobody logged in the page goes to "/login" |
| ProfilePage.Profile.SyncForm | src/pages/Profile.jsx:21-29 | A user refills the form; with no user the form is kept |
| ProfilePage.Profile.Render | src/pages/Profile.jsx:31 | The page renders if and only if someone is logged in |
| ProfilePage.Profile.ToggleEditMode | src/pages/Profile.jsx:136 | The Edit button flips edit mode |
| ProfilePage.Profile.HandleSave | src/pages/Profile.jsx:33-60 | Sends the form. Because `updateUser` is not among the names the context provides, the session is never updated, edit mode is kept, and the message is always an error: "Failed to update profile" on success, the server's message or that text on failure |
| ProfilePage.Profile.HandleDeleteAccount | src/pages/Profile.jsx:63-80 | Without confirmation nothing changes; success ends the session, keeps the banner and goes to "/register"; failure keeps the session and shows "Failed to delete account. Try again."; the session's loading flag is untouched |
| ProfilePage.Profile.HandleLogout | src/pages/Profile.jsx:82-85 | The session and the record are cleared and the page goes to "/login"; the session's loading flag is untouched |
| Scenarios.LoginThenLogout | src/context/AuthContext.jsx:25-52 | After any login followed by logout there is no record, no user and no token |
| Scenarios.StartWithoutRecord | src/context/AuthContext.jsx:12-22 | A start-up without a record ends with no user, no token and loading false |
| Scenarios.RestoreAfterLogin | src/context/AuthContext.jsx:12-46 | A start-up after an earlier login restores the same user and token, mirrored by storage |
| Scenarios.UnauthorizedAfterLogin | src/services/api.js:11-17 | A 401 after a login removes the record and moves to "/login" but keeps the in-memory user and token, so the session no longer mirrors storage |
| Scenarios.UnauthorizedThenReload | src/services/api.js:16 | The reload after a 401 starts with nobody logged in |
| Scenarios.FirstLogin | src/pages/Login.jsx:15-37 | A first login on a fresh application stores exactly the user and token the server returned, in memory and in storage, and moves to "/" |

## Left out

- Markup, Tailwind classes and inline styles are not modelled. The model keeps only the decisions behind what is shown: `JobDetailsPage.Area` and `View`, `JobsPage.View`, and the navigation-bar links.
- HTTP is not modelled. Each call is a `Response` parameter, and the model does not capture URLs, headers other than the bearer header, or the server's behaviour.
- Timers are not modelled. `setTimeout` message clearing is left out, and a delayed redirect is recorded only as its target in `scheduled`.
- Concurrency is not modelled. The model does not capture React effect scheduling, re-render timing, StrictMode double effects, or races between overlapping requests; `Promise.all` fetches are modelled one after the other.
- JSON parsing is not modelled. The stored record is either a well-formed `Record` or `Malformed`. An empty-string value is falsy, so the start-up effect skips it; the model represents it as no record.
- The rich-text editor is not modelled. Only the editors' contents are kept, as strings; the `execCommand` and `queryCommandState` calls in `checkFormats` and `format` are DOM foreign calls.
- `stripHtml` is not modelled, because it relies on the browser's HTML parser.
- DOM focus and refs are modelled only as an integer focus index.
- `alert` is not modelled; it shows a message and changes no state.
- Several input handlers are not modelled. Each copies one typed value into one field and has no logic of its own. They are the per-field handlers of the add-job and edit-job forms and of the profile form, the login e-mail and password inputs, and the reset-password password input. Register's `handleChange` and the resume link are modelled.
- Admin job details: the page's own loading and not-found screens are not modelled. They follow the same shape as `JobDetailsPage.View`.
- Static pages are not part of this model: About, Footer, Contact and ForgotPassword.
- ResetPasswordPage.ResetPassword.Render: the hooks declared after the early return are not modelled. This matters only when the e-mail address appears or disappears between renders.
