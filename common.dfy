/** Values and browser state shared by every part of the front-end model: optional values,
    the outcome of one HTTP call, the records exchanged with the remote API, and the two
    pieces of browser state the application touches (the persisted "auth" record and the
    current location). */
module Common {

  datatype Option<+T> = None | Some(value: T)

  /** A user record as the API returns it: field name to field value (`name`, `email`,
      `role`, `mobile`, `linkedin`, ...). A field the server leaves out is absent. */
  type User = map<string, string>

  /** The outcome of one HTTP call, as seen by the caller after the client wrapper: the
      response body on success; otherwise the HTTP status (absent when no response
      arrived at all) and the `message` field of the error body, if it has one. */
  datatype Response<+T> = Ok(data: T) | Err(status: Option<int>, message: Option<string>)

  /** What the persisted "auth" key can hold once it exists: a well-formed serialised
      session, or text that is not valid JSON. */
  datatype Stored = Record(user: User, token: Option<string>) | Malformed

  /** A job as the API returns it (`_id` is `id`, `type` is `jobType`). */
  datatype Job = Job(id: string, title: string, company: string, location: string,
                     jobType: string, description: string, requirements: string,
                     isActive: bool)

  /** How an application refers to its job: `jobId` is null (the job was deleted), a
      populated job object (only its `_id` matters here), or the raw id string. */
  datatype JobRef = NoJob | Populated(jobId: string) | RawId(rawId: string)

  /** An application as the API returns it; `status` is one of "Applied", "Shortlisted",
      "Selected", "Rejected", but nothing on the client enforces that. */
  datatype Application = Application(id: string, job: JobRef, status: string)

  /** A router link: its target and its text. */
  datatype Link = Link(to: string, text: string)

  /** One labelled figure of a dashboard's statistics row. */
  datatype Stat = Stat(name: string, value: nat)

  /** The browser state the application reads and writes: the value under the "auth"
      key of local storage, and the current location (changed both by the router's
      `navigate` and by assigning `window.location.href`). */
  class Browser {
    var storage: Option<Stored>
    var location: string

    constructor (storage: Option<Stored>, location: string)
      ensures this.storage == storage && this.location == location
    {
      this.storage := storage;
      this.location := location;
    }
  }

  /** JavaScript truthiness of a token: present and not the empty string. */
  predicate HasToken(t: Option<string>)
    ensures HasToken(t) ==> t.Some?
    ensures t == Some("") ==> !HasToken(t)
  {
    t.Some? && t.value != ""
  }

  /** The error text every page shows for a failed call: the server's `message` when it
      sent a non-empty one (`err.response?.data?.message || fallback`), else the page's
      own fallback text. */
  function MessageOr<T>(r: Response<T>, fallback: string): (text: string)
    requires r.Err?
    ensures text == fallback || (r.message.Some? && text == r.message.value)
    ensures r.message.Some? && r.message.value != "" ==> text == r.message.value
    ensures fallback != "" ==> text != ""
  {
    if r.message.Some? && r.message.value != "" then r.message.value else fallback
  }
}
