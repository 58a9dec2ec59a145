/** The shared HTTP client's response interceptor: successful responses pass through
    untouched; an error whose response carries status 401 first removes the persisted
    "auth" record and sends the browser to "/login"; every error is then rejected again,
    unchanged, so the calling page's own error handling still runs. */
module Api {
  import opened Common

  /** The response is an error whose response has status 401. */
  predicate Unauthorized<T>(r: Response<T>)
    ensures Unauthorized(r) ==> r.Err?
    ensures r.Err? && r.status.None? ==> !Unauthorized(r)
  {
    r.Err? && r.status == Some(401)
  }

  /** The persisted record after the interceptor has seen `r`. */
  function StorageAfter<T>(storage: Option<Stored>, r: Response<T>): (after: Option<Stored>)
    ensures Unauthorized(r) ==> after == None
    ensures !Unauthorized(r) ==> after == storage
  {
    if Unauthorized(r) then None else storage
  }

  /** The browser location after the interceptor has seen `r`. */
  function LocationAfter<T>(location: string, r: Response<T>): (after: string)
    ensures Unauthorized(r) ==> after == "/login"
    ensures !Unauthorized(r) ==> after == location
  {
    if Unauthorized(r) then "/login" else location
  }

  /** Runs on every outcome of every call made through the client. The outcome handed on
      to the caller is the very same one (a success resolves, an error is re-rejected). */
  method Intercept<T>(b: Browser, r: Response<T>) returns (passed: Response<T>)
    modifies b
    ensures passed == r
    ensures b.storage == StorageAfter(old(b.storage), r)
    ensures b.location == LocationAfter(old(b.location), r)
  {
    if r.Err? && r.status == Some(401) {
      b.storage := None;
      b.location := "/login";
    }
    passed := r;
  }
}
