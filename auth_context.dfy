/** The session store: the in-memory `{user, token, loading}` state of the authentication
    context provider, kept beside the persisted "auth" record it reads once at start-up,
    writes on login and removes on logout. */
module AuthContext {
  import opened Common

  /** What a successful login or registration call returns. */
  datatype AuthPayload = AuthPayload(user: User, token: Option<string>)

  /** The user stored by `login`: the previous user's fields (none when there was no
      previous user), overridden field by field by the incoming ones. */
  function MergeUser(prev: Option<User>, incoming: User): (merged: User)
    ensures merged.Keys == incoming.Keys + (if prev.Some? then prev.value.Keys else {})
    ensures forall k :: k in incoming ==> merged[k] == incoming[k]
    ensures forall k :: prev.Some? && k in prev.value && k !in incoming ==> merged[k] == prev.value[k]
  {
    (if prev.Some? then prev.value else map[]) + incoming
  }

  class AuthProvider {
    var user: Option<User>
    var token: Option<string>
    var loading: bool
    const browser: Browser

    /** The persisted record mirrors the in-memory session: present exactly when a user
        is, and then holding that user and token. */
    ghost predicate Mirrored()
      reads this, browser
    {
      if user.Some? then browser.storage == Some(Record(user.value, token))
      else browser.storage == None && token == None
    }

    /** Mounting the provider: no user, no token, still loading. */
    constructor (browser: Browser)
      ensures this.browser == browser
      ensures user == None && token == None && loading
    {
      this.browser := browser;
      user, token, loading := None, None, true;
    }

    /** The start-up effect. A well-formed record sets `user` and `token` from it; no
        record leaves them as they are; either way `loading` ends false. Text that is not
        JSON makes the parse throw before `loading` is cleared (`threw`). */
    method Init() returns (threw: bool)
      modifies this
      ensures threw <==> browser.storage == Some(Malformed)
      ensures browser.storage == None ==> user == old(user) && token == old(token)
      ensures browser.storage.Some? && browser.storage.value.Record? ==>
                user == Some(browser.storage.value.user) && token == browser.storage.value.token
      ensures threw ==> user == old(user) && token == old(token) && loading == old(loading)
      ensures !threw ==> !loading
    {
      threw := false;
      match browser.storage {
        case None =>
        case Some(Malformed) =>
          threw := true;
          return;
        case Some(Record(u, t)) =>
          user := Some(u);
          token := t;
      }
      loading := false;
    }

    /** `login(data)`: merge the incoming user into the previous one, persist the merged
        user with the new token, and replace the token outright. */
    method Login(data: AuthPayload)
      modifies this, browser
      ensures user == Some(MergeUser(old(user), data.user))
      ensures token == data.token
      ensures browser.storage == Some(Record(user.value, data.token))
      ensures Mirrored()
      ensures loading == old(loading) && browser.location == old(browser.location)
    {
      var merged := MergeUser(user, data.user);
      browser.storage := Some(Record(merged, data.token));
      user := Some(merged);
      token := data.token;
    }

    /** `logout()`: remove the persisted record and clear user and token. */
    method Logout()
      modifies this, browser
      ensures browser.storage == None && user == None && token == None
      ensures Mirrored()
      ensures loading == old(loading) && browser.location == old(browser.location)
    {
      browser.storage := None;
      user := None;
      token := None;
    }
  }

  /** Logging in on top of an existing session can leave fields of the earlier user in
      place: the stored user is then not the one the server just returned. */
  lemma MergeKeepsStaleFields()
    ensures MergeUser(Some(map["mobile" := "555"]), map["name" := "Ann"]) != map["name" := "Ann"]
  {
    var merged := MergeUser(Some(map["mobile" := "555"]), map["name" := "Ann"]);
    assert "mobile" in merged;
  }

  /** With no previous user (a fresh or logged-out session) the merged user is exactly
      the incoming one. */
  lemma {:induction false} MergeFromNothing(incoming: User)
    ensures MergeUser(None, incoming) == incoming
  {
    var merged := MergeUser(None, incoming);
    assert merged.Keys == incoming.Keys;
  }

  /** Logging in twice with the same payload stores the same user as logging in once. */
  lemma {:induction false} MergeIdempotent(prev: Option<User>, incoming: User)
    ensures MergeUser(Some(MergeUser(prev, incoming)), incoming) == MergeUser(prev, incoming)
  {
    var once := MergeUser(prev, incoming);
    var twice := MergeUser(Some(once), incoming);
    assert twice.Keys == once.Keys;
  }
}
