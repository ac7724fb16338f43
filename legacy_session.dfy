/**
 * The older session provider of src/session.jsx. It keeps user, token and
 * error like the live one and syncs them to storage by the same rule, but
 * it reads the initial token from `'token'` only, holds no car record or
 * image cache, and its `authFetch` passes the URL through unchanged. The
 * rules it shares with src/auth/session.jsx are taken from AuthSession.
 */
module LegacySession {
  import opened Wrappers
  import opened Js
  import opened AuthSession

  /** The initial token: `localStorage.getItem('token')`, with no fallback. */
  function LegacyInitialToken(storage: map<string, string>): (r: JsValue)
    ensures r.Null? <==> "token" !in storage
    ensures "token" in storage ==> r == Str(storage["token"])
  {
    GetItem(storage, "token")
  }

  /** Where no `'access_token'` is stored, both providers start from the same token. */
  lemma InitialTokensAgree(storage: map<string, string>)
    requires "access_token" !in storage
    requires "token" in storage ==> storage["token"] != ""
    ensures LegacyInitialToken(storage) == InitialToken(storage)
  {
  }

  /** Here a logout followed by a sync and a reload does come back signed out. */
  lemma {:induction false} ReloadAfterLogoutSignedOut(storage: map<string, string>)
    ensures InitialUser(Synced(storage, None, Null)) == None
    ensures LegacyInitialToken(Synced(storage, None, Null)) == Null
  {
    var s := Synced(storage, None, Null);
    assert "token" !in s && "user" !in s;
  }

  /**
   * `authFetch(url, options)` up to the call to `fetch`: `'No token'` when
   * the token is falsy, otherwise `url` itself with the authorized options.
   */
  function LegacyAuthFetchRequest(token: JsValue, url: string, options: RequestInit): (r: Result<Request, string>)
    ensures r.Err? <==> !Truthy(token)
    ensures r.Err? ==> r.error == "No token"
    ensures r.Ok? ==> r.value.url == url && r.value.init == Authorized(options, token)
  {
    if !Truthy(token) then Err("No token") else Ok(Request(url, Authorized(options, token)))
  }

  /** The older provider's state. */
  class LegacySessionState {
    var user: Option<string>
    var token: JsValue
    var error: JsValue
    var storage: map<string, string>

    constructor (storage: map<string, string>)
      ensures this.storage == storage
      ensures user == InitialUser(storage) && token == LegacyInitialToken(storage)
      ensures error == Str("")
    {
      this.storage := storage;
      user := InitialUser(storage);
      token := LegacyInitialToken(storage);
      error := Str("");
    }

    /** The effect on `[user, token]`, the same rule as the live provider's. */
    method SyncStorage()
      modifies this`storage
      ensures storage == Synced(old(storage), user, token)
    {
      if user.Some? {
        storage := storage["user" := user.value];
      } else {
        storage := storage - {"user"};
      }
      if Truthy(token) {
        storage := storage["token" := ToStr(token)];
      } else {
        storage := storage - {"token"};
      }
    }

    method Login(outcome: AuthOutcome) returns (ok: bool)
      modifies this`user, this`token, this`error
      ensures AuthResult(user, token, error, ok) == AuthTransition(old(user), old(token), outcome, "Login failed")
    {
      error := Str("");
      match outcome
      case Accepted(reply) =>
        user := Some(if reply.user.Some? then reply.user.value else reply.json);
        token := reply.token;
        ok := true;
      case Rejected(message) =>
        error := Or(message, Str("Login failed"));
        ok := false;
      case Thrown =>
        error := Str("Network error");
        ok := false;
    }

    method Register(outcome: AuthOutcome) returns (ok: bool)
      modifies this`user, this`token, this`error
      ensures AuthResult(user, token, error, ok) == AuthTransition(old(user), old(token), outcome, "Registration failed")
    {
      error := Str("");
      match outcome
      case Accepted(reply) =>
        user := Some(if reply.user.Some? then reply.user.value else reply.json);
        token := reply.token;
        ok := true;
      case Rejected(message) =>
        error := Or(message, Str("Registration failed"));
        ok := false;
      case Thrown =>
        error := Str("Network error");
        ok := false;
    }

    method Logout()
      modifies this`user, this`token
      ensures user == None && token == Null
    {
      user := None;
      token := Null;
    }
  }
}
