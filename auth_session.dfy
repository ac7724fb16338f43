/**
 * The session provider of src/auth/session.jsx: the signed-in user, the
 * bearer token, the last authentication error, the car record and image
 * cache shared with the car screens, and the browser storage the provider
 * keeps in step with user and token. Network replies are parameters; the
 * user object is carried as its JSON text, so that `JSON.stringify` and
 * `JSON.parse` are the identity on it.
 */
module AuthSession {
  import opened Wrappers
  import opened Js
  import opened Gallery

  /** The host used when `VITE_BACKEND_HOST` is not set. */
  const DefaultHost := "http://localhost:8000"

  /** `import.meta.env.VITE_BACKEND_HOST || 'http://localhost:8000'`. */
  function ApiHost(env: JsValue): string
  {
    ToStr(Or(env, Str(DefaultHost)))
  }

  /** `localStorage.getItem(key)`: the stored string, or `null`. */
  function GetItem(storage: map<string, string>, key: string): (r: JsValue)
    ensures r.Null? || r.Str?
    ensures r.Str? <==> key in storage
    ensures key in storage ==> r.s == storage[key]
  {
    if key in storage then Str(storage[key]) else Null
  }

  /** The initial user: the stored `'user'` JSON when it is truthy, else `null`. */
  function InitialUser(storage: map<string, string>): (r: Option<string>)
    ensures r.Some? <==> "user" in storage && storage["user"] != ""
    ensures r.Some? ==> r.value == storage["user"]
  {
    if Truthy(GetItem(storage, "user")) then Some(storage["user"]) else None
  }

  /** The initial token: `getItem('token') || getItem('access_token')`. */
  function InitialToken(storage: map<string, string>): (r: JsValue)
    ensures Truthy(GetItem(storage, "token")) ==> r == GetItem(storage, "token")
    ensures !Truthy(GetItem(storage, "token")) ==> r == GetItem(storage, "access_token")
    ensures Truthy(r) <==> Truthy(GetItem(storage, "token")) || Truthy(GetItem(storage, "access_token"))
  {
    Or(GetItem(storage, "token"), GetItem(storage, "access_token"))
  }

  /**
   * Storage after the sync effect: `'user'` written or removed by the user,
   * `'token'` written or removed by the token's truthiness; every other key,
   * `'access_token'` among them, as it was.
   */
  function Synced(storage: map<string, string>, user: Option<string>, token: JsValue): (r: map<string, string>)
    ensures "user" in r <==> user.Some?
    ensures user.Some? ==> r["user"] == user.value
    ensures "token" in r <==> Truthy(token)
    ensures Truthy(token) ==> r["token"] == ToStr(token)
    ensures forall k :: k != "user" && k != "token" ==> (k in r <==> k in storage)
    ensures forall k :: k != "user" && k != "token" && k in r ==> r[k] == storage[k]
  {
    var withUser := if user.Some? then storage["user" := user.value] else storage - {"user"};
    if Truthy(token) then withUser["token" := ToStr(token)] else withUser - {"token"}
  }

  /** Running the sync effect again without a state change writes nothing new. */
  lemma SyncedIsIdempotent(storage: map<string, string>, user: Option<string>, token: JsValue)
    ensures Synced(Synced(storage, user, token), user, token) == Synced(storage, user, token)
  {
    var once := Synced(storage, user, token);
    var twice := Synced(once, user, token);
    assert twice.Keys == once.Keys;
  }

  /**
   * A reload after the sync effect restores the user, and the token in its
   * string form when it is truthy. When it is not, the stored
   * `'access_token'` (never touched by the sync) comes back as the token:
   * after `logout` and a reload a stored `'access_token'` signs the session
   * back in.
   */
  lemma ReloadAfterSync(storage: map<string, string>, user: Option<string>, token: JsValue)
    requires user.Some? ==> user.value != ""
    ensures InitialUser(Synced(storage, user, token)) == user
    ensures Truthy(token) ==> InitialToken(Synced(storage, user, token)) == Str(ToStr(token))
    ensures !Truthy(token) ==> InitialToken(Synced(storage, user, token)) == GetItem(storage, "access_token")
  {
    var s := Synced(storage, user, token);
    assert GetItem(s, "access_token") == GetItem(storage, "access_token");
    if Truthy(token) {
      assert ToStr(token) != "" by {
        match token
        case Num(n) =>
        case Str(_) =>
      }
    }
  }

  // ---------------------------------------------------------------------------
  // login and register

  /**
   * A successful reply's JSON body: `data.user` as JSON text when that field
   * is present and truthy, `data.token`, and the whole body as JSON text.
   */
  datatype AuthReply = AuthReply(user: Option<string>, token: JsValue, json: string)

  /** How a login or registration request ended. */
  datatype AuthOutcome =
    | Accepted(reply: AuthReply)     // `res.ok`
    | Rejected(message: JsValue)     // not ok; `err.message` of the error body
    | Thrown                         // `fetch` or `res.json()` threw

  /** The user, token and error after one login or registration, and its return value. */
  datatype AuthResult = AuthResult(user: Option<string>, token: JsValue, error: JsValue, ok: bool)

  /**
   * The state change of `login`/`register`, which differ only in the
   * fallback message. Success stores `data.user || data` and `data.token`
   * with an empty error; failure keeps user and token and always leaves a
   * truthy error.
   */
  function AuthTransition(user: Option<string>, token: JsValue, outcome: AuthOutcome, fallback: string): (r: AuthResult)
    requires fallback != ""
    ensures r.ok <==> outcome.Accepted?
    ensures outcome.Accepted? ==> r.user.Some? && r.token == outcome.reply.token && r.error == Str("")
    ensures outcome.Accepted? && outcome.reply.user.Some? ==> r.user == outcome.reply.user
    ensures outcome.Accepted? && outcome.reply.user.None? ==> r.user == Some(outcome.reply.json)
    ensures !outcome.Accepted? ==> r.user == user && r.token == token && Truthy(r.error)
    ensures outcome.Rejected? && Truthy(outcome.message) ==> r.error == outcome.message
    ensures outcome.Rejected? && !Truthy(outcome.message) ==> r.error == Str(fallback)
    ensures outcome.Thrown? ==> r.error == Str("Network error")
  {
    match outcome
    case Accepted(reply) =>
      var u := if reply.user.Some? then reply.user.value else reply.json;
      AuthResult(Some(u), reply.token, Str(""), true)
    case Rejected(message) =>
      AuthResult(user, token, Or(message, Str(fallback)), false)
    case Thrown =>
      AuthResult(user, token, Str("Network error"), false)
  }

  // ---------------------------------------------------------------------------
  // authFetch

  /** Fetch options: every property but `headers`, and the headers object if any. */
  datatype RequestInit = RequestInit(props: map<string, string>, headers: Option<map<string, string>>)

  /** The arguments `authFetch` passes to `fetch`. */
  datatype Request = Request(url: string, init: RequestInit)

  /** `url.startsWith('/') ? url : '/' + url`. */
  function NormalizePath(url: string): (r: string)
    ensures |r| > 0 && r[0] == '/'
    ensures r == url || r == "/" + url
    ensures |url| > 0 && url[0] == '/' ==> r == url
  {
    if |url| > 0 && url[0] == '/' then url else "/" + url
  }

  /** Normalising a path twice gives the same path as normalising it once. */
  lemma NormalizePathIdempotent(url: string)
    ensures NormalizePath(NormalizePath(url)) == NormalizePath(url)
  {
  }

  /**
   * `{...options, headers: {...(options.headers || {}), Authorization: 'Bearer ' + token}}`:
   * every option and header the caller gave is kept, except that
   * `Authorization` is set to the session's bearer.
   */
  function Authorized(options: RequestInit, token: JsValue): (r: RequestInit)
    ensures r.props == options.props
    ensures r.headers.Some?
    ensures "Authorization" in r.headers.value
    ensures r.headers.value["Authorization"] == "Bearer " + ToStr(token)
    ensures forall h :: h != "Authorization" && options.headers.Some? && h in options.headers.value ==>
              h in r.headers.value && r.headers.value[h] == options.headers.value[h]
    ensures forall h :: h in r.headers.value && h != "Authorization" ==>
              options.headers.Some? && h in options.headers.value
  {
    var given := if options.headers.Some? then options.headers.value else map[];
    RequestInit(options.props, Some(given["Authorization" := "Bearer " + ToStr(token)]))
  }

  /** Authorizing already authorized options with another token: the last token wins. */
  lemma ReauthorizeLastWins(options: RequestInit, first: JsValue, second: JsValue)
    ensures Authorized(Authorized(options, first), second) == Authorized(options, second)
  {
    var given := if options.headers.Some? then options.headers.value else map[];
    var bearer := "Bearer " + ToStr(second);
    var once := Authorized(options, first).headers.value;
    assert once == given["Authorization" := "Bearer " + ToStr(first)];
    assert once["Authorization" := bearer] == given["Authorization" := bearer];
  }

  /**
   * `authFetch(url, options)` up to the call to `fetch`: it throws
   * `'No token'` when the token is falsy; otherwise it requests
   * `API_HOST` joined with the normalised path, with the authorized options.
   */
  function AuthFetchRequest(host: string, token: JsValue, url: string, options: RequestInit): (r: Result<Request, string>)
    ensures r.Err? <==> !Truthy(token)
    ensures r.Err? ==> r.error == "No token"
    ensures r.Ok? ==> r.value.url == host + NormalizePath(url)
    ensures r.Ok? ==> r.value.init == Authorized(options, token)
  {
    if !Truthy(token) then Err("No token")
    else Ok(Request(host + NormalizePath(url), Authorized(options, token)))
  }

  /** The session provider's state. */
  class Session {
    const host: string
    var user: Option<string>
    var token: JsValue
    var error: JsValue
    var carData: Option<CarRecord>
    var imageCache: ImageCache
    var storage: map<string, string>
    /** Every object URL handed to `URL.revokeObjectURL` so far, by any screen. */
    ghost var revoked: multiset<Url>

    /** Mounting the provider: user and token from storage, everything else empty. */
    constructor (env: JsValue, storage: map<string, string>)
      ensures host == ApiHost(env) && this.storage == storage
      ensures user == InitialUser(storage) && token == InitialToken(storage)
      ensures error == Str("") && carData == None && imageCache == map[]
      ensures revoked == multiset{}
    {
      host := ApiHost(env);
      this.storage := storage;
      user := InitialUser(storage);
      token := InitialToken(storage);
      error := Str("");
      carData := None;
      imageCache := map[];
      revoked := multiset{};
    }

    /** The effect on `[user, token]`: write or remove the two storage keys. */
    method SyncStorage()
      modifies this`storage
      ensures storage == Synced(old(storage), user, token)
    {
      if user.Some? {
        storage := storage["user" := user.value];
      } else {
        storage := storage - {"user"};
      }
      if Truthy(token) {
        storage := storage["token" := ToStr(token)];
      } else {
        storage := storage - {"token"};
      }
    }

    /** `login(loginData)` once its request has ended with `outcome`. */
    method Login(outcome: AuthOutcome) returns (ok: bool)
      modifies this`user, this`token, this`error
      ensures AuthResult(user, token, error, ok) == AuthTransition(old(user), old(token), outcome, "Login failed")
    {
      error := Str("");
      match outcome
      case Accepted(reply) =>
        user := Some(if reply.user.Some? then reply.user.value else reply.json);
        token := reply.token;
        ok := true;
      case Rejected(message) =>
        error := Or(message, Str("Login failed"));
        ok := false;
      case Thrown =>
        error := Str("Network error");
        ok := false;
    }

    /** `register(registerData)` once its request has ended with `outcome`. */
    method Register(outcome: AuthOutcome) returns (ok: bool)
      modifies this`user, this`token, this`error
      ensures AuthResult(user, token, error, ok) == AuthTransition(old(user), old(token), outcome, "Registration failed")
    {
      error := Str("");
      match outcome
      case Accepted(reply) =>
        user := Some(if reply.user.Some? then reply.user.value else reply.json);
        token := reply.token;
        ok := true;
      case Rejected(message) =>
        error := Or(message, Str("Registration failed"));
        ok := false;
      case Thrown =>
        error := Str("Network error");
        ok := false;
    }

    /** `logout`: user and token become null; the car record and image cache stay. */
    method Logout()
      modifies this`user, this`token
      ensures user == None && token == Null
      ensures carData == old(carData) && imageCache == old(imageCache)
    {
      user := None;
      token := Null;
    }

    /** `authFetch(url, options)` with the session's current token. */
    function AuthFetch(url: string, options: RequestInit): (r: Result<Request, string>)
      reads this
      ensures r == AuthFetchRequest(host, token, url, options)
      ensures r.Err? <==> !Truthy(token)
      ensures r.Ok? ==> r.value.url == host + NormalizePath(url)
      ensures r.Ok? ==> r.value.init.headers.Some? && "Authorization" in r.value.init.headers.value
      ensures r.Ok? ==> r.value.init.headers.value["Authorization"] == "Bearer " + ToStr(token)
    {
      AuthFetchRequest(host, token, url, options)
    }
  }
}
