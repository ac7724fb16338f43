# Car gallery client: image cache, cursor and session, modelled in Dafny

This project models the stateful core of a React client that signs a user
in, looks up a car listing and shows its photos one at a time. It covers
four source files:

- `src/car/CarDetailsScreen.jsx`, module `CarDetails`. The photo cursor,
  the loading flag and fetching images into the shared cache. This
  includes skipping ids that are already cached, the prefetch effect for
  the current and next image, and the "search for another car" teardown
  that revokes every cached object URL.
- `src/car/CarDataScreen.jsx`, module `CarData`. The lookup handler. It
  resets the error, car record and cache, installs the returned ids with
  the cursor at 0 and primes the first two images. The module also covers
  this screen's own fetch, next and previous handlers.
- `src/auth/session.jsx`, module `AuthSession`. The session provider: the
  initial user and token read from storage, the effect that keeps storage
  in step, the result handling of `login` and `register`, `logout`, and
  the request that `authFetch` builds.
- `src/session.jsx`, module `LegacySession`. The older provider. Its
  initial token comes from `'token'` only, and `authFetch` passes the URL
  through unchanged.

Module `Gallery` holds the logic that both screens duplicate: cache keys,
the cache update after a fetch, the bounded cursor, the prefetch windows
and what a teardown revokes. Module `Js` holds the JavaScript value rules
the code relies on (truthiness, `a || b`, `String(v)`). Module `Wrappers`
holds `Option` and `Result`.

The network is a parameter. Each lookup, login or image fetch takes the
outcome it ended with. Object URLs are opaque strings. The browser's
revocations are a ghost multiset kept in the session, shared by both
screens. Storage is a `map<string, string>`. An
image fetch is split into the part that runs when it is called
(`BeginFetch`) and the part that runs when its response arrives
(`CompleteFetch`). Two calls made in the same effect therefore both see
the same cache, and responses can be applied in any order.

These behaviours of the source are modelled as written:

- The details screen suppresses a fetch only when the id is already
  cached. It has no in-flight gate, so two requests for one id can be
  outstanding.
- The details screen's image requests use `carData?.token` as bearer,
  not the session token (`src/car/CarDetailsScreen.jsx:23`).
- The lookup empties the cache without revoking its URLs
  (`src/car/CarDataScreen.jsx:33,52`). A fetch completing for a key that
  is already cached overwrites its URL without revoking the old one
  (`src/car/CarDetailsScreen.jsx:29`, `src/car/CarDataScreen.jsx:84`).
  Both steps leave the session's revocation record unchanged, so every
  URL they drop is leaked (`CarData.RefetchCachedWitness` shows one).
- The sync effect never removes `'access_token'`. After `logout`, a
  reload reads a stored `'access_token'` back as the token
  (`AuthSession.ReloadAfterSync`). The older provider does come back
  signed out (`LegacySession.ReloadAfterLogoutSignedOut`).
- `CarDataScreen`'s `handleNext` and `handlePrev` are not bound to any
  rendered element. They are modelled anyway.

## Model

| member | source | states |
|---|---|---|
| `Gallery.Store` | src/car/CarDetailsScreen.jsx:27-29 | a successful fetch adds or replaces only the entry for the fetched id (which is then cached when the URL is truthy); every other entry is unchanged; a failed fetch leaves the cache unchanged |
| `Gallery.Uncached` | src/car/CarDetailsScreen.jsx:17 | the ids not cached are kept in their order (a subsequence of the targets), each as often as it occurs among the targets, and cached ones not at all |
| `Gallery.Next` | src/car/CarDetailsScreen.jsx:47-52 | advances by one exactly when the cursor is before `N-1`, otherwise stays; keeps the cursor in `[0, N-1]` |
| `Gallery.Prev` | src/car/CarDetailsScreen.jsx:53-55 | steps back by one exactly when the cursor is above 0, otherwise stays; never goes below 0 |
| `Gallery.NextDisabled` | src/car/CarDetailsScreen.jsx:113 | the next button is disabled exactly at the cursors where next does nothing |
| `Gallery.PrevDisabled` | src/car/CarDetailsScreen.jsx:105 | the previous button is disabled exactly at the cursors where previous does nothing |
| `Gallery.WalkStaysInRange` | src/car/CarDetailsScreen.jsx:47-55 | any sequence of next/previous presses keeps the cursor within `[0, N-1]` |
| `Gallery.ForwardWalk` | src/car/CarDetailsScreen.jsx:47-52 | `k` presses of next from `i` land on `min(i + k, N - 1)` |
| `Gallery.BackWalk` | src/car/CarDetailsScreen.jsx:53-55 | `k` presses of previous from `i` land on `max(i - k, 0)` |
| `Gallery.PrefetchTargets` | src/car/CarDetailsScreen.jsx:38-44 | the effect targets one or two ids, the `i`-th being the id `i` places after the cursor; a second one exactly when the next id exists and is truthy |
| `Gallery.NextWasPrefetched` | src/car/CarDetailsScreen.jsx:38-52 | when the next id is truthy, the image that next makes current was the second target of the previous window |
| `Gallery.LookupTargets` | src/car/CarDataScreen.jsx:53-58 | a lookup primes exactly the first `min(N, 2)` ids, in order |
| `Gallery.LookupMatchesCursorWindow` | src/car/CarDataScreen.jsx:53-58 | the lookup's priming equals the details screen's window at cursor 0 exactly when there is one id or the second id is truthy |
| `Gallery.RevocationsOfRemove` | src/car/CarDetailsScreen.jsx:70-72 | what the teardown revokes does not depend on the order it visits the cache entries |
| `Gallery.RevokedExactlyOnce` | src/car/CarDetailsScreen.jsx:70-72 | when cached URLs are distinct, the teardown revokes each truthy cached URL exactly once and nothing else |
| `Gallery.RevokesEveryTruthyUrl` | src/car/CarDetailsScreen.jsx:70-72 | every truthy URL in the cache is revoked at least once by the teardown, whether or not URLs repeat |
| `Gallery.ResetDropsEveryUrl` | src/car/CarDataScreen.jsx:33 | replacing the cache by `{}` drops every truthy URL it held |
| `Gallery.OverwriteDropsUrl` | src/car/CarDataScreen.jsx:84 | a successful fetch for a key that holds another truthy URL, held by no other key, drops that URL from the cache |
| `AuthSession.InitialUser` | src/auth/session.jsx:7-10 | there is an initial user exactly when a truthy `'user'` is stored, and it is that value |
| `AuthSession.InitialToken` | src/auth/session.jsx:11-13 | the initial token is the stored `'token'` when it is truthy and otherwise whatever `getItem('access_token')` gives (the string or null); it is truthy exactly when one of the two is |
| `AuthSession.Synced` | src/auth/session.jsx:18-23 | after the sync, `'user'` is present exactly when there is a user and `'token'` exactly when the token is truthy; every other key, `'access_token'` included, is as before |
| `AuthSession.SyncedIsIdempotent` | src/auth/session.jsx:18-23 | running the sync twice on the same user and token gives the storage of running it once |
| `AuthSession.ReloadAfterSync` | src/auth/session.jsx:7-23 | a reload after the sync restores the user and, when truthy, the token's string form; a falsy token (after logout) brings back the stored `'access_token'` |
| `AuthSession.AuthTransition` | src/auth/session.jsx:25-70 | success stores `data.user` or else `data`, stores `data.token`, clears the error and returns true; failure keeps user and token, returns false and sets a truthy error: `err.message` or the fallback, or `'Network error'` on a throw |
| `AuthSession.NormalizePath` | src/auth/session.jsx:88 | the path always starts with `/`, and is the URL itself or `/` + URL |
| `AuthSession.NormalizePathIdempotent` | src/auth/session.jsx:88 | normalising twice gives the same path as normalising once |
| `AuthSession.Authorized` | src/auth/session.jsx:81-87 | every caller option and header is kept except `Authorization`, which becomes `Bearer <token>`; no other header is added |
| `AuthSession.ReauthorizeLastWins` | src/auth/session.jsx:81-87 | authorizing already authorized options again yields the options authorized with the last token only |
| `AuthSession.AuthFetchRequest` | src/auth/session.jsx:79-89 | `'No token'` exactly when the token is falsy; otherwise the host joined with the normalised path, with the authorized options |
| `AuthSession.Session.constructor` | src/auth/session.jsx:6-16 | the provider starts with the stored user and token, an empty error, no car record, an empty cache and no revocations |
| `AuthSession.Session.SyncStorage` | src/auth/session.jsx:18-23 | storage becomes the synced storage of the current user and token; nothing else changes |
| `AuthSession.Session.Login` | src/auth/session.jsx:25-47 | user, token, error and result follow the login transition with fallback `'Login failed'` |
| `AuthSession.Session.Register` | src/auth/session.jsx:49-71 | user, token, error and result follow the same transition with fallback `'Registration failed'` |
| `AuthSession.Session.Logout` | src/auth/session.jsx:73-76 | user and token become null; car record and image cache are unchanged |
| `AuthSession.Session.AuthFetch` | src/auth/session.jsx:79-89 | the request built from the session's host and current token: `'No token'` exactly when the token is falsy; otherwise the host joined with the normalised path and an `Authorization` header of `Bearer <token>` |
| `LegacySession.LegacyInitialToken` | src/session.jsx:10 | the initial token is the stored `'token'`, or null when none is stored |
| `LegacySession.InitialTokensAgree` | src/session.jsx:10 | without a stored `'access_token'` (and with no empty `'token'`), the older and the live provider start from the same token |
| `LegacySession.ReloadAfterLogoutSignedOut` | src/session.jsx:13-18 | after logout and the sync, a reload starts with no user and a null token |
| `LegacySession.LegacyAuthFetchRequest` | src/session.jsx:74-84 | `'No token'` exactly when the token is falsy; otherwise the URL unchanged, with the authorized options |
| `LegacySession.LegacySessionState.constructor` | src/session.jsx:5-11 | the provider starts with the stored user, the stored `'token'` and an empty error |
| `LegacySession.LegacySessionState.SyncStorage` | src/session.jsx:13-18 | storage becomes the synced storage of the current user and token |
| `LegacySession.LegacySessionState.Login` | src/session.jsx:20-42 | follows the login transition with fallback `'Login failed'` |
| `LegacySession.LegacySessionState.Register` | src/session.jsx:44-66 | follows the login transition with fallback `'Registration failed'` |
| `LegacySession.LegacySessionState.Logout` | src/session.jsx:68-71 | user and token become null |
| `CarDetails.DetailsHeaderFromRecord` | src/car/CarDetailsScreen.jsx:23 | the image request's header depends on the car record alone, never the session token: it is the bare `Bearer ` exactly when the record has no truthy token |
| `CarDetails.DetailsScreen.constructor` | src/car/CarDetailsScreen.jsx:12-13 | the cursor starts at 0, not loading, with the cursor invariant |
| `CarDetails.DetailsScreen.BeginFetch` | src/car/CarDetailsScreen.jsx:16-26 | no request and no change exactly when the id is cached; otherwise loading is set, one request for the id goes out with the car record's bearer, and the spinner replaces the image (render condition of lines 107-111) |
| `CarDetails.DetailsScreen.CompleteFetch` | src/car/CarDetailsScreen.jsx:27-33 | the cache becomes the stored cache for this outcome (only the fetched key may change) and loading is false; a truthy URL for the current id makes the image show, a failure shows it only if it was cached before; nothing is revoked, so a URL it overwrites leaks |
| `CarDetails.DetailsScreen.Window` | src/car/CarDetailsScreen.jsx:38-44 | the effect's window has at most two ids |
| `CarDetails.DetailsScreen.PrefetchEffect` | src/car/CarDetailsScreen.jsx:38-44 | exactly the uncached ids of the window are requested, in order and once per occurrence, at most two, none behind the cursor; loading is set when a request goes out |
| `CarDetails.DetailsScreen.HandleNext` | src/car/CarDetailsScreen.jsx:47-52 | the cursor becomes next of the old cursor over `N` images and stays within bounds |
| `CarDetails.DetailsScreen.HandlePrev` | src/car/CarDetailsScreen.jsx:53-55 | the cursor becomes previous of the old cursor and stays within bounds |
| `CarDetails.DetailsScreen.HandleSearchAnother` | src/car/CarDetailsScreen.jsx:68-76 | every truthy cached URL is revoked, once per cache entry, so every URL dropped is revoked; then the cache is empty and the car record is null |
| `CarData.DataScreen.constructor` | src/car/CarDataScreen.jsx:17-20 | empty URL and error, cursor 0, no ids |
| `CarData.DataScreen.HandleInput` | src/car/CarDataScreen.jsx:25-27 | the listing URL becomes the typed value |
| `CarData.DataScreen.BeginFetch` | src/car/CarDataScreen.jsx:69-81 | the cache is unchanged and a request with the session token goes out even for a cached id |
| `CarData.DataScreen.BeginFetchDeduped` | src/car/CarDataScreen.jsx:70-73 | no request exactly when the id is cached; otherwise the request with the session token |
| `CarData.DataScreen.CompleteFetch` | src/car/CarDataScreen.jsx:82-86 | the cache becomes the stored cache for this outcome: only the fetched key may change, and failures change nothing; nothing is revoked, so a URL it overwrites leaks |
| `CarData.DataScreen.HandleCarData` | src/car/CarDataScreen.jsx:29-67 | an empty URL gives the prompt error, no request and no record; a found record installs its ids, cursor 0 and an empty cache and requests exactly the first `min(N, 2)` images; a refusal sets `err.detail` or `'Failed to fetch car data'`, a throw sets `'Network error'`, and both leave no record; every truthy URL of the old cache is dropped and none is revoked |
| `CarData.DataScreen.HandleNext` | src/car/CarDataScreen.jsx:89-97 | the cursor becomes next of the old cursor; the handler throws exactly when it advanced and the id after the new cursor is truthy |
| `CarData.DataScreen.HandleNextIntended` | src/car/CarDataScreen.jsx:89-97 | the cursor becomes next of the old cursor; a request goes out exactly when it advanced and the id after the new cursor exists, is truthy and is not cached |
| `CarData.DataScreen.HandlePrev` | src/car/CarDataScreen.jsx:99-101 | the cursor becomes previous of the old cursor and stays within bounds |

## Left out

- JSX layout, styling, the `Loading car details...` guard on the route's `carId` (`src/car/CarDetailsScreen.jsx:58`) and all navigation (`navigate`): these are UI and routing, with no state of the core.
- React scheduling: effects, batching and stale closures. Each handler or effect body is one step on explicit state. The prefetch effect's two calls see the same cache, as they do in the source.
- Concurrency: the shared `loadingImg` flag is cleared by whichever fetch completes first, and requests can overlap across screens. Completions are separate steps in any order. There is no model of the moment at which a response arrives.
- `fetch`, `res.json()`, `res.blob()`, `URL.createObjectURL`/`revokeObjectURL`, `localStorage` and `JSON.parse`/`stringify` are browser APIs. Their results are parameters. The user object is carried as its JSON text, so stringify and parse are the identity on it, and a malformed stored `'user'` (a throw from `JSON.parse`) is not modelled.
- The request bodies, methods and endpoints of `login`/`register` (the older provider hard-codes `http://localhost:8000`), and the `Accept`/`Content-Type` headers: these are request glue. Only the outcome of each request is modelled.
- `src/auth/LoginPage.jsx`, `src/auth/LoginModal.jsx`, `src/auth/RegisterPage.jsx`, `src/App.jsx` and `src/HomePage.jsx` are form and routing glue and are not part of this model. `src/auth/RegisterPage.jsx:14` calls `register` with three positional arguments, while `src/auth/session.jsx:49` takes one object.
- A stored `'user'` whose JSON text parses to a falsy value (`null`, `false`, `0`, `""`) gives a falsy user in the source (`src/auth/session.jsx:8-9`), while `AuthSession.InitialUser` returns that text as a user. The user is carried as JSON text, not as the parsed value, so this case is not modelled.
- The details screen's `fetchAndCacheImage` has `try`/`finally` with no `catch` (`src/car/CarDetailsScreen.jsx:19-33`). A throw from `fetch` or `res.blob()` clears the loading flag and then rejects a promise that no caller handles. `CarDetails.DetailsScreen.CompleteFetch` gives `Thrown` the same state change as `NotOk` and does not model the unhandled rejection. The data screen swallows the throw with `catch {}` (`src/car/CarDataScreen.jsx:86`).
- JavaScript numbers are modelled as integers. Header names are compared exactly, so a caller's lower-case `authorization` header would be kept next to `Authorization`. `fetch` merges the two case-insensitively.
- The order in which the teardown visits cache entries is not modelled. `Object.values` lists integer-like keys such as `"1"` and `"7"` first, in ascending numeric order, and the other keys after them in insertion order. The revocations are stated as a multiset, which does not depend on order.
- CarDetails.DetailsScreen.PrefetchEffect: requires a car record. The source evaluates `carData.image_ids` without a null check, and already in the dependency list during render (`src/car/CarDetailsScreen.jsx:44`), so with no record the render throws before the effect could run.
- CarDetails.DetailsScreen.HandleNext: requires `image_ids` to be present. The source reads `ids.length` unguarded, and its button is only rendered when the list is present and non-empty (`src/car/CarDetailsScreen.jsx:102`).

## Findings

| source | as written | input that shows it | evidently intended | confidence | as-written member | corrected member |
|---|---|---|---|---|---|---|
| src/car/CarDataScreen.jsx:70-73 | the cache-check updater returns `prev` in both branches and the function goes on to fetch, so an already cached id is fetched again | cache holding id `7`, then `fetchAndCacheImage(7)` sends a request (`CarData.RefetchCachedWitness`) | return early without a request when `imageCache[id]` is truthy | high (not executed) | `CarData.DataScreen.BeginFetch` | `CarData.DataScreen.BeginFetchDeduped` |
| src/car/CarDataScreen.jsx:95 | `imageCache` is never brought into scope (only `setImageCache` is taken from the session at line 21), so `handleNext` throws a ReferenceError once it has advanced whenever the id after the new cursor is truthy, and the prefetch never happens | ids `[1, 2, 3]` at cursor 0: next moves to 1 and throws (`CarData.NextThrowsWitness`) | read the session's cache and request the id after the new cursor if it is not cached | high (not executed) | `CarData.DataScreen.HandleNext` | `CarData.DataScreen.HandleNextIntended` |

The screen classes keep the behaviour as written. The corrected members
stand beside them: the witnesses call both and show where they differ.
