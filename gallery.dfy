/**
 * Gallery logic that the two car screens share: the image cache keyed by
 * the string form of an image id, the bounded cursor, the prefetch windows
 * and what tearing the cache down releases. Both screens duplicate this
 * logic in src/car/CarDetailsScreen.jsx and src/car/CarDataScreen.jsx;
 * here it is stated once and each screen's class uses it.
 */
module Gallery {
  import opened Wrappers
  import opened Js

  /** An object URL created for a fetched image blob; `''` would be falsy. */
  type Url = string

  /** The session's image cache: property key (`String(id)`) to object URL. */
  type ImageCache = map<string, Url>

  /**
   * The car record kept in the session: `{...data, id: String(data.car_id)}`
   * as far as the gallery reads it (its id, its `image_ids`, which may be
   * missing, and a `token` field, which the details screen sends as bearer).
   */
  datatype CarRecord = CarRecord(id: string, imageIds: Option<seq<JsValue>>, token: JsValue)

  /** How one image request ended: a blob turned into an object URL, a non-ok status, or a throw. */
  datatype FetchOutcome = Loaded(url: Url) | NotOk | Thrown

  /** A `GET <host>/car-image/<id>` request and its `Authorization` header. */
  datatype ImageRequest = ImageRequest(url: string, authorization: string)

  /** The property key under which `imageCache[id]` is looked up and stored. */
  function Key(id: JsValue): string
  {
    ToStr(id)
  }

  /** `imageCache[id]` is truthy. */
  predicate Cached(cache: ImageCache, id: JsValue)
  {
    Key(id) in cache && cache[Key(id)] != ""
  }

  function ImageRequestFor(host: string, id: JsValue, bearer: JsValue): ImageRequest
  {
    ImageRequest(host + "/car-image/" + Key(id), "Bearer " + ToStr(bearer))
  }

  /** The requests for the given ids, in order, all with the same bearer. */
  function RequestsFor(host: string, ids: seq<JsValue>, bearer: JsValue): (r: seq<ImageRequest>)
    ensures |r| == |ids|
    ensures forall i :: 0 <= i < |ids| ==> r[i] == ImageRequestFor(host, ids[i], bearer)
  {
    if ids == [] then [] else [ImageRequestFor(host, ids[0], bearer)] + RequestsFor(host, ids[1..], bearer)
  }

  /**
   * The cache after one image fetch completes: the updater
   * `prev => ({...prev, [id]: url})` on success, nothing otherwise.
   */
  function Store(cache: ImageCache, id: JsValue, outcome: FetchOutcome): (r: ImageCache)
    ensures outcome.Loaded? ==> r.Keys == cache.Keys + {Key(id)} && r[Key(id)] == outcome.url
    ensures !outcome.Loaded? ==> r == cache
    ensures forall k :: k != Key(id) && k in cache ==> k in r && r[k] == cache[k]
    ensures outcome.Loaded? && outcome.url != "" ==> Cached(r, id)
  {
    if outcome.Loaded? then cache[Key(id) := outcome.url] else cache
  }

  /** `a` is `b` with some elements left out, the rest kept in their order. */
  predicate SubsequenceOf<T(==)>(a: seq<T>, b: seq<T>)
    decreases |b|
  {
    if b == [] then a == []
    else (a != [] && a[0] == b[0] && SubsequenceOf(a[1..], b[1..])) || SubsequenceOf(a, b[1..])
  }

  /**
   * The ids among `targets` whose cache entry is not truthy, in order and
   * as often as they occur: nothing stops a repeated id from being
   * requested twice.
   */
  function Uncached(targets: seq<JsValue>, cache: ImageCache): (r: seq<JsValue>)
    ensures |r| <= |targets|
    ensures SubsequenceOf(r, targets)
    ensures forall t {:trigger multiset(r)[t]} :: multiset(r)[t] == if Cached(cache, t) then 0 else multiset(targets)[t]
    ensures forall t :: t in r ==> t in targets && !Cached(cache, t)
    ensures forall t :: t in targets && !Cached(cache, t) ==> t in r
  {
    if targets == [] then []
    else
      var rest := Uncached(targets[1..], cache);
      assert targets == [targets[0]] + targets[1..];
      assert multiset(targets) == multiset{targets[0]} + multiset(targets[1..]);
      if Cached(cache, targets[0]) then rest
      else
        assert ([targets[0]] + rest)[1..] == rest;
        [targets[0]] + rest
  }

  /** One step of `Uncached`: the first target is kept exactly when it is not cached. */
  lemma UncachedStep(targets: seq<JsValue>, cache: ImageCache)
    requires targets != []
    ensures Uncached(targets, cache) == (if Cached(cache, targets[0]) then [] else [targets[0]]) + Uncached(targets[1..], cache)
  {
  }

  // ---------------------------------------------------------------------------
  // The cursor

  function Min(a: int, b: int): int
  {
    if a <= b then a else b
  }

  function Max(a: int, b: int): int
  {
    if a <= b then b else a
  }

  /** `handleNext`: advance only while the cursor is before the last index. */
  function Next(idx: int, n: int): (r: int)
    ensures 0 <= idx < n ==> 0 <= r < n
    ensures r == idx + 1 <==> idx < n - 1
    ensures r != idx + 1 ==> r == idx
  {
    if idx < n - 1 then idx + 1 else idx
  }

  /** `handlePrev`: step back only while the cursor is after index 0. */
  function Prev(idx: int): (r: int)
    ensures 0 <= idx ==> 0 <= r <= idx
    ensures r == idx - 1 <==> idx > 0
    ensures r != idx - 1 ==> r == idx
  {
    if idx > 0 then idx - 1 else idx
  }

  /** The "next" button's `disabled` condition: it is disabled exactly where `Next` does nothing. */
  function NextDisabled(idx: int, n: int): (r: bool)
    ensures 0 <= idx < n ==> (r <==> Next(idx, n) == idx)
  {
    idx == n - 1
  }

  /** The "previous" button's `disabled` condition: it is disabled exactly where `Prev` does nothing. */
  function PrevDisabled(idx: int): (r: bool)
    ensures 0 <= idx ==> (r <==> Prev(idx) == idx)
  {
    idx == 0
  }

  /** One navigation gesture. */
  datatype Move = Forward | Back

  /** The cursor after a sequence of gestures over `n` images. */
  function Walk(idx: int, n: int, moves: seq<Move>): int
    decreases moves
  {
    if moves == [] then idx
    else
      var next := if moves[0] == Forward then Next(idx, n) else Prev(idx);
      Walk(next, n, moves[1..])
  }

  /** Whatever the user clicks, the cursor stays within `[0, n-1]`. */
  lemma {:induction false} WalkStaysInRange(idx: int, n: int, moves: seq<Move>)
    requires 0 <= idx < n
    ensures 0 <= Walk(idx, n, moves) < n
    decreases moves
  {
    if moves != [] {
      var next := if moves[0] == Forward then Next(idx, n) else Prev(idx);
      WalkStaysInRange(next, n, moves[1..]);
    }
  }

  /** `k` presses of "next" from `idx` land on `min(idx + k, n - 1)`. */
  lemma {:induction false} ForwardWalk(idx: int, n: int, k: nat)
    requires 0 <= idx < n
    ensures Walk(idx, n, seq(k, _ => Forward)) == Min(idx + k, n - 1)
    decreases k
  {
    var moves := seq(k, _ => Forward);
    if k > 0 {
      assert moves[1..] == seq(k - 1, _ => Forward);
      ForwardWalk(Next(idx, n), n, k - 1);
    }
  }

  /** `k` presses of "previous" from `idx` land on `max(idx - k, 0)`. */
  lemma {:induction false} BackWalk(idx: int, n: int, k: nat)
    requires 0 <= idx < n
    ensures Walk(idx, n, seq(k, _ => Back)) == Max(idx - k, 0)
    decreases k
  {
    var moves := seq(k, _ => Back);
    if k > 0 {
      assert moves[1..] == seq(k - 1, _ => Back);
      BackWalk(Prev(idx), n, k - 1);
    }
  }

  // ---------------------------------------------------------------------------
  // Prefetch windows

  /**
   * The details screen's prefetch effect: the current id, and the next one
   * when it exists and is truthy. At most two ids, none behind the cursor.
   */
  function PrefetchTargets(ids: seq<JsValue>, idx: nat): (r: seq<JsValue>)
    requires idx < |ids|
    ensures 1 <= |r| <= 2
    ensures forall i :: 0 <= i < |r| ==> idx + i < |ids| && r[i] == ids[idx + i]
    ensures |r| == 2 <==> idx + 1 < |ids| && Truthy(ids[idx + 1])
  {
    if idx + 1 < |ids| && Truthy(ids[idx + 1]) then [ids[idx], ids[idx + 1]] else [ids[idx]]
  }

  /** After "next", the image that becomes current was in the previous window, if its id is truthy. */
  lemma NextWasPrefetched(ids: seq<JsValue>, idx: nat)
    requires idx + 1 < |ids| && Truthy(ids[idx + 1])
    ensures Next(idx, |ids|) == idx + 1
    ensures ids[Next(idx, |ids|)] == PrefetchTargets(ids, idx)[1]
  {
  }

  /**
   * The data screen's priming after a lookup: `ids[0]` when there is one and
   * `ids[1]` when there are two, whatever their truthiness.
   */
  function LookupTargets(ids: seq<JsValue>): (r: seq<JsValue>)
    ensures |r| == Min(|ids|, 2)
    ensures r == ids[..|r|]
  {
    if |ids| == 0 then [] else if |ids| == 1 then [ids[0]] else [ids[0], ids[1]]
  }

  /** The two screens prime the same window at cursor 0, unless `ids[1]` is falsy. */
  lemma LookupMatchesCursorWindow(ids: seq<JsValue>)
    requires |ids| > 0
    ensures (|ids| == 1 || Truthy(ids[1])) <==> LookupTargets(ids) == PrefetchTargets(ids, 0)
  {
  }

  // ---------------------------------------------------------------------------
  // Teardown

  /** What revoking one cached value releases: `if (url) URL.revokeObjectURL(url)`. */
  function Revocation(url: Url): multiset<Url>
  {
    if url != "" then multiset{url} else multiset{}
  }

  /** The values of `cache` under `keys`. */
  function ValuesOf(cache: ImageCache, keys: set<string>): set<Url>
    requires keys <= cache.Keys
  {
    set k | k in keys :: cache[k]
  }

  /** Every revocation a walk over the entries under `keys` performs, as a multiset. */
  ghost function RevocationsOf(cache: ImageCache, keys: set<string>): multiset<Url>
    requires keys <= cache.Keys
    decreases keys
  {
    if keys == {} then multiset{}
    else
      var k :| k in keys;
      Revocation(cache[k]) + RevocationsOf(cache, keys - {k})
  }

  /** Every revocation a walk over the whole cache performs. */
  ghost function Revocations(cache: ImageCache): multiset<Url>
  {
    RevocationsOf(cache, cache.Keys)
  }

  /** The walk may visit the entries in any order: any key can be taken first. */
  lemma {:induction false} RevocationsOfRemove(cache: ImageCache, keys: set<string>, k: string)
    requires keys <= cache.Keys && k in keys
    ensures RevocationsOf(cache, keys) == Revocation(cache[k]) + RevocationsOf(cache, keys - {k})
    decreases keys
  {
    var j :| j in keys && RevocationsOf(cache, keys) == Revocation(cache[j]) + RevocationsOf(cache, keys - {j});
    if j != k {
      RevocationsOfRemove(cache, keys - {j}, k);
      RevocationsOfRemove(cache, keys - {k}, j);
      assert keys - {j} - {k} == keys - {k} - {j};
    }
  }

  /** No two keys of `cache` under `keys` hold the same object URL. */
  ghost predicate DistinctUrls(cache: ImageCache, keys: set<string>)
    requires keys <= cache.Keys
  {
    forall a, b :: a in keys && b in keys && a != b ==> cache[a] != cache[b]
  }

  /** Taking one key out of a set of keys with distinct URLs takes out exactly its URL. */
  lemma ValuesOfRemove(cache: ImageCache, keys: set<string>, k: string)
    requires keys <= cache.Keys && k in keys && DistinctUrls(cache, keys)
    ensures DistinctUrls(cache, keys - {k})
    ensures ValuesOf(cache, keys) == ValuesOf(cache, keys - {k}) + {cache[k]}
    ensures cache[k] !in ValuesOf(cache, keys - {k})
  {
    var rest := keys - {k};
    forall u | u in ValuesOf(cache, keys)
      ensures u in ValuesOf(cache, rest) + {cache[k]}
    {
      var j :| j in keys && cache[j] == u;
      if j != k { assert j in rest; }
    }
  }

  /**
   * When the cached URLs are distinct, the teardown revokes every truthy
   * URL in the cache exactly once and nothing else.
   */
  lemma {:induction false} RevokedExactlyOnce(cache: ImageCache, keys: set<string>)
    requires keys <= cache.Keys && DistinctUrls(cache, keys)
    ensures forall u :: RevocationsOf(cache, keys)[u] == if u != "" && u in ValuesOf(cache, keys) then 1 else 0
    decreases keys
  {
    if keys != {} {
      var k :| k in keys;
      var rest := keys - {k};
      RevocationsOfRemove(cache, keys, k);
      ValuesOfRemove(cache, keys, k);
      RevokedExactlyOnce(cache, rest);
      forall u
        ensures RevocationsOf(cache, keys)[u] == if u != "" && u in ValuesOf(cache, keys) then 1 else 0
      {
        assert RevocationsOf(cache, keys)[u] == Revocation(cache[k])[u] + RevocationsOf(cache, rest)[u];
      }
    }
  }

  /** Every truthy URL held under `keys` is among the revocations of a walk over them. */
  lemma {:induction false} RevokesEveryTruthyUrl(cache: ImageCache, keys: set<string>)
    requires keys <= cache.Keys
    ensures forall k :: k in keys && cache[k] != "" ==> RevocationsOf(cache, keys)[cache[k]] >= 1
    decreases keys
  {
    if keys != {} {
      var j :| j in keys;
      RevocationsOfRemove(cache, keys, j);
      RevokesEveryTruthyUrl(cache, keys - {j});
      forall k | k in keys && cache[k] != ""
        ensures RevocationsOf(cache, keys)[cache[k]] >= 1
      {
        if k != j {
          assert k in keys - {j};
        }
      }
    }
  }

  // ---------------------------------------------------------------------------
  // Leaks

  /** The truthy object URLs `before` holds that `after` no longer holds under any key. */
  function DroppedUrls(before: ImageCache, after: ImageCache): set<Url>
  {
    set k | k in before && before[k] != "" && before[k] !in after.Values :: before[k]
  }

  /** Emptying the cache drops every truthy URL it held. */
  lemma ResetDropsEveryUrl(cache: ImageCache)
    ensures forall k :: k in cache && cache[k] != "" ==> cache[k] in DroppedUrls(cache, map[])
  {
  }

  /**
   * A successful fetch for an id that already holds a truthy URL drops that
   * URL, unless the new URL is the same or another key holds it too.
   */
  lemma OverwriteDropsUrl(cache: ImageCache, id: JsValue, url: Url)
    requires Key(id) in cache && cache[Key(id)] != "" && cache[Key(id)] != url
    requires forall k :: k in cache && k != Key(id) ==> cache[k] != cache[Key(id)]
    ensures cache[Key(id)] in DroppedUrls(cache, Store(cache, id, Loaded(url)))
  {
  }
}
