/**
 * The car lookup screen of src/car/CarDataScreen.jsx: the listing URL the
 * user typed, the page-level error, and the screen's own gallery state (the
 * id list kept in `imageIdsRef` and the cursor `imageIdx`) next to the car
 * record and image cache it writes into the session. The lookup and image
 * responses are parameters, and each image fetch is split into the part
 * that runs when it is called and the part that runs when its response
 * arrives. Two members correct the source, and two witness methods show
 * where the source as written departs from them.
 */
module CarData {
  import opened Wrappers
  import opened Js
  import opened Gallery
  import opened AuthSession

  /** The fields of the lookup reply the screen reads: `car_id`, `image_ids` and a `token`. */
  datatype CarResponse = CarResponse(carId: JsValue, imageIds: Option<seq<JsValue>>, token: JsValue)

  /** How the `POST /car-data` lookup ended. */
  datatype LookupOutcome =
    | Found(data: CarResponse)     // `res.ok`
    | Refused(detail: JsValue)     // not ok; `err.detail` of the error body
    | Thrown                       // `fetch` or `res.json()` threw

  /** The `POST <host>/car-data` request: its bearer header and the listing URL in its body. */
  datatype LookupRequest = LookupRequest(url: string, authorization: string, listing: string)

  /**
   * The session's copy of a found record, `{...data, id: String(data.car_id)}`,
   * keeping everything the gallery reads from the reply.
   */
  function RecordOf(data: CarResponse): CarRecord
  {
    CarRecord(ToStr(data.carId), data.imageIds, data.token)
  }

  /** `data.image_ids || []`. */
  function IdsOrEmpty(ids: Option<seq<JsValue>>): seq<JsValue>
  {
    if ids.Some? then ids.value else []
  }

  /**
   * The cache-check updater at the top of `fetchAndCacheImage`: both of its
   * branches return the previous cache, so it changes nothing.
   */
  function DedupUpdater(prev: ImageCache, id: JsValue): ImageCache
  {
    if Cached(prev, id) then prev else prev
  }

  class DataScreen {
    const session: Session
    var carUrl: string
    var carError: JsValue
    var imageIdx: int
    /** `imageIdsRef.current`. */
    var imageIds: seq<JsValue>

    ghost predicate Valid()
      reads this
    {
      0 <= imageIdx < Max(1, |imageIds|)
    }

    /** Mounting the screen: empty URL and error, cursor 0, no ids. */
    constructor (session: Session)
      ensures this.session == session && Valid()
      ensures carUrl == "" && carError == Str("") && imageIdx == 0 && imageIds == []
    {
      this.session := session;
      carUrl := "";
      carError := Str("");
      imageIdx := 0;
      imageIds := [];
    }

    /** `handleInput`: the text field's value becomes the listing URL. */
    method HandleInput(value: string)
      requires Valid()
      modifies this`carUrl
      ensures Valid()
      ensures carUrl == value
    {
      carUrl := value;
    }

    /**
     * `fetchAndCacheImage(id)` up to its first `await`: the cache-check
     * updater leaves the cache as it is, and the request goes out whether or
     * not the id is already cached.
     */
    method BeginFetch(id: JsValue) returns (req: ImageRequest)
      requires Valid()
      modifies session`imageCache
      ensures Valid()
      ensures session.imageCache == old(session.imageCache)
      ensures req == ImageRequestFor(session.host, id, session.token)
    {
      session.imageCache := DedupUpdater(session.imageCache, id);
      req := ImageRequestFor(session.host, id, session.token);
    }

    /**
     * `fetchAndCacheImage(id)` as the cache check evidently means it: no
     * request when `imageCache[id]` is already truthy.
     */
    method BeginFetchDeduped(id: JsValue) returns (req: Option<ImageRequest>)
      ensures req.None? <==> Cached(session.imageCache, id)
      ensures req.Some? ==> req.value == ImageRequestFor(session.host, id, session.token)
    {
      if Cached(session.imageCache, id) {
        req := None;
      } else {
        req := Some(ImageRequestFor(session.host, id, session.token));
      }
    }

    /**
     * The rest of `fetchAndCacheImage(id)`: on success only the entry for
     * `id` changes; a non-ok status or a throw is swallowed and changes
     * nothing.
     */
    method CompleteFetch(id: JsValue, outcome: FetchOutcome)
      requires Valid()
      modifies session`imageCache
      ensures Valid()
      ensures session.imageCache == Store(old(session.imageCache), id, outcome)
      ensures session.revoked == old(session.revoked)
      ensures forall u :: u in DroppedUrls(old(session.imageCache), session.imageCache) ==>
                u !in session.imageCache.Values && session.revoked[u] == old(session.revoked)[u]
    {
      if outcome.Loaded? {
        session.imageCache := session.imageCache[Key(id) := outcome.url];
      }
    }

    /**
     * `handleCarData` once the lookup has ended with `outcome`. The error,
     * car record and cache are reset first (the cache without revoking its
     * URLs). An empty URL stops there with a prompt and no request. A found
     * record installs its ids with the cursor at 0 and an empty cache and
     * primes the first `min(N, 2)` images; a refusal or a throw only sets
     * the error. Every truthy URL the old cache held is dropped and none is
     * revoked: they leak.
     */
    method HandleCarData(outcome: LookupOutcome) returns (lookup: Option<LookupRequest>, reqs: seq<ImageRequest>)
      requires Valid()
      modifies this`carError, this`imageIdx, this`imageIds, session`carData, session`imageCache
      ensures Valid()
      ensures session.imageCache == map[]
      ensures session.revoked == old(session.revoked)
      ensures forall k :: k in old(session.imageCache) && old(session.imageCache)[k] != "" ==>
                old(session.imageCache)[k] in DroppedUrls(old(session.imageCache), session.imageCache)
      ensures carUrl == "" ==> lookup == None && reqs == [] && session.carData == None
      ensures carUrl == "" ==> carError == Str("Please enter a car listing URL.")
      ensures carUrl != "" ==> lookup == Some(LookupRequest(session.host + "/car-data", "Bearer " + ToStr(session.token), carUrl))
      ensures carUrl != "" && outcome.Found? ==>
                && session.carData == Some(RecordOf(outcome.data))
                && imageIds == IdsOrEmpty(outcome.data.imageIds)
                && imageIdx == 0
                && carError == Str("")
                && reqs == RequestsFor(session.host, LookupTargets(imageIds), session.token)
                && |reqs| == Min(|imageIds|, 2)
      ensures carUrl != "" && outcome.Refused? ==> carError == Or(outcome.detail, Str("Failed to fetch car data"))
      ensures carUrl != "" && outcome.Thrown? ==> carError == Str("Network error")
      ensures !(carUrl != "" && outcome.Found?) ==>
                reqs == [] && session.carData == None && imageIds == old(imageIds) && imageIdx == old(imageIdx)
    {
      ResetDropsEveryUrl(session.imageCache);
      carError := Str("");
      session.carData := None;
      session.imageCache := map[];
      reqs := [];
      if carUrl == "" {
        carError := Str("Please enter a car listing URL.");
        return None, [];
      }
      lookup := Some(LookupRequest(session.host + "/car-data", "Bearer " + ToStr(session.token), carUrl));
      match outcome
      case Found(data) =>
        session.carData := Some(RecordOf(data));
        imageIds := IdsOrEmpty(data.imageIds);
        imageIdx := 0;
        session.imageCache := map[];
        if data.imageIds.Some? && |data.imageIds.value| > 0 {
          var first := BeginFetch(data.imageIds.value[0]);
          reqs := [first];
          if |data.imageIds.value| > 1 {
            var second := BeginFetch(data.imageIds.value[1]);
            reqs := reqs + [second];
          }
        }
      case Refused(detail) =>
        carError := Or(detail, Str("Failed to fetch car data"));
      case Thrown =>
        carError := Str("Network error");
    }

    /**
     * `handleNext` as written: it advances unless on the last image, then
     * evaluates `imageCache[nextImageId]`, a name that is not in scope, so it
     * throws a ReferenceError whenever the id after the new cursor is
     * truthy. No prefetch ever goes out.
     */
    method HandleNext() returns (thrown: bool)
      requires Valid()
      modifies this`imageIdx
      ensures Valid()
      ensures imageIdx == Next(old(imageIdx), |imageIds|)
      ensures thrown <==> imageIdx == old(imageIdx) + 1 && imageIdx + 1 < |imageIds| && Truthy(imageIds[imageIdx + 1])
    {
      thrown := false;
      if imageIdx < |imageIds| - 1 {
        var nextIdx := imageIdx + 1;
        imageIdx := nextIdx;
        var nextImageId := if nextIdx + 1 < |imageIds| then imageIds[nextIdx + 1] else Undefined;
        if Truthy(nextImageId) {
          thrown := true;
        }
      }
    }

    /**
     * `handleNext` as evidently intended, reading the session's cache: after
     * advancing, the id one past the new cursor is requested when it exists,
     * is truthy and is not cached yet.
     */
    method HandleNextIntended() returns (req: Option<ImageRequest>)
      requires Valid()
      modifies this`imageIdx
      ensures Valid()
      ensures imageIdx == Next(old(imageIdx), |imageIds|)
      ensures req.Some? <==>
                && imageIdx == old(imageIdx) + 1
                && imageIdx + 1 < |imageIds|
                && Truthy(imageIds[imageIdx + 1])
                && !Cached(session.imageCache, imageIds[imageIdx + 1])
      ensures req.Some? ==> req.value == ImageRequestFor(session.host, imageIds[imageIdx + 1], session.token)
    {
      req := None;
      if imageIdx < |imageIds| - 1 {
        var nextIdx := imageIdx + 1;
        imageIdx := nextIdx;
        if nextIdx + 1 < |imageIds| && Truthy(imageIds[nextIdx + 1]) {
          req := BeginFetchDeduped(imageIds[nextIdx + 1]);
        }
      }
    }

    /** `handlePrev`: step back unless on the first image. */
    method HandlePrev()
      requires Valid()
      modifies this`imageIdx
      ensures Valid()
      ensures imageIdx == Prev(old(imageIdx))
    {
      if imageIdx > 0 {
        imageIdx := imageIdx - 1;
      }
    }
  }

  /**
   * A fetch for an id that is already cached still sends a request, and
   * when it completes the first object URL is dropped without being revoked.
   */
  method RefetchCachedWitness()
  {
    var session := new Session(Undefined, map[]);
    var screen := new DataScreen(session);
    screen.CompleteFetch(Num(7), Loaded("blob:a"));
    assert Cached(session.imageCache, Num(7));
    var req := screen.BeginFetch(Num(7));
    assert req.url == "http://localhost:8000/car-image/7";
    var deduped := screen.BeginFetchDeduped(Num(7));
    assert deduped == None;
    var before := session.imageCache;
    screen.CompleteFetch(Num(7), Loaded("blob:b"));
    OverwriteDropsUrl(before, Num(7), "blob:b");
    assert "blob:a" !in session.imageCache.Values && session.revoked["blob:a"] == 0;
  }

  /** With ids `[1, 2, 3]`, the first "next" throws instead of prefetching id 3. */
  method NextThrowsWitness()
  {
    var session := new Session(Undefined, map[]);
    var screen := new DataScreen(session);
    screen.HandleInput("https://listing.example/car");
    var lookup, primed := screen.HandleCarData(Found(CarResponse(Num(1), Some([Num(1), Num(2), Num(3)]), Undefined)));
    assert IdsOrEmpty(Some([Num(1), Num(2), Num(3)])) == [Num(1), Num(2), Num(3)];
    assert screen.imageIds == [Num(1), Num(2), Num(3)] && screen.imageIdx == 0;
    assert |primed| == 2;
    var thrown := screen.HandleNext();
    assert screen.imageIdx == 1 && thrown;
    screen.HandlePrev();
    var req := screen.HandleNextIntended();
    assert req.Some? && req.value.url == "http://localhost:8000/car-image/3";
  }
}
