/**
 * The car details screen of src/car/CarDetailsScreen.jsx: a cursor over the
 * car record's image ids, a loading flag, the shared image cache it fills,
 * and the "search for another car" teardown that revokes every cached
 * object URL. Each image fetch is split into the part that runs when it is
 * called (the cache check, the loading flag, the request) and the part that
 * runs when its response arrives, so that the environment can complete
 * fetches in any order. The browser's revocations are recorded in the
 * session's ghost multiset.
 */
module CarDetails {
  import opened Wrappers
  import opened Js
  import opened Gallery
  import opened AuthSession

  /** The bearer the screen sends: `carData?.token || ''`. */
  function DetailsBearer(carData: Option<CarRecord>): JsValue
  {
    Or(if carData.Some? then carData.value.token else Undefined, Str(""))
  }

  /**
   * The image requests of this screen carry the car record's token and
   * never the session's: without a truthy record token the header is
   * `Bearer ` with nothing after it, even in a signed-in session; with one,
   * something always follows `Bearer `.
   */
  lemma {:induction false} DetailsHeaderFromRecord(host: string, id: JsValue, carData: Option<CarRecord>)
    ensures Truthy(DetailsBearer(carData)) <==> carData.Some? && Truthy(carData.value.token)
    ensures ImageRequestFor(host, id, DetailsBearer(carData)).authorization == "Bearer " <==>
              !(carData.Some? && Truthy(carData.value.token))
  {
    var bearer := DetailsBearer(carData);
    if carData.Some? && Truthy(carData.value.token) {
      assert ToStr(bearer) != "" by {
        match bearer
        case Num(n) =>
        case Str(_) =>
      }
      assert |"Bearer " + ToStr(bearer)| > |"Bearer "|;
    }
  }

  class DetailsScreen {
    const session: Session
    var currentIdx: int
    var loadingImg: bool

    /** `carData.image_ids`, when there is a car record. */
    function ImageIds(): Option<seq<JsValue>>
      reads this, session
    {
      if session.carData.Some? then session.carData.value.imageIds else None
    }

    /** The number of images, 0 when there is no list. */
    function Count(): nat
      reads this, session
    {
      if ImageIds().Some? then |ImageIds().value| else 0
    }

    /** The cursor never leaves `[0, N-1]` (it stays 0 while there are no images). */
    ghost predicate Valid()
      reads this, session
    {
      0 <= currentIdx && (session.carData.Some? ==> currentIdx < Max(1, Count()))
    }

    /** Mounting the screen: `useState(0)` and `useState(false)`. */
    constructor (session: Session)
      ensures this.session == session && Valid()
      ensures currentIdx == 0 && !loadingImg
    {
      this.session := session;
      currentIdx := 0;
      loadingImg := false;
    }

    /**
     * `fetchAndCacheImage(imgId)` up to its first `await`: nothing happens
     * when `imageCache[imgId]` is truthy; otherwise the loading flag is set
     * and one request goes out. Nothing else is checked: a fetch already in
     * flight for the same id does not stop a second one.
     */
    method BeginFetch(imgId: JsValue) returns (req: Option<ImageRequest>)
      requires Valid()
      modifies this`loadingImg
      ensures Valid()
      ensures req.None? <==> Cached(session.imageCache, imgId)
      ensures req.None? ==> loadingImg == old(loadingImg)
      ensures req.Some? ==> loadingImg && req.value == ImageRequestFor(session.host, imgId, DetailsBearer(session.carData))
      ensures req.Some? && Count() > 0 ==> !ShowsImage()
    {
      if Cached(session.imageCache, imgId) {
        return None;
      }
      loadingImg := true;
      req := Some(ImageRequestFor(session.host, imgId, DetailsBearer(session.carData)));
    }

    /**
     * The rest of `fetchAndCacheImage(imgId)` once its response is known:
     * only the entry for `imgId` may change, and only on success; the
     * loading flag is cleared in every case.
     */
    method CompleteFetch(imgId: JsValue, outcome: FetchOutcome)
      requires Valid()
      modifies this`loadingImg, session`imageCache
      ensures Valid()
      ensures session.imageCache == Store(old(session.imageCache), imgId, outcome)
      ensures !loadingImg
      ensures Count() > 0 && Key(imgId) == Key(ImageIds().value[currentIdx]) && outcome.Loaded? && outcome.url != "" ==>
                ShowsImage()
      ensures Count() > 0 && !outcome.Loaded? ==>
                (ShowsImage() <==> Cached(old(session.imageCache), ImageIds().value[currentIdx]))
      ensures session.revoked == old(session.revoked)
      ensures forall u :: u in DroppedUrls(old(session.imageCache), session.imageCache) ==>
                u !in session.imageCache.Values && session.revoked[u] == old(session.revoked)[u]
    {
      if outcome.Loaded? {
        session.imageCache := session.imageCache[Key(imgId) := outcome.url];
      }
      loadingImg := false;
    }

    /** The ids the prefetch effect asks for at the current cursor. */
    function Window(): (r: seq<JsValue>)
      reads this, session
      requires Valid()
      ensures |r| <= 2
    {
      var ids := ImageIds();
      if ids.Some? && |ids.value| > 0 then PrefetchTargets(ids.value, currentIdx) else []
    }

    /**
     * The effect on `[currentIdx, carData.image_ids]`: both calls run up to
     * their first `await` against the same cache, so exactly the uncached
     * ids of the window are requested, at most two and none behind the
     * cursor.
     */
    method PrefetchEffect() returns (reqs: seq<ImageRequest>)
      requires Valid() && session.carData.Some?
      modifies this`loadingImg
      ensures Valid()
      ensures reqs == RequestsFor(session.host, Uncached(Window(), session.imageCache), DetailsBearer(session.carData))
      ensures |reqs| <= 2
      ensures loadingImg == (old(loadingImg) || reqs != [])
    {
      reqs := [];
      var ids := ImageIds();
      if ids.Some? && |ids.value| > 0 {
        var targets := PrefetchTargets(ids.value, currentIdx);
        var cache := session.imageCache;
        var want := Uncached(targets, cache);
        UncachedStep(targets, cache);
        if |targets| == 2 {
          assert targets[1..] == [targets[1]];
          UncachedStep(targets[1..], cache);
        } else {
          assert targets[1..] == [];
        }
        var first := BeginFetch(targets[0]);
        if first.Some? {
          reqs := [first.value];
        }
        if |targets| == 2 {
          var second := BeginFetch(targets[1]);
          if second.Some? {
            reqs := reqs + [second.value];
          }
        }
        assert |reqs| == |want|;
      }
    }

    /** `handleNext`: advance unless the cursor is on the last image. */
    method HandleNext()
      requires Valid() && ImageIds().Some?
      modifies this`currentIdx
      ensures currentIdx == Next(old(currentIdx), Count())
      ensures Valid()
    {
      if currentIdx < Count() - 1 {
        currentIdx := currentIdx + 1;
      }
    }

    /** `handlePrev`: step back unless the cursor is on the first image. */
    method HandlePrev()
      requires Valid()
      modifies this`currentIdx
      ensures currentIdx == Prev(old(currentIdx))
      ensures Valid()
    {
      if currentIdx > 0 {
        currentIdx := currentIdx - 1;
      }
    }

    /** The image (rather than the spinner) is shown: not loading, and the current id is cached. */
    function ShowsImage(): (r: bool)
      reads this, session
      requires Valid() && Count() > 0
      ensures r ==> !loadingImg
      ensures r ==> Key(ImageIds().value[currentIdx]) in session.imageCache
      ensures r ==> session.imageCache[Key(ImageIds().value[currentIdx])] != ""
    {
      !loadingImg && Cached(session.imageCache, ImageIds().value[currentIdx])
    }

    /**
     * `handleSearchAnother`: revoke every truthy cached URL, one revocation
     * per cache entry, then drop the car record and empty the cache. Unlike
     * the lookup's reset, it leaks nothing: every URL it drops is revoked.
     */
    method HandleSearchAnother()
      requires Valid()
      modifies session`revoked, session`carData, session`imageCache
      ensures session.revoked == old(session.revoked) + Revocations(old(session.imageCache))
      ensures forall u :: u in DroppedUrls(old(session.imageCache), session.imageCache) ==>
                session.revoked[u] > old(session.revoked)[u]
      ensures session.imageCache == map[] && session.carData == None
      ensures Valid()
    {
      var cache := session.imageCache;
      var pending := cache.Keys;
      while pending != {}
        invariant pending <= cache.Keys
        invariant session.revoked + RevocationsOf(cache, pending) == old(session.revoked) + RevocationsOf(cache, cache.Keys)
        decreases pending
      {
        var key :| key in pending;
        var url := cache[key];
        if url != "" {
          session.revoked := session.revoked + multiset{url};
        }
        RevocationsOfRemove(cache, pending, key);
        pending := pending - {key};
      }
      session.carData := None;
      session.imageCache := map[];
      RevokesEveryTruthyUrl(cache, cache.Keys);
    }
  }
}
