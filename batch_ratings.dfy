/** The client-side batch rating hook (app/hooks/useBatchRatings.ts): a
    cache shared by every consumer, a per-consumer view of ratings, and
    `fetchRatings`, which asks the server only for ids not yet cached. */
module BatchRatingsHook {
  import opened Wrappers
  import opened Text
  import opened Aggregates

  const RatingsEndpoint: string := "/api/reviews/ratings?productIds="

  /** How the `fetch` of the ratings endpoint ends: it throws (network error
      or unreadable JSON), answers with `ok` false, or answers with a body
      whose `ratings` may be missing. */
  datatype FetchResult = Threw | NotOk | Ok(ratings: Option<map<string, Aggregate>>)

  /** What `getRating` hands to a product card. */
  datatype DisplayRating = DisplayRating(rating: int, reviewCount: nat)

  /** `ids.filter(id => !ratingsCache[id])`: the requested ids without a
      cache entry, in request order, repeats kept. */
  function Uncached(ids: seq<string>, cache: map<string, Aggregate>): (r: seq<string>)
    ensures |r| <= |ids|
    ensures forall id :: id in r <==> id in ids && id !in cache
    decreases |ids|
  {
    if ids == [] then []
    else
      var id := ids[|ids| - 1];
      var earlier := Uncached(ids[..|ids| - 1], cache);
      assert ids == ids[..|ids| - 1] + [id];
      if id !in cache then earlier + [id] else earlier
  }

  /** One more requested id extends the uncached list at its end exactly
      when it has no cache entry: the filter keeps request order and repeats. */
  lemma UncachedAppend(ids: seq<string>, id: string, cache: map<string, Aggregate>)
    ensures Uncached(ids + [id], cache) == Uncached(ids, cache) + (if id !in cache then [id] else [])
  {
    assert (ids + [id])[..|ids|] == ids;
  }

  /** With nothing cached, every requested id is fetched, in order. */
  lemma {:induction false} NothingCachedFetchesAll(ids: seq<string>)
    ensures Uncached(ids, map[]) == ids
    decreases |ids|
  {
    if ids != [] {
      NothingCachedFetchesAll(ids[..|ids| - 1]);
      assert ids == ids[..|ids| - 1] + [ids[|ids| - 1]];
    }
  }

  /** The module-level `ratingsCache`, shared by every consumer. */
  class RatingsCache {
    var entries: map<string, Aggregate>

    constructor ()
      ensures entries == map[]
    {
      entries := map[];
    }

    /** `Object.entries(data.ratings).forEach(([id, rating]) => ratingsCache[id] = rating)`:
        every returned entry overwrites or adds a cache entry; other entries stay. */
    method Store(data: map<string, Aggregate>)
      modifies this
      ensures entries == old(entries) + data
    {
      var remaining := data.Keys;
      while remaining != {}
        invariant remaining <= data.Keys
        invariant entries == old(entries) + map id | id in data && id !in remaining :: data[id]
        decreases remaining
      {
        var id :| id in remaining;
        entries := entries[id := data[id]];
        remaining := remaining - {id};
      }
      assert (map id | id in data && id !in remaining :: data[id]) == data;
    }
  }

  /** One consumer of the hook: its `ratingsMap` state over the shared cache. */
  class BatchRatings {
    const cache: RatingsCache
    var ratingsMap: map<string, Aggregate>

    constructor (cache: RatingsCache)
      ensures this.cache == cache && ratingsMap == map[]
    {
      this.cache := cache;
      ratingsMap := map[];
    }

    /** `fetchRatings(ids)`. Returns the URL it fetched, if it fetched. */
    method FetchRatings(ids: seq<string>, fetch: string -> FetchResult) returns (request: Option<string>)
      modifies this, cache
      ensures |ids| == 0 ==>
        request.None? && ratingsMap == old(ratingsMap) && cache.entries == old(cache.entries)
      ensures |ids| > 0 && Uncached(ids, old(cache.entries)) == [] ==>
        && request.None?
        && cache.entries == old(cache.entries)
        && ratingsMap == old(ratingsMap) + Pick(old(cache.entries), ids)
      ensures Uncached(ids, old(cache.entries)) != [] ==>
        request == Some(RatingsEndpoint + Join(Uncached(ids, old(cache.entries)), ','))
      ensures request.Some? && fetch(request.value).Ok? && fetch(request.value).ratings.Some? ==>
        && cache.entries == old(cache.entries) + fetch(request.value).ratings.value
        && ratingsMap == old(ratingsMap) + Pick(cache.entries, ids)
      ensures request.Some? && !(fetch(request.value).Ok? && fetch(request.value).ratings.Some?) ==>
        ratingsMap == old(ratingsMap) && cache.entries == old(cache.entries)
    {
      if |ids| == 0 {
        return None;
      }
      var uncachedIds := Uncached(ids, cache.entries);
      if |uncachedIds| == 0 {
        var cachedData := Pick(cache.entries, ids);
        ratingsMap := ratingsMap + cachedData;
        return None;
      }
      request := Some(RatingsEndpoint + Join(uncachedIds, ','));
      var response := fetch(request.value);
      if response.Ok? && response.ratings.Some? {
        cache.Store(response.ratings.value);
        var completeData := Pick(cache.entries, ids);
        ratingsMap := ratingsMap + completeData;
      }
    }

    /** `getRating(productId)`: the view's entry as `{ rating, reviewCount }`, or null. */
    function GetRating(productId: string): (r: Option<DisplayRating>)
      reads this
      ensures r.Some? <==> productId in ratingsMap
      ensures r.Some? ==>
        r.value.rating == ratingsMap[productId].averageRating && r.value.reviewCount == ratingsMap[productId].reviewCount
    {
      if productId in ratingsMap then
        Some(DisplayRating(ratingsMap[productId].averageRating, ratingsMap[productId].reviewCount))
      else None
    }
  }

  /** Merging a picked subset of the cache into a view: a requested, cached
      id now shows the cached aggregate; any other key keeps its old value
      or stays absent. */
  lemma MergedView(view: map<string, Aggregate>, cache: map<string, Aggregate>, ids: seq<string>, id: string)
    ensures id in ids && id in cache ==> (view + Pick(cache, ids))[id] == cache[id]
    ensures !(id in ids && id in cache) ==>
      (id in view + Pick(cache, ids) <==> id in view)
      && (id in view ==> (view + Pick(cache, ids))[id] == view[id])
  {
  }

  /** Object keys every plain JavaScript object inherits from
      `Object.prototype`, including the legacy accessor methods of Annex B
      of ECMA-262 that browsers provide; `obj[key]` is truthy for them
      although no entry was ever stored. */
  const InheritedKeys: set<string> :=
    {"constructor", "hasOwnProperty", "isPrototypeOf", "propertyIsEnumerable",
     "toLocaleString", "toString", "valueOf", "__proto__",
     "__defineGetter__", "__defineSetter__", "__lookupGetter__", "__lookupSetter__"}

  /** `ids.filter(id => !ratingsCache[id])` as JavaScript evaluates it on a
      plain object: an inherited key also reads as cached. */
  function UncachedAsWritten(ids: seq<string>, cache: map<string, Aggregate>): (r: seq<string>)
    ensures forall id :: id in r <==> id in ids && id !in cache && id !in InheritedKeys
    decreases |ids|
  {
    if ids == [] then []
    else
      var id := ids[|ids| - 1];
      var earlier := UncachedAsWritten(ids[..|ids| - 1], cache);
      assert ids == ids[..|ids| - 1] + [id];
      if id !in cache && id !in InheritedKeys then earlier + [id] else earlier
  }

  /** Product ids such as "constructor" or "__lookupGetter__" are never
      fetched by the code as written, although the cache holds nothing for
      them; the own-key test (`Uncached`) fetches them. */
  lemma InheritedKeyNeverFetched()
    ensures UncachedAsWritten(["constructor"], map[]) == []
    ensures Uncached(["constructor"], map[]) == ["constructor"]
    ensures UncachedAsWritten(["__lookupGetter__"], map[]) == []
    ensures Uncached(["__lookupGetter__"], map[]) == ["__lookupGetter__"]
  {
    NothingCachedFetchesAll(["constructor"]);
    NothingCachedFetchesAll(["__lookupGetter__"]);
  }
}
