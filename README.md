# Product reviews and ratings — a Dafny model

This project models the review-and-rating feature of the genwear storefront (a
Next.js application backed by MongoDB):

- `POST /api/reviews` lets an authenticated user rate a product (1 to 5 stars)
  with an optional comment. It inserts the review, then recomputes the product's
  aggregate `{averageRating, reviewCount}` from all of that product's reviews and
  upserts it into `productRatings`.
- `GET /api/reviews` lists a product's reviews, newest first.
- `GET /api/reviews/rating` returns one product's aggregate, or `null`.
- `GET /api/reviews/ratings` returns the aggregates of a comma-separated id list.
- `useBatchRatings`, a React hook, keeps a module-level cache of aggregates.
  `fetchRatings` asks the server only for ids the cache lacks, writes the answer
  into the cache, and merges the requested ids into the consumer's `ratingsMap`.

The database is abstract state: the `reviews` collection is a sequence of
`Review` values in insertion order, and `productRatings` is a map from product id
to `Aggregate`. An HTTP response is a status code and a body datatype
(`Http.Response`). Averages are integers in tenths of a star (3.5 is 35),
rounded half-up from the exact mean. Ratings are integers.

Module layout, one per source file plus shared pieces:

| file | module | models |
|---|---|---|
| `wrappers.dfy` | `Wrappers` | optional values (missing JSON fields, `null`) |
| `text.dfy` | `Text` | `split(sep)` and `join(sep)` on strings |
| `review.dfy` | `Reviews` | `models/Review.ts` |
| `aggregate.dfy` | `Aggregates` | the aggregate, its recomputation and rounding, and the id-filtering `reduce` |
| `http.dfy` | `Http` | response statuses and bodies |
| `reviews_route.dfy` | `ReviewsRoute` | `app/api/reviews/route.ts`; the store is the class `ReviewStore` |
| `ratings_route.dfy` | `RatingsRoute` | `app/api/reviews/ratings/route.ts` |
| `rating_route.dfy` | `RatingRoute` | `app/api/reviews/rating/route.ts` |
| `batch_ratings.dfy` | `BatchRatingsHook` | `app/hooks/useBatchRatings.ts`; classes `RatingsCache` and `BatchRatings` |
| `queries.dfy` | `Queries` | how the read endpoints, the cache and the store fit together |

The POST handler changes the store step by step. It is the method
`ReviewStore.Submit`, and the insert-and-upsert part is `ReviewStore.InsertAndUpsert`.
Both keep the store invariant `Consistent`. That invariant says:

- there is at most one review per (productId, userId);
- every stored review has a product id and a rating in [1, 5];
- there is an aggregate exactly for the products that have reviews;
- each aggregate holds the count and the rounded mean of its product's reviews.

`fetchRatings` updates the shared cache in a loop (`RatingsCache.Store`) and
reassigns the consumer's view. The GET handlers, the lookups, the `filter` and
the `reduce` steps are functions.

Two details of the code that the model keeps as written:

- A successful POST answers with status 200 (`NextResponse.json` without a
  status).
- The batch endpoint takes the comma-split list as it comes, repeats and empty
  pieces included; it does not de-duplicate the ids.

## Model

| member | source | states |
|---|---|---|
| `Reviews.ToResponse` | genwear/models/Review.ts:29-39 | `id` is the `_id` string when present and `''` when absent; productId, userId, userName, rating, comment and createdAt are copied unchanged |
| `Reviews.ToResponseRoundTrip` | genwear/models/Review.ts:29-39 | the mapping loses nothing: a review whose id prints non-empty is recovered from its response |
| `Reviews.ToResponses` | genwear/app/api/reviews/route.ts:26 | mapping a list keeps its length, and element i of the result is the response of element i |
| `Reviews.ToResponsesKeepsOrder` | genwear/app/api/reviews/route.ts:21-26 | a newest-first review list maps to a newest-first response list |
| `Text.Split` | genwear/app/api/reviews/ratings/route.ts:30 | `split` yields at least one piece, and no piece contains the separator |
| `Text.Join` | genwear/app/hooks/useBatchRatings.ts:40 | joining a one-element list gives that element |
| `Text.JoinSplit` | genwear/app/api/reviews/ratings/route.ts:30 | joining the pieces of a split gives back the string |
| `Text.SplitWithoutSeparator` | genwear/app/api/reviews/ratings/route.ts:30 | a parameter without a comma is a single id |
| `Text.SplitJoin` | genwear/app/hooks/useBatchRatings.ts:40 | splitting a non-empty comma-joined list of comma-free ids gives back the list |
| `Aggregates.ReviewsFor` | genwear/app/api/reviews/route.ts:96-98 | the re-read selects exactly the stored reviews of the product, never more than are stored |
| `Aggregates.ReviewsForAppend` | genwear/app/api/reviews/route.ts:93-98 | after the insert, the re-read of the product ends with the new review; other products' reviews are unchanged |
| `Aggregates.SumRatings` | genwear/app/api/reviews/route.ts:100 | the `reduce` over no reviews is 0, and n ratings in [1, 5] sum to between n and 5n |
| `Aggregates.RoundedMeanTenths` | genwear/app/api/reviews/route.ts:101-110 | the result is within half a tenth of the exact mean, and a tie rounds up |
| `Aggregates.RoundedMeanUnique` | genwear/app/api/reviews/route.ts:110 | no other value meets those rounding bounds, so the rounding is determined |
| `Aggregates.RoundedMeanInRange` | genwear/app/api/reviews/route.ts:100-110 | a mean of ratings in [1, 5] rounds into [1.0, 5.0] |
| `Aggregates.AggregateOf` | genwear/app/api/reviews/route.ts:96-111 | the recomputed aggregate counts the product's reviews, at least one, and when their ratings are in [1, 5] its average lies in [1.0, 5.0] |
| `Aggregates.AggregateOfMeaning` | genwear/app/api/reviews/route.ts:96-111 | the recomputed aggregate counts the product's reviews (at least one), its average is their rounded mean, and it lies in [1.0, 5.0] |
| `Aggregates.FirstReviewAggregate` | genwear/app/api/reviews/route.ts:93-115 | the first review of a product makes its aggregate that rating over a count of 1 |
| `Aggregates.Pick` | genwear/app/hooks/useBatchRatings.ts:50-55 | the result has a key exactly for each requested id that is in the map, with the map's value |
| `ReviewsRoute.BearerToken` | genwear/app/api/reviews/route.ts:41-48 | a token is found only in a header with a space, and it is non-empty and space-free |
| `ReviewsRoute.BearerTokenOfHeader` | genwear/app/api/reviews/route.ts:41 | a header `<scheme> <token>` yields the token, whatever the scheme word |
| `ReviewsRoute.Caller` | genwear/app/api/reviews/route.ts:41-57 | without a bearer token there is no caller and verification is not consulted; with one, the caller is exactly what verifying that token gives |
| `ReviewsRoute.InvalidInput` | genwear/app/api/reviews/route.ts:63-68 | the input is accepted exactly when productId is present and non-empty and rating is present and in [1, 5] |
| `ReviewsRoute.HasReviewByMeaning` | genwear/app/api/reviews/route.ts:71-76 | the duplicate lookup succeeds exactly when one of the product's stored reviews is by the user |
| `ReviewsRoute.InsertKeepsOnePerUser` | genwear/app/api/reviews/route.ts:71-93 | inserting after the duplicate check keeps at most one review per (productId, userId) |
| `ReviewsRoute.InsertKeepsAggregatesCurrent` | genwear/app/api/reviews/route.ts:93-115 | insert plus upsert keeps every aggregate equal to its product's recomputed aggregate; other products' aggregates stay the same |
| `ReviewsRoute.InsertKeepsConsistent` | genwear/app/api/reviews/route.ts:70-115 | a validated, non-duplicate submission keeps the whole store invariant |
| `ReviewsRoute.OtherAggregateUnchanged` | genwear/app/api/reviews/route.ts:93-111 | inserting a review of one product changes neither the reviews nor the recomputed aggregate of any other product |
| `ReviewsRoute.UpsertKeepsConsistent` | genwear/app/api/reviews/route.ts:93-115 | after insert and upsert the store is consistent, and the new aggregate counts the product's reviews with an average in [1.0, 5.0] |
| `ReviewsRoute.StoredAggregateMeaning` | genwear/app/api/reviews/route.ts:96-115 | in a consistent store each aggregate's count equals its product's reviews (at least 1), and its average is their rounded mean, within [1.0, 5.0] |
| `ReviewsRoute.InsertNewestFirst` | genwear/app/api/reviews/route.ts:23 | insertion adds exactly the one review, and the result starts with it or with the old head |
| `ReviewsRoute.InsertKeepsNewestFirst` | genwear/app/api/reviews/route.ts:23 | inserting into a newest-first list keeps it newest-first |
| `ReviewsRoute.SortNewestFirst` | genwear/app/api/reviews/route.ts:23 | the sort is newest-first and a permutation of its input |
| `ReviewsRoute.InsertAt` | genwear/app/api/reviews/route.ts:23 | among reviews of one timestamp, insertion puts the new review first and keeps the others in their order |
| `ReviewsRoute.SortStable` | genwear/app/api/reviews/route.ts:23 | for every timestamp, the sort lists the reviews stamped with it in their original order |
| `ReviewsRoute.TiesListedInStoreOrder` | genwear/app/api/reviews/route.ts:21-23 | in any store, a product's reviews with the same timestamp are listed in the order they were stored |
| `ReviewsRoute.ListReviews` | genwear/app/api/reviews/route.ts:21-24 | the listing is newest-first and holds exactly the product's reviews, each as often as stored |
| `ReviewsRoute.ReviewStore.GetReviews` | genwear/app/api/reviews/route.ts:8-28 | a missing or empty productId gives 400 and reads nothing; otherwise 200 with all the product's reviews, newest first; with no reviews the list is empty |
| `ReviewsRoute.ReviewStore.Submit` | genwear/app/api/reviews/route.ts:39-122 | 401 without a token, then 401 for a failed verification, then 400 for invalid input, then 400 for a duplicate, each leaving the store unchanged; otherwise exactly one review is appended, with the verified user's id and name and comment `''` when missing, the product's aggregate is upserted with the product's review count and rounded mean in [1.0, 5.0], and the response carries those values; the store invariant holds throughout |
| `ReviewsRoute.ReviewStore.InsertAndUpsert` | genwear/app/api/reviews/route.ts:93-115 | appends the review and sets only that product's aggregate to the recomputation, keeping the store invariant |
| `RatingsRoute.GetRatings` | genwear/app/api/reviews/ratings/route.ts:18-47 | a missing or empty parameter gives 400; otherwise the map's keys are exactly the split ids that have stored aggregates, with the stored values; ids without an aggregate are absent keys |
| `RatingsRoute.PickIntoPlainObject` | genwear/app/api/reviews/ratings/route.ts:39-45 | the reduce into a plain object, as written: its own keys are exactly the requested stored ids other than `"__proto__"`, with the stored values |
| `RatingsRoute.GetRatingsAsWritten` | genwear/app/api/reviews/ratings/route.ts:18-47 | the endpoint as written: 400 for a missing or empty parameter; otherwise the answer's keys are the split ids that are stored, except `"__proto__"` |
| `RatingsRoute.SingleIdRequest` | genwear/app/api/reviews/ratings/route.ts:30-45 | a parameter without a comma gives a one-entry map when the id is stored and an empty map otherwise |
| `RatingRoute.GetRating` | genwear/app/api/reviews/rating/route.ts:5-22 | a missing productId gives 400; otherwise 200, with the stored aggregate unchanged when present and `null` when absent |
| `BatchRatingsHook.Uncached` | genwear/app/hooks/useBatchRatings.ts:23 | exactly the requested ids without a cache entry remain, in request order |
| `BatchRatingsHook.UncachedAppend` | genwear/app/hooks/useBatchRatings.ts:23 | the filter keeps request order: one more requested id adds itself at the end exactly when it is not cached |
| `BatchRatingsHook.NothingCachedFetchesAll` | genwear/app/hooks/useBatchRatings.ts:23 | with an empty cache every requested id is fetched, in order |
| `BatchRatingsHook.RatingsCache.constructor` | genwear/app/hooks/useBatchRatings.ts:11 | the shared cache starts empty |
| `BatchRatingsHook.RatingsCache.Store` | genwear/app/hooks/useBatchRatings.ts:45-47 | every returned entry is written into the cache; entries for other ids are left as they were |
| `BatchRatingsHook.BatchRatings.constructor` | genwear/app/hooks/useBatchRatings.ts:14 | a consumer's view starts empty over the shared cache |
| `BatchRatingsHook.BatchRatings.FetchRatings` | genwear/app/hooks/useBatchRatings.ts:19-64 | an empty id list changes nothing and fetches nothing; when every id is cached there is no fetch and the view gains the cached entries of the requested ids; otherwise it fetches the endpoint with the uncached ids comma-joined; on an ok answer with `ratings`, the cache gains every returned entry and the view gains the cache's entries for the requested ids; on a failure, a non-ok answer or a missing `ratings`, cache and view are unchanged |
| `BatchRatingsHook.BatchRatings.GetRating` | genwear/app/hooks/useBatchRatings.ts:85-93 | `{rating, reviewCount}` from the view's averageRating and reviewCount when present, `null` otherwise |
| `BatchRatingsHook.MergedView` | genwear/app/hooks/useBatchRatings.ts:50-57 | after a merge, a requested cached id shows the cached aggregate; every other key of the view is kept as it was |
| `BatchRatingsHook.UncachedAsWritten` | genwear/app/hooks/useBatchRatings.ts:23 | the filter as JavaScript evaluates it on a plain object: inherited keys also read as cached |
| `BatchRatingsHook.InheritedKeyNeverFetched` | genwear/app/hooks/useBatchRatings.ts:23 | the ids "constructor" and "__lookupGetter__" are never fetched as written, though nothing is cached; the own-key filter fetches them |
| `Queries.RatingReflectsReviews` | genwear/app/api/reviews/rating/route.ts:20-22 | against a consistent store, the lookup finds an aggregate exactly for products with reviews, counting them, with an average in [1.0, 5.0] |
| `Queries.BatchAgreesWithSingle` | genwear/app/api/reviews/ratings/route.ts:30-45 | for each requested id, the batch map has the id exactly when the single lookup finds it, with the same numbers |
| `Queries.ProtoIdMissingFromBatch` | genwear/app/api/reviews/ratings/route.ts:39-47 | with `"__proto__"` stored, the single lookup finds it and the own-key batch map holds it, but the batch endpoint as written answers with an empty map |
| `Queries.ServerAnswersUncachedIds` | genwear/app/hooks/useBatchRatings.ts:40 | the server reads the hook's request as exactly the uncached ids, so its answer holds only uncached ids with their stored aggregates |
| `Queries.SingleReviewConsistent` | genwear/app/api/reviews/route.ts:84-115 | a store holding one valid review and its aggregate, that rating in tenths over a count of 1, is consistent |
| `Queries.TwoReviewsScenarioFirst` | genwear/app/api/reviews/route.ts:84-115 | rating 5 on a product without reviews gives {5.0, 1} and a consistent store |
| `Queries.SecondAggregate` | genwear/app/api/reviews/route.ts:96-111 | ratings 5 and 2 of one product give the aggregate {3.5, 2} |
| `Queries.TwoReviewsScenarioSecond` | genwear/app/api/reviews/route.ts:71-115 | a 2 from another user then gives {3.5, 2} and a consistent store; the first user has a review, so a second one from them is a duplicate |

## Left out

- Storage failures, and the 500 answers of the `catch` blocks, are not modelled. `connectToDatabase` and the collections always succeed, and `request.json()` always yields the body.
- The POST write path is not a transaction: two concurrent requests can interleave the re-read (route.ts:96) and the upsert (route.ts:106) and leave a stale aggregate. The model runs each POST as one atomic step, so it does not capture this race. The same assumption hides a second one: two concurrent POSTs by one user can both pass the `findOne` check (route.ts:71-76) before either `insertOne` (route.ts:93) runs, and both insert, so `OnePerUser` holds only because POST is atomic in the model.
- If the upsert fails after the insert, the source leaves a stale aggregate. The model cannot show this, because the store never fails.
- Token verification (`verifyToken`) is the function parameter `verify`. `new Date()` is the parameter `now`. The ObjectId that the MongoDB driver assigns on `insertOne` is the parameter `freshId`.
- `averageRating` is exact half-up rounding in tenths. The IEEE-754 behaviour of `toFixed(1)` and `parseFloat` is left out. On some means, such as 1.15, binary floating point rounds down instead.
- Ratings and other body fields are integers and strings. A non-integer rating passes the source's bounds check and is not modelled, and neither are JSON fields of other types.
- Reviews with equal `createdAt`: MongoDB leaves their order unspecified. The model keeps them in store order (`ReviewsRoute.TiesListedInStoreOrder`).
- Query strings are taken as already decoded. The hook does not URL-encode the ids it joins, so an id holding `&`, `#`, `%` or `+` would reach the server altered (`+` arrives as a space); this is not modelled. `Queries.ServerAnswersUncachedIds` assumes the ids hold no comma and do not join to the empty string.
- The `_id` field of a `productRatings` document is not part of `RatingDocument`.
- The hook's 100 ms debounce timer (`setTimeout`/`clearTimeout`, useBatchRatings.ts:67-83), its `isLoading` flag and React's deferred state updates are left out. `setRatingsMap(prev => …)` is applied at once, and `fetchRatings` runs to completion before another call, so overlapping in-flight fetches are not modelled.
- `BatchRatingsHook.BatchRatings.FetchRatings` tests cache membership by own key (`Uncached`, `Pick`). It does not model the inherited-key reading described under Findings; `BatchRatingsHook.UncachedAsWritten` models that reading.
- BatchRatingsHook.BatchRatings.GetRating: tests the view by own key. The source's `if (ratingsMap[productId])` (useBatchRatings.ts:86) also reads inherited keys as truthy, so `getRating("constructor")` returns an object whose `rating` and `reviewCount` are `undefined`, not `null`; the model returns `None` there. This is the same inherited-key reading as under Findings.
- RatingsRoute.GetRatings: answers with an own-key map. The reduce at ratings/route.ts:39-45 writes into a plain `{}`, which drops the key `"__proto__"` (see Findings; `RatingsRoute.GetRatingsAsWritten` models it). `RatingsRoute.SingleIdRequest`, `Queries.BatchAgreesWithSingle` and `Queries.ServerAnswersUncachedIds` hold for the own-key map; as written, they fail for that one id.
- `app/components/ProductReviews.tsx`, `app/hooks/useDynamicRating.ts`, `app/loading.tsx` and `next.config.js` are presentation, a thin fetch wrapper and configuration. They are not part of this model.

## Findings

| source | as written | input that shows it | evidently intended | confidence | as-written member | corrected member |
|---|---|---|---|---|---|---|
| genwear/app/hooks/useBatchRatings.ts:23 | `!ratingsCache[id]` on a plain object also finds keys inherited from `Object.prototype`. So those ids count as cached, the reductions at lines 28 and 51 copy the inherited function into the view, and `getRating` (line 86) answers it with `undefined` fields instead of `null`. | `fetchRatings(["constructor"])` with an empty cache: nothing is fetched, and the product never gets its rating | only ids stored in the cache count as cached (an own-key test such as `Object.hasOwn`) | medium, not executed | `BatchRatingsHook.UncachedAsWritten`, `BatchRatingsHook.InheritedKeyNeverFetched` | `BatchRatingsHook.Uncached` |
| genwear/app/api/reviews/ratings/route.ts:40 | `acc[rating.productId] = {…}` on a plain `{}`. For the id `"__proto__"` this calls the inherited `__proto__` setter, which changes the prototype and adds no own key, so the JSON answer leaves the product out. POST accepts that id, because route.ts:63 tests only truthiness. | `"__proto__"` stored, `GET /api/reviews/ratings?productIds=__proto__`: the answer is `{ratings: {}}`, while `GET /api/reviews/rating?productId=__proto__` finds the aggregate | every requested stored id appears in the map (an object without a prototype, or a `Map`) | medium, not executed | `RatingsRoute.GetRatingsAsWritten`, `Queries.ProtoIdMissingFromBatch` | `RatingsRoute.GetRatings` |
