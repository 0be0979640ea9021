/** GET and POST /api/reviews (app/api/reviews/route.ts) over an abstract
    document store: the `reviews` collection as a sequence in insertion
    order and the `productRatings` collection as a map keyed by product id. */
module ReviewsRoute {
  import opened Wrappers
  import opened Text
  import opened Reviews
  import opened Aggregates
  import opened Http

  /** What token verification yields for a valid token. */
  datatype User = User(id: string, name: string)

  /** The POST body; each field may be missing from the JSON. */
  datatype ReviewInput = ReviewInput(productId: Option<string>, rating: Option<int>, comment: Option<string>)

  /** `request.headers.get('authorization')?.split(' ')[1]`, treated as absent
      when it is missing or empty. The scheme word is not checked. */
  function BearerToken(authorization: Option<string>): (token: Option<string>)
    ensures token.Some? ==> token.value != "" && ' ' !in token.value
    ensures token.Some? ==> authorization.Some? && ' ' in authorization.value
  {
    match authorization
    case None => None
    case Some(header) =>
      var parts := Split(header, ' ');
      if |parts| >= 2 && parts[1] != "" then
        assert ' ' in header by {
          if ' ' !in header { SplitWithoutSeparator(header, ' '); }
        }
        Some(parts[1])
      else None
  }

  /** A header `<scheme> <token>` yields the token. */
  lemma BearerTokenOfHeader(scheme: string, token: string)
    requires ' ' !in scheme && ' ' !in token && token != ""
    ensures BearerToken(Some(scheme + " " + token)) == Some(token)
  {
    assert scheme + " " + token == scheme + [' '] + token;
    SplitAtFirstSeparator(scheme, token, ' ');
    SplitWithoutSeparator(token, ' ');
  }

  /** The caller: the verified user of the bearer token, if any. Without a
      token, verification is never consulted. */
  function Caller(authorization: Option<string>, verify: string -> Option<User>): (caller: Option<User>)
    ensures BearerToken(authorization).None? ==> caller.None?
    ensures BearerToken(authorization).Some? ==> caller == verify(BearerToken(authorization).value)
  {
    match BearerToken(authorization)
    case None => None
    case Some(token) => verify(token)
  }

  /** The validation at route.ts:63: a missing or empty product id, or a
      rating that is missing, 0, below 1 or above 5. */
  function InvalidInput(body: ReviewInput): (invalid: bool)
    ensures !invalid <==>
      body.productId.Some? && body.productId.value != "" && body.rating.Some? && 1 <= body.rating.value <= 5
  {
    || body.productId.None? || body.productId.value == ""
    || body.rating.None? || body.rating.value == 0
    || body.rating.value < 1 || body.rating.value > 5
  }

  /** `findOne({ productId, userId })` finds a document: the user has a
      review among the product's reviews. */
  predicate HasReviewBy(reviews: seq<Review>, productId: string, userId: string)
  {
    exists i :: 0 <= i < |reviews| && reviews[i].productId == productId && reviews[i].userId == userId
  }

  /** The lookup succeeds exactly when one of the product's reviews is by
      the user. */
  lemma HasReviewByMeaning(reviews: seq<Review>, productId: string, userId: string)
    ensures HasReviewBy(reviews, productId, userId)
      <==> exists r :: r in ReviewsFor(reviews, productId) && r.userId == userId
  {
    if HasReviewBy(reviews, productId, userId) {
      var i :| 0 <= i < |reviews| && reviews[i].productId == productId && reviews[i].userId == userId;
      assert reviews[i] in ReviewsFor(reviews, productId);
    }
    if exists r :: r in ReviewsFor(reviews, productId) && r.userId == userId {
      var r :| r in ReviewsFor(reviews, productId) && r.userId == userId;
      var i :| 0 <= i < |reviews| && reviews[i] == r;
      assert reviews[i].productId == productId;
    }
  }

  /** At most one review per (productId, userId). */
  predicate OnePerUser(reviews: seq<Review>)
  {
    forall i, j :: 0 <= i < j < |reviews| && reviews[i].productId == reviews[j].productId
      ==> reviews[i].userId != reviews[j].userId
  }

  /** Every stored review has a product id and a rating in [1, 5]. */
  predicate WellFormed(reviews: seq<Review>)
  {
    forall i :: 0 <= i < |reviews| ==> reviews[i].productId != "" && 1 <= reviews[i].rating <= 5
  }

  /** There is an aggregate exactly for the products that have reviews, and
      it holds their count and rounded mean. */
  predicate AggregatesCurrent(reviews: seq<Review>, ratings: map<string, Aggregate>)
  {
    && (forall i :: 0 <= i < |reviews| ==> reviews[i].productId in ratings)
    && (forall p :: p in ratings ==> |ReviewsFor(reviews, p)| > 0 && ratings[p] == AggregateOf(reviews, p))
  }

  /** The store invariant the handlers keep. */
  predicate Consistent(reviews: seq<Review>, ratings: map<string, Aggregate>)
  {
    OnePerUser(reviews) && WellFormed(reviews) && AggregatesCurrent(reviews, ratings)
  }

  lemma InsertKeepsOnePerUser(reviews: seq<Review>, review: Review)
    requires OnePerUser(reviews)
    requires !HasReviewBy(reviews, review.productId, review.userId)
    ensures OnePerUser(reviews + [review])
  {
    var reviews' := reviews + [review];
    forall i, j | 0 <= i < j < |reviews'| && reviews'[i].productId == reviews'[j].productId
      ensures reviews'[i].userId != reviews'[j].userId
    {
      assert reviews'[i] == reviews[i];
      if j < |reviews| {
        assert reviews'[j] == reviews[j];
      }
    }
  }

  lemma InsertKeepsAggregatesCurrent(reviews: seq<Review>, ratings: map<string, Aggregate>, review: Review)
    requires AggregatesCurrent(reviews, ratings)
    ensures |ReviewsFor(reviews + [review], review.productId)| > 0
    ensures AggregatesCurrent(reviews + [review],
                              ratings[review.productId := AggregateOf(reviews + [review], review.productId)])
  {
    ReviewsForAppend(reviews, review, review.productId);
    InsertKeepsProductsRated(reviews, ratings, review);
    UpsertKeepsAggregatesFresh(reviews, ratings, review);
  }

  lemma UpsertKeepsAggregatesFresh(reviews: seq<Review>, ratings: map<string, Aggregate>, review: Review)
    requires forall p :: p in ratings ==> |ReviewsFor(reviews, p)| > 0 && ratings[p] == AggregateOf(reviews, p)
    requires |ReviewsFor(reviews + [review], review.productId)| > 0
    ensures var ratings' := ratings[review.productId := AggregateOf(reviews + [review], review.productId)];
      forall p :: p in ratings' ==> |ReviewsFor(reviews + [review], p)| > 0 && ratings'[p] == AggregateOf(reviews + [review], p)
  {
    var reviews' := reviews + [review];
    var pid := review.productId;
    var ratings' := ratings[pid := AggregateOf(reviews', pid)];
    forall p | p in ratings'
      ensures |ReviewsFor(reviews', p)| > 0 && ratings'[p] == AggregateOf(reviews', p)
    {
      if p != pid {
        OtherAggregateUnchanged(reviews, review, p);
      }
    }
  }

  /** Appending a review of another product changes neither the reviews
      nor the aggregate of `productId`. */
  lemma OtherAggregateUnchanged(reviews: seq<Review>, review: Review, productId: string)
    requires review.productId != productId
    requires |ReviewsFor(reviews, productId)| > 0
    ensures ReviewsFor(reviews + [review], productId) == ReviewsFor(reviews, productId)
    ensures AggregateOf(reviews + [review], productId) == AggregateOf(reviews, productId)
  {
    ReviewsForAppend(reviews, review, productId);
  }

  lemma InsertKeepsProductsRated(reviews: seq<Review>, ratings: map<string, Aggregate>, review: Review)
    requires forall i :: 0 <= i < |reviews| ==> reviews[i].productId in ratings
    ensures forall i :: 0 <= i < |reviews| + 1 ==> (reviews + [review])[i].productId in ratings[review.productId := AggregateOf(reviews + [review], review.productId)]
  {
    var reviews' := reviews + [review];
    forall i | 0 <= i < |reviews'|
      ensures reviews'[i].productId in ratings || reviews'[i].productId == review.productId
    {
      if i < |reviews| { assert reviews'[i] == reviews[i]; }
    }
  }

  /** Inserting a review that no user has duplicated and then upserting the
      recomputed aggregate of its product keeps the store consistent. */
  lemma InsertKeepsConsistent(reviews: seq<Review>, ratings: map<string, Aggregate>, review: Review)
    requires Consistent(reviews, ratings)
    requires review.productId != "" && 1 <= review.rating <= 5
    requires !HasReviewBy(reviews, review.productId, review.userId)
    ensures |ReviewsFor(reviews + [review], review.productId)| > 0
    ensures Consistent(reviews + [review],
                       ratings[review.productId := AggregateOf(reviews + [review], review.productId)])
  {
    InsertKeepsOnePerUser(reviews, review);
    InsertKeepsWellFormed(reviews, review);
    InsertKeepsAggregatesCurrent(reviews, ratings, review);
  }

  lemma InsertKeepsWellFormed(reviews: seq<Review>, review: Review)
    requires WellFormed(reviews)
    requires review.productId != "" && 1 <= review.rating <= 5
    ensures WellFormed(reviews + [review])
  {
    var reviews' := reviews + [review];
    forall i | 0 <= i < |reviews'|
      ensures reviews'[i].productId != "" && 1 <= reviews'[i].rating <= 5
    {
      if i < |reviews| { assert reviews'[i] == reviews[i]; }
    }
  }

  /** In a consistent store every aggregate counts at least one review and
      its average is in [1.0, 5.0], the rounded mean of those ratings. */
  lemma {:induction false} StoredAggregateMeaning(reviews: seq<Review>, ratings: map<string, Aggregate>, productId: string)
    requires Consistent(reviews, ratings)
    requires productId in ratings
    ensures ratings[productId].reviewCount == |ReviewsFor(reviews, productId)| >= 1
    ensures 10 <= ratings[productId].averageRating <= 50
    ensures var mine := ReviewsFor(reviews, productId); var a := ratings[productId].averageRating;
      2 * |mine| * a <= 20 * SumRatings(mine) + |mine| < 2 * |mine| * a + 2 * |mine|
  {
    var mine := ReviewsFor(reviews, productId);
    forall i | 0 <= i < |mine| ensures 1 <= mine[i].rating <= 5 {
      assert mine[i] in reviews;
      var k :| 0 <= k < |reviews| && reviews[k] == mine[i];
    }
    AggregateOfMeaning(reviews, productId);
  }

  /** The state after POST's insert and upsert: consistent, with the new
      aggregate counting the product's reviews and averaging in [1.0, 5.0]. */
  lemma UpsertKeepsConsistent(reviews: seq<Review>, ratings: map<string, Aggregate>, review: Review)
    requires Consistent(reviews, ratings)
    requires review.productId != "" && 1 <= review.rating <= 5
    requires !HasReviewBy(reviews, review.productId, review.userId)
    ensures |ReviewsFor(reviews + [review], review.productId)| > 0
    ensures var a := AggregateOf(reviews + [review], review.productId);
      && Consistent(reviews + [review], ratings[review.productId := a])
      && a.reviewCount == |ReviewsFor(reviews + [review], review.productId)|
      && 10 <= a.averageRating <= 50
  {
    InsertKeepsConsistent(reviews, ratings, review);
    var pid := review.productId;
    StoredAggregateMeaning(reviews + [review], ratings[pid := AggregateOf(reviews + [review], pid)], pid);
  }

  /** Inserts `x` into a newest-first list before every review no newer
      than it, so the sort keeps reviews with equal timestamps in store order. */
  function InsertNewestFirst(x: Review, s: seq<Review>): (r: seq<Review>)
    ensures multiset(r) == multiset(s) + multiset{x}
    ensures |r| == |s| + 1 && (r[0] == x || (s != [] && r[0] == s[0]))
    decreases |s|
  {
    if s == [] then [x]
    else if x.createdAt >= s[0].createdAt then [x] + s
    else
      var rest := InsertNewestFirst(x, s[1..]);
      assert s == [s[0]] + s[1..];
      [s[0]] + rest
  }

  /** Inserting into a newest-first list keeps it newest-first. */
  lemma {:induction false} InsertKeepsNewestFirst(x: Review, s: seq<Review>)
    requires NewestFirst(s)
    ensures NewestFirst(InsertNewestFirst(x, s))
    decreases |s|
  {
    if s == [] {
    } else if x.createdAt >= s[0].createdAt {
      ConsNewestFirst(x, s);
    } else {
      var rest := InsertNewestFirst(x, s[1..]);
      InsertKeepsNewestFirst(x, s[1..]);
      assert rest[0].createdAt <= s[0].createdAt by {
        if rest[0] != x { assert rest[0] == s[1]; }
      }
      ConsNewestFirst(s[0], rest);
    }
  }

  /** A review no older than the head of a newest-first list can go in
      front of it. */
  lemma ConsNewestFirst(h: Review, rest: seq<Review>)
    requires NewestFirst(rest)
    requires rest != [] ==> rest[0].createdAt <= h.createdAt
    ensures NewestFirst([h] + rest)
  {
    var r := [h] + rest;
    forall i, j | 0 <= i < j < |r| ensures r[i].createdAt >= r[j].createdAt {
      if i == 0 {
        assert r[j] == rest[j - 1];
      } else {
        assert r[i] == rest[i - 1] && r[j] == rest[j - 1];
      }
    }
  }

  /** `.sort({ createdAt: -1 })`. */
  function SortNewestFirst(s: seq<Review>): (r: seq<Review>)
    ensures NewestFirst(r)
    ensures multiset(r) == multiset(s)
    decreases |s|
  {
    if s == [] then []
    else
      assert s == [s[0]] + s[1..];
      var sorted := SortNewestFirst(s[1..]);
      InsertKeepsNewestFirst(s[0], sorted);
      InsertNewestFirst(s[0], sorted)
  }

  /** The reviews of `s` stamped `t`, in the order of `s`. */
  function StampedAt(s: seq<Review>, t: Timestamp): (r: seq<Review>)
    ensures forall x :: x in r <==> x in s && x.createdAt == t
    decreases |s|
  {
    if s == [] then []
    else (if s[0].createdAt == t then [s[0]] else []) + StampedAt(s[1..], t)
  }

  /** Insertion puts `x` ahead of every review with its own timestamp and
      leaves the order among the others of that timestamp as it was. */
  lemma {:induction false} InsertAt(x: Review, s: seq<Review>, t: Timestamp)
    ensures StampedAt(InsertNewestFirst(x, s), t)
         == (if x.createdAt == t then [x] else []) + StampedAt(s, t)
    decreases |s|
  {
    if s == [] {
    } else if x.createdAt >= s[0].createdAt {
      StampedAtCons(x, s, t);
    } else {
      var rest := InsertNewestFirst(x, s[1..]);
      InsertAt(x, s[1..], t);
      StampedAtCons(s[0], rest, t);
      assert [s[0]] + s[1..] == s;
      StampedAtCons(s[0], s[1..], t);
      var tail := StampedAt(s[1..], t);
      if x.createdAt == t {
        assert StampedAt(s, t) == tail;
        assert StampedAt([s[0]] + rest, t) == [x] + tail;
      } else {
        assert StampedAt(rest, t) == tail;
      }
    }
  }

  lemma StampedAtCons(h: Review, r: seq<Review>, t: Timestamp)
    ensures StampedAt([h] + r, t) == (if h.createdAt == t then [h] else []) + StampedAt(r, t)
  {
    assert ([h] + r)[1..] == r;
  }

  /** The sort keeps, for every timestamp, the reviews stamped with it in
      their original order. */
  lemma {:induction false} SortStable(s: seq<Review>, t: Timestamp)
    ensures StampedAt(SortNewestFirst(s), t) == StampedAt(s, t)
    decreases |s|
  {
    if s != [] {
      SortStable(s[1..], t);
      InsertAt(s[0], SortNewestFirst(s[1..]), t);
    }
  }

  /** `find({ productId }).sort({ createdAt: -1 })`: exactly the product's
      reviews, each as often as stored, newest first. */
  function ListReviews(reviews: seq<Review>, productId: string): (r: seq<Review>)
    ensures NewestFirst(r)
    ensures multiset(r) == multiset(ReviewsFor(reviews, productId))
    ensures forall x :: x in r <==> x in reviews && x.productId == productId
  {
    var r := SortNewestFirst(ReviewsFor(reviews, productId));
    assert forall x :: x in r <==> x in multiset(ReviewsFor(reviews, productId));
    r
  }

  /** Reviews of a product with the same timestamp are listed in the order
      they were stored. */
  lemma TiesListedInStoreOrder(reviews: seq<Review>, productId: string, t: Timestamp)
    ensures StampedAt(ListReviews(reviews, productId), t) == StampedAt(ReviewsFor(reviews, productId), t)
  {
    SortStable(ReviewsFor(reviews, productId), t);
  }

  class ReviewStore {
    var reviews: seq<Review>
    var ratings: map<string, Aggregate>

    ghost predicate Valid()
      reads this
    {
      Consistent(reviews, ratings)
    }

    constructor ()
      ensures Valid() && reviews == [] && ratings == map[]
    {
      reviews := [];
      ratings := map[];
    }

    /** GET /api/reviews?productId=...: 400 without a product id; otherwise
        the product's reviews, newest first, as responses. */
    function GetReviews(productId: Option<string>): (resp: Response)
      reads this
      ensures productId.None? || productId.value == "" ==>
        resp == Response(BadRequest, Error("Product ID is required"))
      ensures productId.Some? && productId.value != "" ==>
        && resp.status == OK && resp.body.ReviewList?
        && resp.body.reviews == ToResponses(ListReviews(reviews, productId.value))
        && |resp.body.reviews| == |ReviewsFor(reviews, productId.value)|
        && ResponsesNewestFirst(resp.body.reviews)
        && (forall i :: 0 <= i < |resp.body.reviews| ==> resp.body.reviews[i].productId == productId.value)
    {
      match productId
      case None => Response(BadRequest, Error("Product ID is required"))
      case Some(p) =>
        if p == "" then Response(BadRequest, Error("Product ID is required"))
        else
          var listed := ListReviews(reviews, p);
          assert |listed| == |multiset(listed)| == |ReviewsFor(reviews, p)|;
          ToResponsesKeepsOrder(listed);
          assert forall i :: 0 <= i < |listed| ==> listed[i] in listed;
          Response(OK, ReviewList(ToResponses(listed)))
    }

    /** POST /api/reviews. Checks the token, then the body, then for an
        earlier review by the same user; on success inserts the review and
        upserts the product's recomputed aggregate. Every rejection leaves
        both collections as they were. */
    method Submit(authorization: Option<string>, verify: string -> Option<User>,
                  body: ReviewInput, now: Timestamp, freshId: ObjectId)
      returns (resp: Response)
      requires Valid()
      modifies this
      ensures Valid()
      ensures resp.status != OK ==> unchanged(this)
      ensures BearerToken(authorization).None? ==>
        resp == Response(Unauthorized, Error("Authentication required"))
      ensures BearerToken(authorization).Some? && Caller(authorization, verify).None? ==>
        resp == Response(Unauthorized, Error("Invalid token"))
      ensures Caller(authorization, verify).Some? && InvalidInput(body) ==>
        resp == Response(BadRequest, Error("Product ID and valid rating (1-5) are required"))
      ensures Caller(authorization, verify).Some? && !InvalidInput(body)
              && HasReviewBy(old(reviews), body.productId.value, Caller(authorization, verify).value.id) ==>
        resp == Response(BadRequest, Error("You have already reviewed this product"))
      ensures resp.status == OK <==>
        Caller(authorization, verify).Some? && !InvalidInput(body)
        && !HasReviewBy(old(reviews), body.productId.value, Caller(authorization, verify).value.id)
      ensures resp.status == OK ==>
        var user := Caller(authorization, verify).value;
        var pid := body.productId.value;
        var review := Review(Some(freshId), pid, user.id, user.name, body.rating.value, body.comment.GetOr(""), now);
        && reviews == old(reviews) + [review]
        && |ReviewsFor(reviews, pid)| > 0
        && ratings == old(ratings)[pid := AggregateOf(reviews, pid)]
        && ratings[pid].reviewCount == |ReviewsFor(reviews, pid)|
        && 10 <= ratings[pid].averageRating <= 50
        && resp == Response(OK, Submitted(true, ToResponse(review), ratings[pid].averageRating, ratings[pid].reviewCount))
    {
      var token := BearerToken(authorization);
      if token.None? {
        return Response(Unauthorized, Error("Authentication required"));
      }
      var userData := verify(token.value);
      if userData.None? {
        return Response(Unauthorized, Error("Invalid token"));
      }
      if InvalidInput(body) {
        return Response(BadRequest, Error("Product ID and valid rating (1-5) are required"));
      }
      var user, pid := userData.value, body.productId.value;
      if HasReviewBy(reviews, pid, user.id) {
        return Response(BadRequest, Error("You have already reviewed this product"));
      }
      var review := Review(Some(freshId), pid, user.id, user.name, body.rating.value, body.comment.GetOr(""), now);
      var aggregate := InsertAndUpsert(review);
      resp := Response(OK, Submitted(true, ToResponse(review), aggregate.averageRating, aggregate.reviewCount));
    }

    /** The write half of POST: `insertOne` of the new review, a re-read of
        all of its product's reviews, and the `updateOne` upsert of their
        count and rounded mean. */
    method InsertAndUpsert(review: Review) returns (aggregate: Aggregate)
      requires Valid()
      requires review.productId != "" && 1 <= review.rating <= 5
      requires !HasReviewBy(reviews, review.productId, review.userId)
      modifies this
      ensures Valid()
      ensures reviews == old(reviews) + [review]
      ensures |ReviewsFor(reviews, review.productId)| > 0
      ensures aggregate == AggregateOf(reviews, review.productId)
      ensures ratings == old(ratings)[review.productId := aggregate]
      ensures aggregate.reviewCount == |ReviewsFor(reviews, review.productId)|
      ensures 10 <= aggregate.averageRating <= 50
    {
      var pid := review.productId;
      var inserted := reviews + [review];
      aggregate := AggregateOf(inserted, pid);
      UpsertKeepsConsistent(reviews, ratings, review);
      reviews, ratings := inserted, ratings[pid := aggregate];
    }
  }
}
