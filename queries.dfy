/** How the read endpoints and the client cache relate to the review store
    and to each other. */
module Queries {
  import opened Wrappers
  import opened Text
  import opened Reviews
  import opened Aggregates
  import opened Http
  import opened ReviewsRoute
  import opened RatingRoute
  import opened RatingsRoute
  import opened BatchRatingsHook

  /** Against a consistent store, the single lookup finds an aggregate
      exactly for products that have reviews, and that aggregate counts
      them and averages their ratings within [1.0, 5.0]. */
  lemma {:induction false} RatingReflectsReviews(reviews: seq<Review>, ratings: map<string, Aggregate>, productId: string)
    requires Consistent(reviews, ratings)
    requires productId != ""
    ensures GetRating(ratings, Some(productId)).body.rating.Some? <==> |ReviewsFor(reviews, productId)| > 0
    ensures GetRating(ratings, Some(productId)).body.rating.Some? ==>
      var doc := GetRating(ratings, Some(productId)).body.rating.value;
      doc.reviewCount == |ReviewsFor(reviews, productId)| && 10 <= doc.averageRating <= 50
  {
    var mine := ReviewsFor(reviews, productId);
    if |mine| > 0 {
      assert mine[0] in reviews;
      var k :| 0 <= k < |reviews| && reviews[k] == mine[0];
      StoredAggregateMeaning(reviews, ratings, productId);
    }
  }

  /** The batch and the single lookup agree: for each id of the list, the
      batch map has it exactly when the single lookup finds it, with the
      same numbers. */
  lemma BatchAgreesWithSingle(stored: map<string, Aggregate>, productIdsParam: string, productId: string)
    requires productIdsParam != ""
    requires productId in Split(productIdsParam, ',') && productId != ""
    ensures var batch := GetRatings(stored, Some(productIdsParam)).body.ratings;
            var single := GetRating(stored, Some(productId)).body.rating;
            && (productId in batch <==> single.Some?)
            && (single.Some? ==> batch[productId] == Aggregate(single.value.averageRating, single.value.reviewCount))
  {
  }

  /** The product id "__proto__" passes POST's validation, so it can have a
      stored aggregate. The single lookup then finds it, but the batch
      endpoint as written answers with an empty map; the own-key
      `GetRatings` answers with the aggregate. */
  lemma ProtoIdMissingFromBatch(stored: map<string, Aggregate>)
    requires "__proto__" in stored
    ensures GetRating(stored, Some("__proto__")).body.rating.Some?
    ensures GetRatingsAsWritten(stored, Some("__proto__")).body.ratings == map[]
    ensures GetRatings(stored, Some("__proto__")).body.ratings == map["__proto__" := stored["__proto__"]]
  {
    SplitWithoutSeparator("__proto__", ',');
    SingleIdRequest(stored, "__proto__");
    assert GetRatingsAsWritten(stored, Some("__proto__")).body.ratings.Keys == {};
  }

  /** The request the client builds reaches the server as exactly the
      uncached ids (when none holds a comma and the joined list is not
      empty), so the answer holds only uncached ids, each with its stored
      aggregate. */
  lemma {:induction false} ServerAnswersUncachedIds(stored: map<string, Aggregate>, ids: seq<string>, cache: map<string, Aggregate>)
    requires forall i :: 0 <= i < |ids| ==> ',' !in ids[i]
    requires Uncached(ids, cache) != [] && Join(Uncached(ids, cache), ',') != ""
    ensures GetRatings(stored, Some(Join(Uncached(ids, cache), ',')))
         == Response(OK, Ratings(Pick(stored, Uncached(ids, cache))))
  {
    var uncached := Uncached(ids, cache);
    forall i | 0 <= i < |uncached| ensures ',' !in uncached[i] {
      assert uncached[i] in ids;
    }
    SplitJoin(uncached, ',');
  }

  /** Two reviews of one product, first step: rating 5 on a product
      without reviews gives {5.0, 1} and a consistent store. */
  lemma TwoReviewsScenarioFirst(r1: Review)
    requires r1.productId == "P" && r1.userId == "ann" && r1.rating == 5
    ensures |ReviewsFor([r1], "P")| > 0
    ensures AggregateOf([r1], "P") == Aggregate(50, 1)
    ensures Consistent([r1], map["P" := Aggregate(50, 1)])
  {
    SingleReviewConsistent(r1);
  }

  /** A store holding one well-formed review and its aggregate, the rating
      in tenths over a count of one, is consistent. */
  lemma SingleReviewConsistent(x: Review)
    requires x.productId != "" && 1 <= x.rating <= 5
    ensures |ReviewsFor([x], x.productId)| > 0
    ensures AggregateOf([x], x.productId) == Aggregate(10 * x.rating, 1)
    ensures Consistent([x], map[x.productId := Aggregate(10 * x.rating, 1)])
  {
    var none: seq<Review> := [];
    assert none + [x] == [x];
    FirstReviewAggregate(none, x);
    InsertKeepsConsistent(none, map[], x);
  }

  /** Second step: rating 2 from another user gives {3.5, 2} and a
      consistent store; the first user now has a review of the product, so
      `Submit` rejects a second one from them and the aggregate stays. */
  lemma TwoReviewsScenarioSecond(r1: Review, r2: Review)
    requires r1.productId == "P" && r1.userId == "ann" && r1.rating == 5
    requires r2.productId == "P" && r2.userId == "bob" && r2.rating == 2
    ensures |ReviewsFor([r1, r2], "P")| > 0
    ensures AggregateOf([r1, r2], "P") == Aggregate(35, 2)
    ensures Consistent([r1, r2], map["P" := Aggregate(35, 2)])
    ensures HasReviewBy([r1, r2], "P", "ann")
  {
    TwoReviewsScenarioFirst(r1);
    assert [r1] + [r2] == [r1, r2];
    assert !HasReviewBy([r1], "P", "bob");
    InsertKeepsConsistent([r1], map["P" := Aggregate(50, 1)], r2);
    SecondAggregate(r1, r2);
    assert [r1, r2][0] == r1;
  }

  /** The aggregate after the second review: {3.5, 2}. */
  lemma SecondAggregate(r1: Review, r2: Review)
    requires r1.productId == "P" && r1.rating == 5
    requires r2.productId == "P" && r2.rating == 2
    ensures ReviewsFor([r1, r2], "P") == [r1, r2]
    ensures AggregateOf([r1, r2], "P") == Aggregate(35, 2)
  {
    var none: seq<Review> := [];
    assert none + [r1] == [r1] && [r1] + [r2] == [r1, r2];
    ReviewsForAppend(none, r1, "P");
    ReviewsForAppend([r1], r2, "P");
    assert [r1, r2][..1] == [r1];
    assert SumRatings([r1, r2]) == 7;
    RoundedMeanUnique(7, 2, 35);
  }
}
