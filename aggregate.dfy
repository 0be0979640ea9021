/** The per-product rating aggregate and how it is derived from reviews
    (the `reduce` and division in app/api/reviews/route.ts, the map built by
    the two rating lookups). Averages are kept in integer tenths of a star:
    a stored 3.5 is 35 here. */
module Aggregates {
  import opened Reviews

  /** A `productRatings` document's payload. */
  datatype Aggregate = Aggregate(averageRating: int, reviewCount: nat)

  /** `find({ productId })`: the reviews of one product, in store order. */
  function ReviewsFor(reviews: seq<Review>, productId: string): (r: seq<Review>)
    ensures |r| <= |reviews|
    ensures forall i :: 0 <= i < |r| ==> r[i].productId == productId
    ensures forall x :: x in reviews && x.productId == productId ==> x in r
    ensures forall x :: x in r ==> x in reviews
    decreases |reviews|
  {
    if reviews == [] then []
    else
      var last := reviews[|reviews| - 1];
      var earlier := ReviewsFor(reviews[..|reviews| - 1], productId);
      assert reviews == reviews[..|reviews| - 1] + [last];
      if last.productId == productId then earlier + [last] else earlier
  }

  /** Appending a review of another product leaves a product's reviews as
      they were; appending one of this product appends it to them. */
  lemma ReviewsForAppend(reviews: seq<Review>, x: Review, productId: string)
    ensures ReviewsFor(reviews + [x], productId)
         == ReviewsFor(reviews, productId) + (if x.productId == productId then [x] else [])
  {
    assert (reviews + [x])[..|reviews|] == reviews;
  }

  predicate RatingsInRange(reviews: seq<Review>)
  {
    forall i :: 0 <= i < |reviews| ==> 1 <= reviews[i].rating <= 5
  }

  /** `allReviews.reduce((sum, review) => sum + review.rating, 0)`: the sum
      of n ratings in [1, 5] lies in [n, 5n]. */
  function SumRatings(reviews: seq<Review>): (sum: int)
    ensures reviews == [] ==> sum == 0
    ensures RatingsInRange(reviews) ==> |reviews| <= sum <= 5 * |reviews|
    decreases |reviews|
  {
    if reviews == [] then 0
    else
      var prefix := reviews[..|reviews| - 1];
      assert RatingsInRange(reviews) ==> RatingsInRange(prefix) by {
        if RatingsInRange(reviews) {
          forall i | 0 <= i < |prefix| ensures 1 <= prefix[i].rating <= 5 {
            assert prefix[i] == reviews[i];
          }
        }
      }
      SumRatings(prefix) + reviews[|reviews| - 1].rating
  }

  /** `parseFloat((sum / count).toFixed(1))` in tenths: the mean times ten,
      rounded half-up to an integer. */
  function RoundedMeanTenths(sum: int, count: nat): (tenths: int)
    requires count > 0
    ensures 2 * count * tenths <= 20 * sum + count < 2 * count * tenths + 2 * count
  {
    var num, den := 20 * sum + count, 2 * count;
    var q := num / den;
    assert num == den * q + num % den;
    q
  }

  /** The rounded mean is the one integer within half a tenth of the exact
      mean, a tie going up: no other value satisfies the rounding bounds. */
  lemma RoundedMeanUnique(sum: int, count: nat, t: int)
    requires count > 0
    requires 2 * count * t <= 20 * sum + count < 2 * count * t + 2 * count
    ensures t == RoundedMeanTenths(sum, count)
  {
    var q := RoundedMeanTenths(sum, count);
    if t < q {
      MulMonotone(2 * count, t + 1, q);
    } else if t > q {
      MulMonotone(2 * count, q + 1, t);
    }
  }

  lemma MulMonotone(c: nat, a: int, b: int)
    requires a <= b
    ensures c * a <= c * b
  {
  }

  /** A mean of ratings in [1, 5] rounds to a value in [1.0, 5.0]. */
  lemma RoundedMeanInRange(sum: int, count: nat)
    requires count > 0
    requires count <= sum <= 5 * count
    ensures 10 <= RoundedMeanTenths(sum, count) <= 50
  {
    var q := RoundedMeanTenths(sum, count);
    if q > 50 {
      MulMonotone(2 * count, 51, q);
      assert false;
    }
    if q < 10 {
      MulMonotone(2 * count, q + 1, 10);
      assert false;
    }
  }

  /** The aggregate the POST handler upserts after re-reading a product's
      reviews: their count and their rounded mean. */
  function AggregateOf(reviews: seq<Review>, productId: string): (agg: Aggregate)
    requires |ReviewsFor(reviews, productId)| > 0
    ensures agg.reviewCount == |ReviewsFor(reviews, productId)| >= 1
    ensures RatingsInRange(ReviewsFor(reviews, productId)) ==> 10 <= agg.averageRating <= 50
  {
    var mine := ReviewsFor(reviews, productId);
    var sum := SumRatings(mine);
    assert RatingsInRange(mine) ==> 10 <= RoundedMeanTenths(sum, |mine|) <= 50 by {
      if RatingsInRange(mine) { RoundedMeanInRange(sum, |mine|); }
    }
    Aggregate(RoundedMeanTenths(sum, |mine|), |mine|)
  }

  /** The aggregate counts the product's reviews, and when their ratings are
      in range its average is in [1.0, 5.0] and is their rounded mean. */
  lemma AggregateOfMeaning(reviews: seq<Review>, productId: string)
    requires |ReviewsFor(reviews, productId)| > 0
    requires RatingsInRange(ReviewsFor(reviews, productId))
    ensures AggregateOf(reviews, productId).reviewCount == |ReviewsFor(reviews, productId)| >= 1
    ensures 10 <= AggregateOf(reviews, productId).averageRating <= 50
    ensures var mine := ReviewsFor(reviews, productId); var a := AggregateOf(reviews, productId).averageRating;
      2 * |mine| * a <= 20 * SumRatings(mine) + |mine| < 2 * |mine| * a + 2 * |mine|
  {
    var mine := ReviewsFor(reviews, productId);
    RoundedMeanInRange(SumRatings(mine), |mine|);
  }

  /** The first review of a product sets its aggregate to that rating
      (in tenths) over a count of one. */
  lemma FirstReviewAggregate(reviews: seq<Review>, x: Review)
    requires ReviewsFor(reviews, x.productId) == []
    ensures |ReviewsFor(reviews + [x], x.productId)| > 0
    ensures AggregateOf(reviews + [x], x.productId) == Aggregate(10 * x.rating, 1)
  {
    ReviewsForAppend(reviews, x, x.productId);
    assert ReviewsFor(reviews + [x], x.productId) == [x];
    assert [x][..0] == [];
    assert SumRatings([x]) == x.rating;
    RoundedMeanUnique(x.rating, 1, 10 * x.rating);
  }

  /** The `reduce` that keeps, for each requested id that has an aggregate,
      that aggregate: `acc[id] = m[id]` for every id in `ids` found in `m`. */
  function Pick(m: map<string, Aggregate>, ids: seq<string>): (r: map<string, Aggregate>)
    ensures forall id :: id in r <==> id in ids && id in m
    ensures forall id :: id in r ==> r[id] == m[id]
    decreases |ids|
  {
    if ids == [] then map[]
    else
      var acc := Pick(m, ids[..|ids| - 1]);
      var id := ids[|ids| - 1];
      assert ids == ids[..|ids| - 1] + [id];
      if id in m then acc[id := m[id]] else acc
  }
}
