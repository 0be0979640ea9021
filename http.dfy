/** The JSON responses of the review endpoints: a status code and a body. */
module Http {
  import opened Wrappers
  import opened Reviews
  import opened Aggregates

  const OK := 200
  const BadRequest := 400
  const Unauthorized := 401

  /** A `productRatings` document as `findOne` returns it. */
  datatype RatingDocument = RatingDocument(productId: string, averageRating: int, reviewCount: nat)

  datatype Body =
    | Error(error: string)                                  // { error }
    | ReviewList(reviews: seq<ReviewResponse>)              // { reviews }
    | Submitted(success: bool, review: ReviewResponse,
                newRating: int, reviewCount: nat)           // { success, review, newRating, reviewCount }
    | Rating(rating: Option<RatingDocument>)                // { rating }, null when absent
    | Ratings(ratings: map<string, Aggregate>)              // { ratings }

  datatype Response = Response(status: int, body: Body)
}
