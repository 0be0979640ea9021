/** The stored review record, its public response shape and the mapping
    between them (models/Review.ts). */
module Reviews {
  import opened Wrappers

  /** A MongoDB ObjectId, seen only through its `toString()` (24 hex digits
      for a store-assigned id). */
  datatype ObjectId = ObjectId(hex: string)

  /** Timestamps are milliseconds since the epoch. */
  type Timestamp = int

  /** A stored review. `id` is the document's optional `_id`. */
  datatype Review = Review(
    id: Option<ObjectId>,
    productId: string,
    userId: string,
    userName: string,
    rating: int,
    comment: string,
    createdAt: Timestamp)

  /** The shape a review takes in every API response. */
  datatype ReviewResponse = ReviewResponse(
    id: string,
    productId: string,
    userId: string,
    userName: string,
    rating: int,
    comment: string,
    createdAt: Timestamp)

  /** `mapReviewToResponse`: `id` is `_id?.toString() || ''`, every other
      field is copied. */
  function ToResponse(review: Review): (r: ReviewResponse)
    ensures review.id.None? ==> r.id == ""
    ensures review.id.Some? ==> r.id == review.id.value.hex
    ensures r.productId == review.productId && r.userId == review.userId
    ensures r.userName == review.userName
    ensures r.rating == review.rating && r.comment == review.comment
    ensures r.createdAt == review.createdAt
  {
    ReviewResponse(
      match review.id
      case Some(oid) => oid.hex
      case None => "",
      review.productId, review.userId, review.userName,
      review.rating, review.comment, review.createdAt)
  }

  /** Reading a response back as a review: an empty `id` means no `_id`. */
  function FromResponse(resp: ReviewResponse): Review
  {
    Review(
      if resp.id == "" then None else Some(ObjectId(resp.id)),
      resp.productId, resp.userId, resp.userName,
      resp.rating, resp.comment, resp.createdAt)
  }

  /** A review whose `_id`, when present, prints as a non-empty string. */
  predicate HasPrintableId(review: Review)
  {
    review.id.Some? ==> review.id.value.hex != ""
  }

  /** The mapping loses nothing: the review can be recovered from its
      response, so distinct reviews give distinct responses. */
  lemma ToResponseRoundTrip(review: Review)
    requires HasPrintableId(review)
    ensures FromResponse(ToResponse(review)) == review
  {
  }

  /** `reviews.map(mapReviewToResponse)`: same length, same order. */
  function ToResponses(reviews: seq<Review>): (rs: seq<ReviewResponse>)
    ensures |rs| == |reviews|
    ensures forall i :: 0 <= i < |reviews| ==> rs[i] == ToResponse(reviews[i])
  {
    seq(|reviews|, i requires 0 <= i < |reviews| => ToResponse(reviews[i]))
  }

  /** Reviews ordered by `createdAt`, newest first. */
  predicate NewestFirst(reviews: seq<Review>)
  {
    forall i, j :: 0 <= i < j < |reviews| ==> reviews[i].createdAt >= reviews[j].createdAt
  }

  predicate ResponsesNewestFirst(rs: seq<ReviewResponse>)
  {
    forall i, j :: 0 <= i < j < |rs| ==> rs[i].createdAt >= rs[j].createdAt
  }

  /** Mapping a list keeps its order: a newest-first list of reviews maps to
      a newest-first list of responses. */
  lemma ToResponsesKeepsOrder(reviews: seq<Review>)
    requires NewestFirst(reviews)
    ensures ResponsesNewestFirst(ToResponses(reviews))
  {
  }
}
