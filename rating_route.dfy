/** GET /api/reviews/rating?productId=... (app/api/reviews/rating/route.ts):
    the stored aggregate of one product, or null. */
module RatingRoute {
  import opened Wrappers
  import opened Aggregates
  import opened Http

  /** 400 without a product id; otherwise success, carrying the stored
      aggregate document when there is one and null when there is not. */
  function GetRating(stored: map<string, Aggregate>, productId: Option<string>): (resp: Response)
    ensures productId.None? || productId.value == "" ==>
      resp == Response(BadRequest, Error("Product ID is required"))
    ensures productId.Some? && productId.value != "" ==>
      && resp.status == OK && resp.body.Rating?
      && (resp.body.rating.Some? <==> productId.value in stored)
      && (resp.body.rating.Some? ==>
            var doc := resp.body.rating.value;
            && doc.productId == productId.value
            && Aggregate(doc.averageRating, doc.reviewCount) == stored[productId.value])
  {
    match productId
    case None => Response(BadRequest, Error("Product ID is required"))
    case Some(p) =>
      if p == "" then Response(BadRequest, Error("Product ID is required"))
      else if p in stored then
        Response(OK, Rating(Some(RatingDocument(p, stored[p].averageRating, stored[p].reviewCount))))
      else Response(OK, Rating(None))
  }
}
