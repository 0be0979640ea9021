/** GET /api/reviews/ratings?productIds=id1,id2,... (app/api/reviews/ratings/route.ts):
    the stored aggregates of a comma-separated list of products. */
module RatingsRoute {
  import opened Wrappers
  import opened Text
  import opened Aggregates
  import opened Http

  /** 400 without a parameter; otherwise a map holding, for each requested
      id that has a stored aggregate, that aggregate, and no other key. */
  function GetRatings(stored: map<string, Aggregate>, productIdsParam: Option<string>): (resp: Response)
    ensures productIdsParam.None? || productIdsParam.value == "" ==>
      resp == Response(BadRequest, Error("Product IDs are required"))
    ensures productIdsParam.Some? && productIdsParam.value != "" ==>
      && resp.status == OK && resp.body.Ratings?
      && (forall id :: id in resp.body.ratings <==> id in Split(productIdsParam.value, ',') && id in stored)
      && (forall id :: id in resp.body.ratings ==> resp.body.ratings[id] == stored[id])
  {
    match productIdsParam
    case None => Response(BadRequest, Error("Product IDs are required"))
    case Some(param) =>
      if param == "" then Response(BadRequest, Error("Product IDs are required"))
      else
        var productIds := Split(param, ',');
        Response(OK, Ratings(Pick(stored, productIds)))
  }

  /** The `reduce` at route.ts:39-45 as JavaScript runs it on a plain `{}`:
      `acc["__proto__"] = …` calls the inherited `__proto__` setter, which
      replaces the object's prototype and adds no own key, so that id never
      reaches the JSON answer. */
  function PickIntoPlainObject(m: map<string, Aggregate>, ids: seq<string>): (r: map<string, Aggregate>)
    ensures forall id :: id in r <==> id in ids && id in m && id != "__proto__"
    ensures forall id :: id in r ==> r[id] == m[id]
    decreases |ids|
  {
    if ids == [] then map[]
    else
      var acc := PickIntoPlainObject(m, ids[..|ids| - 1]);
      var id := ids[|ids| - 1];
      assert ids == ids[..|ids| - 1] + [id];
      if id in m && id != "__proto__" then acc[id := m[id]] else acc
  }

  /** The endpoint as written: like `GetRatings`, but answering with the
      plain-object reduce. */
  function GetRatingsAsWritten(stored: map<string, Aggregate>, productIdsParam: Option<string>): (resp: Response)
    ensures productIdsParam.None? || productIdsParam.value == "" ==>
      resp == Response(BadRequest, Error("Product IDs are required"))
    ensures productIdsParam.Some? && productIdsParam.value != "" ==>
      && resp.status == OK && resp.body.Ratings?
      && (forall id :: id in resp.body.ratings <==>
            id in Split(productIdsParam.value, ',') && id in stored && id != "__proto__")
  {
    match productIdsParam
    case None => Response(BadRequest, Error("Product IDs are required"))
    case Some(param) =>
      if param == "" then Response(BadRequest, Error("Product IDs are required"))
      else Response(OK, Ratings(PickIntoPlainObject(stored, Split(param, ','))))
  }

  /** A parameter without a comma asks for one product: the result holds
      its aggregate when stored and is empty otherwise. */
  lemma SingleIdRequest(stored: map<string, Aggregate>, productId: string)
    requires productId != "" && ',' !in productId
    ensures GetRatings(stored, Some(productId)).body.ratings
         == if productId in stored then map[productId := stored[productId]] else map[]
  {
    SplitWithoutSeparator(productId, ',');
    var r := GetRatings(stored, Some(productId)).body.ratings;
    if productId in stored {
      assert r.Keys == {productId};
    } else {
      assert r.Keys == {};
    }
  }
}
