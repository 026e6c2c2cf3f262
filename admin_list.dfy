/** The admin list endpoint (GET /admin/product-reviews): the validated filters
    are rewritten for the query layer (flat date bounds become an operator map,
    a search string becomes an `$or` of three `$like` clauses), and every image
    URL of the returned reviews gets the storage prefix. The query itself is an
    input: its rows and metadata are parameters. */
module AdminList {
  import opened Common

  /** A JSON value of the filter object. */
  datatype Json =
    | JNull
    | JBool(b: bool)
    | JNum(n: int)
    | JStr(s: string)
    | JArr(items: seq<Json>)
    | JObj(fields: map<string, Json>)

  /** JavaScript truthiness; every array and object is truthy. */
  predicate IsTruthy(v: Json)
  {
    match v
    case JNull => false
    case JBool(b) => b
    case JNum(n) => n != 0
    case JStr(s) => s != ""
    case JArr(_) => true
    case JObj(_) => true
  }

  /** `filters[key]` is truthy; a missing key is `undefined`, which is not. */
  predicate TruthyAt(filters: map<string, Json>, key: string)
  {
    key in filters && IsTruthy(filters[key])
  }

  /** The text a value takes inside a template literal `${v}`. */
  function TemplateString(v: Json): string
    decreases v, 1, 0
  {
    match v
    case JNull => "null"
    case JBool(b) => if b then "true" else "false"
    case JNum(n) => IntToString(n)
    case JStr(s) => s
    case JArr(items) => JoinFrom(items, 0)
    case JObj(_) => "[object Object]"
  }

  /** `items.slice(i).join(",")`, where `null` elements become "". */
  function JoinFrom(items: seq<Json>, i: nat): string
    requires i <= |items|
    decreases JArr(items), 0, |items| - i
  {
    if i == |items| then ""
    else
      var head := if items[i].JNull? then "" else TemplateString(items[i]);
      if i + 1 == |items| then head else head + "," + JoinFrom(items, i + 1)
  }

  /** `{ [field]: { $like: `%${term}%` } }`. */
  function LikeClause(field: string, term: string): Json
  {
    JObj(map[field := JObj(map["$like" := JStr("%" + term + "%")])])
  }

  /** The `$or` list the search term becomes: content, name and e-mail contain it. */
  function SearchClauses(term: string): Json
  {
    JArr([LikeClause("content", term), LikeClause("name", term), LikeClause("email", term)])
  }

  /** `a` and `b` agree at `key`: both lack it, or both hold the same value. */
  predicate SameAt(a: map<string, Json>, b: map<string, Json>, key: string)
  {
    (key in a <==> key in b) && (key in a ==> a[key] == b[key])
  }

  const RewrittenKeys: set<string> := {"created_at", "created_at_gte", "created_at_lte", "q", "$or"}

  /** The filter rewriting of the handler, on its shallow copy of the validated
      filters (a Dafny map is a value, so the request's own filters stay as they were). */
  method RewriteFilters(filterable: map<string, Json>) returns (filters: map<string, Json>)
    ensures forall key :: key !in RewrittenKeys ==> SameAt(filters, filterable, key)
    ensures var gte, lte := TruthyAt(filterable, "created_at_gte"), TruthyAt(filterable, "created_at_lte");
            && (gte || lte ==>
                  && "created_at" in filters && filters["created_at"].JObj?
                  && filters["created_at"].fields.Keys == (if gte then {"$gte"} else {}) + (if lte then {"$lte"} else {})
                  && (gte ==> filters["created_at"].fields["$gte"] == filterable["created_at_gte"])
                  && (lte ==> filters["created_at"].fields["$lte"] == filterable["created_at_lte"]))
            && (!gte && !lte ==> SameAt(filters, filterable, "created_at"))
            && (gte ==> "created_at_gte" !in filters)
            && (!gte ==> SameAt(filters, filterable, "created_at_gte"))
            && (lte ==> "created_at_lte" !in filters)
            && (!lte ==> SameAt(filters, filterable, "created_at_lte"))
    ensures TruthyAt(filterable, "q") ==>
              "q" !in filters && "$or" in filters
              && filters["$or"] == SearchClauses(TemplateString(filterable["q"]))
    ensures !TruthyAt(filterable, "q") ==> SameAt(filters, filterable, "q") && SameAt(filters, filterable, "$or")
  {
    filters := filterable;
    if TruthyAt(filters, "created_at_gte") || TruthyAt(filters, "created_at_lte") {
      var range: map<string, Json> := map[];
      filters := filters["created_at" := JObj(range)];
      if TruthyAt(filters, "created_at_gte") {
        range := range["$gte" := filters["created_at_gte"]];
        filters := filters["created_at" := JObj(range)] - {"created_at_gte"};
      }
      if TruthyAt(filters, "created_at_lte") {
        range := range["$lte" := filters["created_at_lte"]];
        filters := filters["created_at" := JObj(range)] - {"created_at_lte"};
      }
    }
    if TruthyAt(filters, "q") {
      var searchTerm := filters["q"];
      filters := filters - {"q"};
      filters := filters["$or" := SearchClauses(TemplateString(searchTerm))];
    }
  }

  /** One image row as the query returns it. */
  datatype ReviewImage = ReviewImage(id: string, url: string, mimeType: string)

  /** A review as the query returns it: its image rows, `None` when the requested
      fields leave them out (or they are `null`), and its other fields. */
  datatype ListedReview = ListedReview(id: string, fields: map<string, Json>, images: Option<seq<ReviewImage>>)

  /** `images.map(image => ({ ...image, url: `${prefixUrl}${image.url}` }))`. */
  function PrefixImages(images: seq<ReviewImage>, prefixUrl: string): (r: seq<ReviewImage>)
    ensures |r| == |images|
    ensures forall k :: 0 <= k < |images| ==>
              r[k].url == prefixUrl + images[k].url && r[k].(url := images[k].url) == images[k]
  {
    if images == [] then [] else [images[0].(url := prefixUrl + images[0].url)] + PrefixImages(images[1..], prefixUrl)
  }

  /** `reviews.map(review => ({ ...review, images: review.images.map(...) }))`: every
      review keeps its fields and gets its image URLs prefixed. A review without an
      image list makes `review.images.map` throw, which `None` stands for. */
  function PrefixReviews(reviews: seq<ListedReview>, prefixUrl: string): (r: Option<seq<ListedReview>>)
    ensures r.None? <==> exists k :: 0 <= k < |reviews| && reviews[k].images.None?
    ensures r.Some? ==> |r.value| == |reviews|
    ensures r.Some? ==> forall k :: 0 <= k < |reviews| ==>
              && r.value[k].id == reviews[k].id && r.value[k].fields == reviews[k].fields
              && reviews[k].images.Some?
              && r.value[k].images == Some(PrefixImages(reviews[k].images.value, prefixUrl))
  {
    if reviews == [] then Some([])
    else if reviews[0].images.None? then None
    else
      var head := reviews[0].(images := Some(PrefixImages(reviews[0].images.value, prefixUrl)));
      match PrefixReviews(reviews[1..], prefixUrl)
      case None =>
        assert exists k :: 1 <= k < |reviews| && reviews[k].images.None? by {
          var k :| 0 <= k < |reviews[1..]| && reviews[1..][k].images.None?;
          assert reviews[k + 1].images.None?;
        }
        None
      case Some(rest) => Some([head] + rest)
  }

  /** Removes `prefixUrl` from every image URL, the inverse of the prefixing. */
  function StripImages(images: seq<ReviewImage>, prefixUrl: string): seq<ReviewImage>
  {
    if images == [] then []
    else
      var url := images[0].url;
      var stripped := if StartsWith(url, prefixUrl) then url[|prefixUrl|..] else url;
      [images[0].(url := stripped)] + StripImages(images[1..], prefixUrl)
  }

  /** Prefixing loses nothing: stripping the prefix gives the stored image rows back. */
  lemma {:induction false} PrefixImagesRoundTrip(images: seq<ReviewImage>, prefixUrl: string)
    ensures StripImages(PrefixImages(images, prefixUrl), prefixUrl) == images
  {
    if images != [] {
      PrefixImagesRoundTrip(images[1..], prefixUrl);
      var p := PrefixImages(images, prefixUrl);
      assert p[0].url[..|prefixUrl|] == prefixUrl;
      assert p[0].url[|prefixUrl|..] == images[0].url;
      assert p[1..] == PrefixImages(images[1..], prefixUrl);
    }
  }

  /** The query's pagination metadata. */
  datatype Metadata = Metadata(count: int, skip: int, take: int)

  datatype ListResponse = ListResponse(productReviews: seq<ListedReview>, count: int, offset: int, limit: int)

  /** What the handler answers: the 200 response, or the framework's 500 for the
      error the handler throws. */
  datatype ListOutcome = Ok(response: ListResponse) | InternalError

  /** The response: the prefixed reviews and the metadata's count, skip and take,
      which default to 0 when the query returns no metadata; a review fetched
      without its image list makes the handler throw. */
  function Respond(reviews: seq<ListedReview>, metadata: Option<Metadata>, prefixUrl: string): (r: ListOutcome)
    ensures r.InternalError? <==> exists k :: 0 <= k < |reviews| && reviews[k].images.None?
    ensures r.Ok? ==> Some(r.response.productReviews) == PrefixReviews(reviews, prefixUrl)
    ensures r.Ok? ==> |r.response.productReviews| == |reviews|
    ensures r.Ok? ==> forall k :: 0 <= k < |reviews| ==>
              && r.response.productReviews[k].id == reviews[k].id
              && r.response.productReviews[k].fields == reviews[k].fields
              && r.response.productReviews[k].images.Some? && reviews[k].images.Some?
              && StripImages(r.response.productReviews[k].images.value, prefixUrl) == reviews[k].images.value
    ensures r.Ok? && metadata.None? ==> r.response.count == 0 && r.response.offset == 0 && r.response.limit == 0
    ensures r.Ok? && metadata.Some? ==>
              && r.response.count == metadata.value.count && r.response.offset == metadata.value.skip
              && r.response.limit == metadata.value.take
  {
    var m := if metadata.Some? then metadata.value else Metadata(0, 0, 0);
    match PrefixReviews(reviews, prefixUrl)
    case None => InternalError
    case Some(prefixed) =>
      assert forall k :: 0 <= k < |reviews| ==>
               StripImages(PrefixImages(reviews[k].images.value, prefixUrl), prefixUrl) == reviews[k].images.value by {
        forall k | 0 <= k < |reviews| {
          PrefixImagesRoundTrip(reviews[k].images.value, prefixUrl);
        }
      }
      Ok(ListResponse(prefixed, m.count, m.skip, m.take))
  }
}
