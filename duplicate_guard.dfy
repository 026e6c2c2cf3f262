/** The store middlewares of /store/product-reviews: the guard that refuses a
    second review of the same order line item, and the numeric bounds of the
    random-sample query and of a submitted review. The lookup of stored reviews
    is an input: a function from a (line item, order) pair to what the query
    returned for it. */
module StoreMiddleware {
  import opened Common
  import RandomSampler

  /** One submitted review as the guard reads it, before the body is validated:
      either id may be missing. */
  datatype ReviewRef = ReviewRef(orderId: Option<string>, orderLineItemId: Option<string>)

  /** What the lookup of one (line item, order) pair gives: the number of stored
      reviews with that pair (a missing `data` counts as 0), or a thrown error. */
  datatype LookupResult = Rows(count: nat) | LookupFailed

  /** The guard's outcome: hand on to the next handler, or answer 409. */
  datatype GuardOutcome =
    | Next
    | Duplicate(status: int, error: string, message: string, orderLineItemId: string)

  const DuplicateError: string := "DUPLICATE_REVIEW"
  const DuplicateMessage: string := "You have already submitted a review for this item"

  /** Only a review with both ids truthy is looked up. */
  predicate Checked(review: ReviewRef)
  {
    Truthy(review.orderLineItemId) && Truthy(review.orderId)
  }

  /** The (line item, order) pair a checked review is looked up by. */
  function KeyOf(review: ReviewRef): (string, string)
    requires Checked(review)
  {
    (review.orderLineItemId.value, review.orderId.value)
  }

  /** The scan stops at this element of the body's list: it is `null` or `undefined`
      (reading its ids throws), or it is looked up and the lookup either finds a stored
      review or throws. */
  predicate Stops(lookup: (string, string) -> LookupResult, element: Option<ReviewRef>)
  {
    || element.None?
    || (Checked(element.value) && (lookup(KeyOf(element.value).0, KeyOf(element.value).1).LookupFailed?
                                   || lookup(KeyOf(element.value).0, KeyOf(element.value).1).count > 0))
  }

  /** The index of the first review the scan stops at, or `|reviews|` when it stops at none. */
  function StopIndex(lookup: (string, string) -> LookupResult, reviews: seq<Option<ReviewRef>>): (i: nat)
    ensures i <= |reviews|
    ensures forall j :: 0 <= j < i ==> !Stops(lookup, reviews[j])
    ensures i < |reviews| ==> Stops(lookup, reviews[i])
  {
    if reviews == [] then 0
    else if Stops(lookup, reviews[0]) then 0
    else 1 + StopIndex(lookup, reviews[1..])
  }

  /** The pairs looked up while scanning `reviews` to its end, in order. */
  function CheckedKeys(reviews: seq<Option<ReviewRef>>): (keys: seq<(string, string)>)
    ensures |keys| <= |reviews|
    ensures forall key :: key in keys ==>
              exists j :: 0 <= j < |reviews| && reviews[j].Some? && Checked(reviews[j].value) && key == KeyOf(reviews[j].value)
  {
    if reviews == [] then []
    else
      var last := reviews[|reviews| - 1];
      CheckedKeys(reviews[..|reviews| - 1]) + (if last.Some? && Checked(last.value) then [KeyOf(last.value)] else [])
  }

  /** `preventDuplicateReviews`. Non-POST requests and an absent or empty list pass
      without a lookup. Otherwise the reviews are scanned in order up to the first
      one whose pair is already reviewed (answered with 409 and its line item id),
      whose lookup throws, or that is `null` or `undefined` (in both of those cases
      the error is caught and the guard lets the request through); `queried`
      lists the pairs looked up, so nothing after the stopping review is examined. */
  method PreventDuplicateReviews(httpMethod: string, reviews: Option<seq<Option<ReviewRef>>>,
                                 lookup: (string, string) -> LookupResult)
    returns (outcome: GuardOutcome, queried: seq<(string, string)>)
    ensures httpMethod != "POST" || reviews.None? || reviews.value == [] ==>
              outcome == Next && queried == []
    ensures httpMethod == "POST" && reviews.Some? ==>
              var list := reviews.value;
              var stop := StopIndex(lookup, list);
              && queried == CheckedKeys(list[..if stop < |list| then stop + 1 else stop])
              && (outcome.Duplicate? <==>
                    stop < |list| && list[stop].Some?
                    && lookup(KeyOf(list[stop].value).0, KeyOf(list[stop].value).1).Rows?)
              && (outcome.Duplicate? ==>
                    outcome == Duplicate(409, DuplicateError, DuplicateMessage, list[stop].value.orderLineItemId.value))
  {
    outcome := Next;
    queried := [];
    if httpMethod != "POST" {
      return;
    }
    if reviews.None? || |reviews.value| == 0 {
      return;
    }
    var list := reviews.value;
    var i := 0;
    while i < |list|
      invariant 0 <= i <= |list|
      invariant forall j :: 0 <= j < i ==> !Stops(lookup, list[j])
      invariant queried == CheckedKeys(list[..i])
      invariant outcome == Next
    {
      var element := list[i];
      assert list[..i + 1][..i] == list[..i];
      if element.None? {
        // Reading an id of `null` throws; the error is caught and the request goes on.
        return;
      }
      var review := element.value;
      if review.orderLineItemId.Some? && review.orderLineItemId.value != ""
         && review.orderId.Some? && review.orderId.value != "" {
        var found := lookup(review.orderLineItemId.value, review.orderId.value);
        queried := queried + [(review.orderLineItemId.value, review.orderId.value)];
        if found.LookupFailed? {
          // The error is caught and the request goes on.
          return;
        }
        if found.count > 0 {
          outcome := Duplicate(409, DuplicateError, DuplicateMessage, review.orderLineItemId.value);
          return;
        }
      }
      i := i + 1;
    }
    assert list[..i] == list;
  }

  /** A review whose pair is already reviewed, when no earlier review stopped the
      scan, is the one the scan stops at, so it gets the 409. */
  lemma {:induction false} DuplicateDetected(reviews: seq<Option<ReviewRef>>, lookup: (string, string) -> LookupResult, i: nat)
    requires i < |reviews| && reviews[i].Some? && Checked(reviews[i].value)
    requires lookup(KeyOf(reviews[i].value).0, KeyOf(reviews[i].value).1).Rows?
    requires lookup(KeyOf(reviews[i].value).0, KeyOf(reviews[i].value).1).count > 0
    requires forall j :: 0 <= j < i ==> !Stops(lookup, reviews[j])
    ensures StopIndex(lookup, reviews) == i
  {
    if i > 0 {
      assert !Stops(lookup, reviews[0]);
      assert forall j :: 0 <= j < i - 1 ==> reviews[1..][j] == reviews[j + 1];
      DuplicateDetected(reviews[1..], lookup, i - 1);
    }
  }

  // Bounds of the validated random-sample query and of a submitted review.

  const MinWithImages: int := 0
  const MaxWithImages: int := 10
  const MinTotal: int := 1
  const MaxTotal: int := 20
  const MinRating: int := 1
  const MaxRating: int := 5

  /** The random query's `withImages` and `total` pass validation (either may be absent). */
  predicate ValidRandomBounds(withImages: Option<int>, total: Option<int>): (b: bool)
    ensures b ==> && MinWithImages <= RandomSampler.OrDefault(withImages, RandomSampler.DefaultWithImages) <= MaxWithImages
                  && MinTotal <= RandomSampler.OrDefault(total, RandomSampler.DefaultTotal) <= MaxTotal
  {
    && (withImages.Some? ==> MinWithImages <= withImages.value <= MaxWithImages)
    && (total.Some? ==> MinTotal <= total.value <= MaxTotal)
  }

  /** A submitted review's rating passes validation. */
  predicate ValidRating(rating: int): (b: bool)
    ensures b <==> rating in {1, 2, 3, 4, 5}
  {
    MinRating <= rating <= MaxRating
  }

  /** Validation does not keep the sample within `total`: withImages = 5 and total = 2
      both pass, and with five image reviews and thirty without, the sampler
      returns 32 reviews, more than the largest total a request may ask for. */
  lemma ValidatedQueryExceedsMaxTotal(fetched: seq<RandomSampler.Review>, imageDraws: seq<nat>, plainDraws: seq<nat>)
    requires RandomSampler.ValidDrawsFor(fetched, imageDraws, plainDraws)
    requires |RandomSampler.ImageReviews(fetched)| == 5 && |RandomSampler.NonImageReviews(fetched)| == 30
    ensures ValidRandomBounds(Some(5), Some(2))
    ensures |RandomSampler.Select(fetched, 5, 2, imageDraws, plainDraws).Combined()| == 32 > MaxTotal
  {
    RandomSampler.SelectImageCount(fetched, 5, 2, imageDraws, plainDraws);
    RandomSampler.SelectBackfillCount(fetched, 5, 2, imageDraws, plainDraws);
  }

  /** With the backfill clamped at zero, no validated query gets more than the largest
      total back. */
  lemma ValidatedCappedWithinMaxTotal(fetched: seq<RandomSampler.Review>, withImages: int, total: int,
                                      imageDraws: seq<nat>, plainDraws: seq<nat>)
    requires RandomSampler.ValidDrawsFor(fetched, imageDraws, plainDraws)
    requires ValidRandomBounds(Some(withImages), Some(total))
    ensures |RandomSampler.SelectCapped(fetched, withImages, total, imageDraws, plainDraws).Combined()| <= MaxTotal
  {
    RandomSampler.SelectCappedBound(fetched, withImages, total, imageDraws, plainDraws);
  }
}
