/** The storefront endpoint that returns a random sample of reviews
    (GET /store/product-reviews/random): reviews are split into those with image
    media and those without, each part is shuffled with Fisher-Yates, a bounded
    prefix of each is taken, image reviews come first, and the response carries
    counters about the pool and the sample.

    `Math.random()` is not modelled as a number: each shuffle receives the indices
    it draws, `draws[i]` being the value of `Math.floor(Math.random() * (i + 1))`
    at step `i`, so `0 <= draws[i] <= i`. */
module RandomSampler {
  import opened Common

  /** One image row of a review; `mimeType` is the row's `type` column. */
  datatype Media = Media(url: string, mimeType: Option<string>)

  /** The fields the endpoint fetches for a review; `images` may be missing. */
  datatype Review = Review(
    id: string,
    content: string,
    name: string,
    createdAt: string,
    rating: int,
    images: Option<seq<Media>>)

  const ImagePrefix: string := "image/"

  /** `media.type && media.type.startsWith('image/')`. */
  predicate IsImageType(t: Option<string>): (b: bool)
    ensures b <==> t.Some? && StartsWith(t.value, ImagePrefix)
  {
    Truthy(t) && StartsWith(t.value, ImagePrefix)
  }

  /** `media.some(m => m.type && m.type.startsWith('image/'))`. */
  function AnyImage(media: seq<Media>): (r: bool)
    ensures r <==> exists k :: 0 <= k < |media| && IsImageType(media[k].mimeType)
  {
    if media == [] then false
    else if IsImageType(media[0].mimeType) then true
    else
      assert forall k :: 1 <= k < |media| ==> media[k] == media[1..][k - 1];
      AnyImage(media[1..])
  }

  /** The classification `hasImageMedia`: some media row of the review has a type
      starting with "image/"; a review without images, with no rows, or with only
      other types is classified as without image media. */
  predicate HasImageMedia(review: Review): (b: bool)
    ensures b <==> review.images.Some?
                   && exists k :: 0 <= k < |review.images.value| && IsImageType(review.images.value[k].mimeType)
  {
    review.images.Some? && |review.images.value| > 0 && AnyImage(review.images.value)
  }

  predicate LacksImageMedia(review: Review) { !HasImageMedia(review) }

  /** `s.filter(p)`: the elements satisfying `p`, each as often as in `s`, in order. */
  function Filter<T(!new)>(s: seq<T>, p: T -> bool): (r: seq<T>)
    ensures forall k :: 0 <= k < |r| ==> p(r[k])
  {
    if s == [] then []
    else if p(s[0]) then [s[0]] + Filter(s[1..], p) else Filter(s[1..], p)
  }

  /** The filter drops nothing it should keep: every element satisfying `p` is kept
      as often as it occurs, and nothing else is kept. */
  lemma {:induction false} FilterComplete<T(!new)>(s: seq<T>, p: T -> bool)
    ensures multiset(Filter(s, p)) <= multiset(s)
    ensures forall x :: p(x) ==> multiset(Filter(s, p))[x] == multiset(s)[x]
    ensures forall x :: x in Filter(s, p) <==> x in s && p(x)
  {
    if s != [] {
      FilterComplete(s[1..], p);
      assert s == [s[0]] + s[1..];
      assert multiset(s) == multiset{s[0]} + multiset(s[1..]);
    }
  }

  function ImageReviews(reviews: seq<Review>): seq<Review> { Filter(reviews, HasImageMedia) }

  function NonImageReviews(reviews: seq<Review>): seq<Review> { Filter(reviews, LacksImageMedia) }

  /** The two filters split the fetched list: every review lands in exactly one part. */
  lemma {:induction false} Partition(reviews: seq<Review>)
    ensures multiset(ImageReviews(reviews)) + multiset(NonImageReviews(reviews)) == multiset(reviews)
    ensures |ImageReviews(reviews)| + |NonImageReviews(reviews)| == |reviews|
    ensures forall r :: r in ImageReviews(reviews) ==> HasImageMedia(r)
    ensures forall r :: r in NonImageReviews(reviews) ==> !HasImageMedia(r)
  {
    if reviews != [] {
      Partition(reviews[1..]);
      assert reviews == [reviews[0]] + reviews[1..];
    }
    assert |multiset(ImageReviews(reviews))| == |ImageReviews(reviews)|;
    assert |multiset(NonImageReviews(reviews))| == |NonImageReviews(reviews)|;
  }

  /** The element swap `[a[i], a[j]] = [a[j], a[i]]`. */
  function Swap<T>(s: seq<T>, i: nat, j: nat): (r: seq<T>)
    requires i < |s| && j < |s|
    ensures |r| == |s| && r[i] == s[j] && r[j] == s[i]
    ensures forall k :: 0 <= k < |s| && k != i && k != j ==> r[k] == s[k]
  {
    s[i := s[j]][j := s[i]]
  }

  lemma SwapPermutes<T>(s: seq<T>, i: nat, j: nat)
    requires i < |s| && j < |s|
    ensures multiset(Swap(s, i, j)) == multiset(s)
  {
  }

  /** The random source's promise: one index per position, `0 <= draws[i] <= i`. */
  predicate ValidDraws(draws: seq<nat>, n: nat)
  {
    |draws| == n && forall i :: 0 <= i < n ==> draws[i] <= i
  }

  /** The Fisher-Yates steps for positions `i` down to 1. */
  function ShuffleFrom<T>(s: seq<T>, draws: seq<nat>, i: int): (r: seq<T>)
    requires ValidDraws(draws, |s|) && -1 <= i < |s|
    ensures |r| == |s|
    decreases i
  {
    if i <= 0 then s else ShuffleFrom(Swap(s, i, draws[i]), draws, i - 1)
  }

  /** The result of `shuffleArray(s)` when the random source draws `draws`. */
  function Shuffled<T>(s: seq<T>, draws: seq<nat>): (r: seq<T>)
    requires ValidDraws(draws, |s|)
    ensures |r| == |s|
  {
    ShuffleFrom(s, draws, |s| - 1)
  }

  /** Each Fisher-Yates step is a swap, so the steps together permute the list. */
  lemma {:induction false} ShuffleFromPermutes<T>(s: seq<T>, draws: seq<nat>, i: int)
    requires ValidDraws(draws, |s|) && -1 <= i < |s|
    ensures multiset(ShuffleFrom(s, draws, i)) == multiset(s)
    decreases i
  {
    if i > 0 {
      SwapPermutes(s, i, draws[i]);
      ShuffleFromPermutes(Swap(s, i, draws[i]), draws, i - 1);
    }
  }

  /** `shuffleArray` returns a permutation of its argument. */
  lemma ShuffledPermutes<T>(s: seq<T>, draws: seq<nat>)
    requires ValidDraws(draws, |s|)
    ensures |Shuffled(s, draws)| == |s| && multiset(Shuffled(s, draws)) == multiset(s)
  {
    ShuffleFromPermutes(s, draws, |s| - 1);
  }

  /** `shuffleArray`: copies its argument into a fresh array and swaps within the copy,
      from the last position down to position 1, each time with a drawn index in
      [0, i]. The result is a permutation of the argument, which is left as it was. */
  method ShuffleArray<T>(s: seq<T>, draws: seq<nat>) returns (r: seq<T>)
    requires ValidDraws(draws, |s|)
    ensures r == Shuffled(s, draws)
    ensures |r| == |s| && multiset(r) == multiset(s)
  {
    var shuffled := new T[|s|](k requires 0 <= k < |s| => s[k]);
    var i := |s| - 1;
    assert shuffled[..] == s;
    while i > 0
      invariant -1 <= i < shuffled.Length == |s|
      invariant ShuffleFrom(shuffled[..], draws, i) == Shuffled(s, draws)
    {
      var j := draws[i];
      var t := shuffled[i];
      shuffled[i] := shuffled[j];
      shuffled[j] := t;
      i := i - 1;
    }
    r := shuffled[..];
    ShuffledPermutes(s, draws);
  }

  /** `s.slice(0, end)`, with ECMAScript's rule that a negative `end` counts back from
      the end of `s`. */
  function SliceTo<T>(s: seq<T>, end: int): (r: seq<T>)
    ensures r <= s
    ensures 0 <= end ==> |r| == Min(end, |s|)
    ensures end < 0 ==> |r| == Max(|s| + end, 0)
  {
    s[..if end >= 0 then Min(end, |s|) else Max(|s| + end, 0)]
  }

  /** The two selected groups: image reviews, then the backfill without image media. */
  datatype Selection = Selection(withImage: seq<Review>, withoutImage: seq<Review>)
  {
    function Combined(): seq<Review> { withImage + withoutImage }
  }

  predicate ValidDrawsFor(fetched: seq<Review>, imageDraws: seq<nat>, plainDraws: seq<nat>)
  {
    ValidDraws(imageDraws, |ImageReviews(fetched)|) && ValidDraws(plainDraws, |NonImageReviews(fetched)|)
  }

  /** Takes the image reviews and then `plainEnd` as the slice end of the shuffled
      reviews without image media. */
  function Compose(fetched: seq<Review>, withImagesCount: int, imageDraws: seq<nat>, plainDraws: seq<nat>,
                   plainEnd: seq<Review> -> int): (sel: Selection)
    requires ValidDrawsFor(fetched, imageDraws, plainDraws)
    ensures sel.withImage <= Shuffled(ImageReviews(fetched), imageDraws)
    ensures sel.withoutImage <= Shuffled(NonImageReviews(fetched), plainDraws)
  {
    var actualWithImagesCount := Min(withImagesCount, |ImageReviews(fetched)|);
    var selectedImage := SliceTo(Shuffled(ImageReviews(fetched), imageDraws), actualWithImagesCount);
    Selection(selectedImage, SliceTo(Shuffled(NonImageReviews(fetched), plainDraws), plainEnd(selectedImage)))
  }

  /** The selection as the endpoint computes it: the backfill slice ends at
      `totalCount - selectedImageReviews.length`, which is negative when more image
      reviews were selected than `totalCount`. */
  function Select(fetched: seq<Review>, withImagesCount: int, totalCount: int,
                  imageDraws: seq<nat>, plainDraws: seq<nat>): (sel: Selection)
    requires ValidDrawsFor(fetched, imageDraws, plainDraws)
    ensures sel.withImage <= Shuffled(ImageReviews(fetched), imageDraws)
    ensures sel.withoutImage <= Shuffled(NonImageReviews(fetched), plainDraws)
  {
    Compose(fetched, withImagesCount, imageDraws, plainDraws, selected => totalCount - |selected|)
  }

  /** Exactly `min(withImages, #image reviews)` image reviews are selected. */
  lemma SelectImageCount(fetched: seq<Review>, withImagesCount: int, totalCount: int,
                         imageDraws: seq<nat>, plainDraws: seq<nat>)
    requires ValidDrawsFor(fetched, imageDraws, plainDraws)
    requires withImagesCount >= 0
    ensures |Select(fetched, withImagesCount, totalCount, imageDraws, plainDraws).withImage|
            == Min(withImagesCount, |ImageReviews(fetched)|)
  {
  }

  /** The backfill holds `min(remaining, #non-image reviews)` reviews when
      `remaining = totalCount - #selected image reviews` is not negative, and all but
      the last `|remaining|` of them when it is. */
  lemma SelectBackfillCount(fetched: seq<Review>, withImagesCount: int, totalCount: int,
                            imageDraws: seq<nat>, plainDraws: seq<nat>)
    requires ValidDrawsFor(fetched, imageDraws, plainDraws)
    ensures var sel := Select(fetched, withImagesCount, totalCount, imageDraws, plainDraws);
            var remaining := totalCount - |sel.withImage|;
            && (remaining >= 0 ==> |sel.withoutImage| == Min(remaining, |NonImageReviews(fetched)|))
            && (remaining < 0 ==> |sel.withoutImage| == Max(|NonImageReviews(fetched)| + remaining, 0))
  {
  }

  /** Every selected image review has image media, no backfill review has, and
      the sample holds no review more often than the fetched list does. */
  lemma {:induction false} SelectSound(fetched: seq<Review>, withImagesCount: int, totalCount: int,
                                       imageDraws: seq<nat>, plainDraws: seq<nat>)
    requires ValidDrawsFor(fetched, imageDraws, plainDraws)
    ensures var sel := Select(fetched, withImagesCount, totalCount, imageDraws, plainDraws);
            && (forall k :: 0 <= k < |sel.withImage| ==> HasImageMedia(sel.Combined()[k]))
            && (forall k :: |sel.withImage| <= k < |sel.Combined()| ==> !HasImageMedia(sel.Combined()[k]))
            && multiset(sel.Combined()) <= multiset(fetched)
  {
    var sel := Select(fetched, withImagesCount, totalCount, imageDraws, plainDraws);
    var images, plain := ImageReviews(fetched), NonImageReviews(fetched);
    var shuffledImages, shuffledPlain := Shuffled(images, imageDraws), Shuffled(plain, plainDraws);
    Partition(fetched);
    ShuffledPermutes(images, imageDraws);
    ShuffledPermutes(plain, plainDraws);
    PrefixSubMultiset(shuffledImages, sel.withImage);
    PrefixSubMultiset(shuffledPlain, sel.withoutImage);
    forall k | 0 <= k < |sel.withImage|
      ensures HasImageMedia(sel.Combined()[k])
    {
      assert sel.Combined()[k] == shuffledImages[k];
      assert shuffledImages[k] in multiset(images);
    }
    forall k | |sel.withImage| <= k < |sel.Combined()|
      ensures !HasImageMedia(sel.Combined()[k])
    {
      assert sel.Combined()[k] == shuffledPlain[k - |sel.withImage|];
      assert shuffledPlain[k - |sel.withImage|] in multiset(plain);
    }
  }

  lemma PrefixSubMultiset<T>(s: seq<T>, p: seq<T>)
    requires p <= s
    ensures multiset(p) <= multiset(s)
  {
    assert s == p + s[|p|..];
  }

  /** When both groups have enough supply (`withImages <= #image reviews` and
      `total - withImages <= #non-image reviews`), the sample has exactly `total` reviews. */
  lemma SelectMeetsQuota(fetched: seq<Review>, withImagesCount: int, totalCount: int,
                         imageDraws: seq<nat>, plainDraws: seq<nat>)
    requires ValidDrawsFor(fetched, imageDraws, plainDraws)
    requires 0 <= withImagesCount <= |ImageReviews(fetched)|
    requires 0 <= totalCount - withImagesCount <= |NonImageReviews(fetched)|
    ensures |Select(fetched, withImagesCount, totalCount, imageDraws, plainDraws).Combined()| == totalCount
  {
    SelectImageCount(fetched, withImagesCount, totalCount, imageDraws, plainDraws);
    SelectBackfillCount(fetched, withImagesCount, totalCount, imageDraws, plainDraws);
  }

  /** When `total` is smaller than the number of selected image reviews, the backfill
      slice end is negative and the sample still takes non-image reviews: with
      withImages = 5, total = 2, five image reviews and ten without, 12 reviews come back. */
  lemma NegativeRemainderBackfills(fetched: seq<Review>, imageDraws: seq<nat>, plainDraws: seq<nat>)
    requires ValidDrawsFor(fetched, imageDraws, plainDraws)
    requires |ImageReviews(fetched)| == 5 && |NonImageReviews(fetched)| == 10
    ensures var sel := Select(fetched, 5, 2, imageDraws, plainDraws);
            |sel.withImage| == 5 && |sel.withoutImage| == 7 && |sel.Combined()| == 12
  {
    SelectImageCount(fetched, 5, 2, imageDraws, plainDraws);
    SelectBackfillCount(fetched, 5, 2, imageDraws, plainDraws);
  }

  /** The selection with the backfill clamped at zero: no non-image review is added
      once the image reviews alone reach `totalCount`. */
  function SelectCapped(fetched: seq<Review>, withImagesCount: int, totalCount: int,
                        imageDraws: seq<nat>, plainDraws: seq<nat>): (sel: Selection)
    requires ValidDrawsFor(fetched, imageDraws, plainDraws)
    ensures sel.withImage <= Shuffled(ImageReviews(fetched), imageDraws)
    ensures sel.withoutImage <= Shuffled(NonImageReviews(fetched), plainDraws)
    ensures 0 <= totalCount <= |sel.withImage| ==> sel.withoutImage == []
  {
    Compose(fetched, withImagesCount, imageDraws, plainDraws, selected => Max(totalCount - |selected|, 0))
  }

  /** The clamped selection never backfills past `totalCount`: its size is at most the
      larger of `totalCount` and the image reviews taken, so at most `totalCount`
      whenever `withImages <= total`, as the validated bounds usually give. */
  lemma SelectCappedBound(fetched: seq<Review>, withImagesCount: int, totalCount: int,
                          imageDraws: seq<nat>, plainDraws: seq<nat>)
    requires ValidDrawsFor(fetched, imageDraws, plainDraws)
    requires 0 <= withImagesCount && 0 <= totalCount
    ensures var sel := SelectCapped(fetched, withImagesCount, totalCount, imageDraws, plainDraws);
            && |sel.withImage| == Min(withImagesCount, |ImageReviews(fetched)|)
            && |sel.Combined()| <= Max(totalCount, |sel.withImage|)
            && (withImagesCount <= totalCount ==> |sel.Combined()| <= totalCount)
            && (totalCount <= |sel.withImage| ==> sel.withoutImage == [])
  {
  }

  /** The clamped and the as-written selections agree whenever the remainder is not
      negative, which is every case the validated bounds allow with withImages <= total. */
  lemma SelectCappedAgrees(fetched: seq<Review>, withImagesCount: int, totalCount: int,
                           imageDraws: seq<nat>, plainDraws: seq<nat>)
    requires ValidDrawsFor(fetched, imageDraws, plainDraws)
    requires 0 <= withImagesCount && Min(withImagesCount, |ImageReviews(fetched)|) <= totalCount
    ensures SelectCapped(fetched, withImagesCount, totalCount, imageDraws, plainDraws)
            == Select(fetched, withImagesCount, totalCount, imageDraws, plainDraws)
  {
    var images := ImageReviews(fetched);
    var selectedImage := SliceTo(Shuffled(images, imageDraws), Min(withImagesCount, |images|));
    assert Max(totalCount - |selectedImage|, 0) == totalCount - |selectedImage|;
  }

  /** The validated `status` parameter: one status or a list of them. */
  datatype StatusParam = One(status: string) | Many(statuses: seq<string>)

  /** The query parameters after validation; any of them may be absent. */
  datatype RandomQuery = RandomQuery(withImages: Option<int>, total: Option<int>, status: Option<StatusParam>)

  const DefaultWithImages: int := 3
  const DefaultTotal: int := 6
  const DefaultStatus: string := "approved"

  /** The destructuring default `x = d`: the parameter when present, `d` otherwise. */
  function OrDefault(o: Option<int>, default: int): (r: int)
    ensures o.Some? ==> r == o.value
    ensures o.None? ==> r == default
  {
    if o.Some? then o.value else default
  }

  /** The status filter sent to the query and echoed back: the requested one,
      "approved" by default. */
  function EffectiveStatus(query: RandomQuery): (r: StatusParam)
    ensures query.status.Some? ==> r == query.status.value
    ensures query.status.None? ==> r == One(DefaultStatus)
  {
    if query.status.Some? then query.status.value else One(DefaultStatus)
  }

  /** `list.join(",")`. */
  function JoinComma(list: seq<string>): (r: string)
    ensures list == [] ==> r == ""
    ensures |list| == 1 ==> r == list[0]
    ensures |list| > 1 ==> r == JoinComma(list[..|list| - 1]) + "," + list[|list| - 1]
  {
    if list == [] then ""
    else if |list| == 1 then list[0]
    else JoinComma(list[..|list| - 1]) + "," + list[|list| - 1]
  }

  /** `${status}` in a template literal: a list reads as its elements joined by ",". */
  function StatusText(status: StatusParam): (r: string)
    ensures status.One? ==> r == status.status
    ensures status.Many? ==> r == JoinComma(status.statuses)
  {
    match status
    case One(s) => s
    case Many(ss) => JoinComma(ss)
  }

  const NoReviewsPrefix: string := "No reviews found with status: "

  /** The JSON body: the short shape for an empty pool, the full one otherwise. */
  datatype RandomResponse =
    | NoReviewsFound(reviews: seq<Review>, totalAvailable: nat, withImagesRequested: int,
                     totalRequested: int, message: string)
    | Sampled(reviews: seq<Review>, totalAvailable: nat, totalWithImageMediaAvailable: nat,
              totalWithoutImageMediaAvailable: nat, withImagesRequested: int, totalRequested: int,
              returned: nat, selectedWithImageMedia: nat, selectedWithoutImageMedia: nat, status: StatusParam)

  /** The handler after the fetch: `fetched` is what the query returned for the
      filters and the status. */
  function RandomReviews(query: RandomQuery, fetched: seq<Review>, imageDraws: seq<nat>, plainDraws: seq<nat>)
    : (r: RandomResponse)
    requires ValidDrawsFor(fetched, imageDraws, plainDraws)
    ensures r.withImagesRequested == OrDefault(query.withImages, DefaultWithImages)
    ensures r.totalRequested == OrDefault(query.total, DefaultTotal)
    ensures r.NoReviewsFound? <==> fetched == []
    ensures r.NoReviewsFound? ==>
              r.reviews == [] && r.totalAvailable == 0 && r.message == NoReviewsPrefix + StatusText(EffectiveStatus(query))
    ensures r.Sampled? ==>
              var sel := Select(fetched, r.withImagesRequested, r.totalRequested, imageDraws, plainDraws);
              && r.reviews == sel.Combined()
              && r.selectedWithImageMedia == |sel.withImage| && r.selectedWithoutImageMedia == |sel.withoutImage|
              && r.totalWithImageMediaAvailable == |ImageReviews(fetched)|
              && r.totalWithoutImageMediaAvailable == |NonImageReviews(fetched)|
    ensures r.Sampled? ==>
              && r.totalAvailable == |fetched|
              && r.totalWithImageMediaAvailable + r.totalWithoutImageMediaAvailable == r.totalAvailable
              && r.returned == |r.reviews| == r.selectedWithImageMedia + r.selectedWithoutImageMedia
              && r.status == EffectiveStatus(query)
              && multiset(r.reviews) <= multiset(fetched)
  {
    var withImagesCount := OrDefault(query.withImages, DefaultWithImages);
    var totalCount := OrDefault(query.total, DefaultTotal);
    if fetched == [] then
      NoReviewsFound([], 0, withImagesCount, totalCount, NoReviewsPrefix + StatusText(EffectiveStatus(query)))
    else
      var sel := Select(fetched, withImagesCount, totalCount, imageDraws, plainDraws);
      Partition(fetched);
      SelectSound(fetched, withImagesCount, totalCount, imageDraws, plainDraws);
      Sampled(sel.Combined(), |fetched|, |ImageReviews(fetched)|, |NonImageReviews(fetched)|,
              withImagesCount, totalCount, |sel.Combined()|, |sel.withImage|, |sel.withoutImage|,
              EffectiveStatus(query))
  }
}
