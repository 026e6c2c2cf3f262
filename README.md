# Product reviews plugin: a verified model of its business rules

This project models the business rules of a product-reviews plugin for a
commerce platform: storefront shoppers leave reviews, anonymous reviews are
upserted by product and e-mail, and administrators moderate, filter and page
through them. Storage, the workflow engine, HTTP and the React UI are not
part of the model; what they hand to the rules, or take from them, is a
parameter or a result.

The modules, one per file, follow the plugin's source files:

- `RandomSampler` (`random_sampler.dfy`): the store endpoint that returns a
  random sample of reviews. It classifies reviews as having image media or
  not, partitions them, shuffles each group with Fisher–Yates and takes a
  prefix of each group: up to `withImages` image reviews, then non-image
  reviews as backfill up to `total`. Then it builds the response counters. The random index
  `Math.floor(Math.random() * (i + 1))` of step `i` is an input draw `j` with
  `0 <= j <= i`. The shuffle is a method over an array copy, proved equal to a
  recursive specification that is proved to be a permutation. JavaScript's
  `slice(0, k)` is reproduced exactly, negative `k` included.
- `UpsertReview` (`upsert_review.dfy`): the upsert workflow's choice between
  updating the first review found and creating one, the two payloads, the
  upload-to-image mapping and the result selection.
- `ReviewTable` (`review_table.dfy`): the admin data table. The status cycle
  and verified toggle are functions. The optimistic update and its revert are
  methods of the class `TableState`, which holds the local rows and the page
  input text. The table also has the page-input rules, the page count and the
  quick-jump buttons.
- `AdminList` (`admin_list.dfy`): the admin list endpoint. It rewrites the
  filter dictionary in place: date bounds become `created_at`, and a search
  string becomes a three-way `$or`. It also prefixes image URLs and reads the
  paging metadata with its defaults.
- `StatsRefresh` (`stats_refresh.dfy`): the stats refresh endpoint. It chooses
  the product ids (explicit, or the distinct truthy ids in first-seen order)
  and produces its three responses.
- `StoreMiddleware` (`duplicate_guard.dfy`): the duplicate-review guard, a scan
  that stops at the first already-reviewed (line item, order) pair or the
  first failing lookup. It also holds the numeric bounds the store schemas
  validate.
- `ReviewsPage` (`reviews_page.dfy`): the admin reviews page. It builds the
  list query, resets the page on a filter change and clears the filters.
- `Common` (`common.dfy`): shared pieces. `Option`, JavaScript truthiness of
  optional strings, and decimal `toString`/`parseInt` with their round trip.

The random sample's backfill is modelled as the code computes it: `slice(0,
total - selectedImage)`. When more image reviews are selected than `total`,
that end is negative, and the slice drops only the last few non-image reviews
instead of taking none. The evidently intended behaviour clamps that remainder
at 0, so that no non-image review is added once the image reviews reach
`total`. The model follows the code and reports the difference under
"Findings", with the clamped version beside it.

## Model

| member | source | states |
|---|---|---|
| RandomSampler.AnyImage | plugins/product-reviews/src/api/store/product-reviews/random/route.ts:57-58 | true exactly when some media item has a type starting with `image/`; a missing type never counts |
| RandomSampler.IsImageType | plugins/product-reviews/src/api/store/product-reviews/random/route.ts:58 | a media type counts as an image exactly when it is present and starts with `image/`; the truthiness guard adds nothing, since "" never starts with it |
| RandomSampler.HasImageMedia | plugins/product-reviews/src/api/store/product-reviews/random/route.ts:54-60 | a review has image media exactly when its images are present and some row has an image type; the length guard adds nothing, since an empty list has no such row |
| RandomSampler.Filter | plugins/product-reviews/src/api/store/product-reviews/random/route.ts:63-64 | every element kept by the filter satisfies the predicate |
| RandomSampler.FilterComplete | plugins/product-reviews/src/api/store/product-reviews/random/route.ts:63-64 | the filter keeps every element that satisfies the predicate, as often as it occurs, and nothing else: an element is kept exactly when it occurs and satisfies the predicate |
| RandomSampler.Partition | plugins/product-reviews/src/api/store/product-reviews/random/route.ts:63-64 | the image group holds only reviews with image media and the other group only reviews without; the two sizes add up to the fetched count, and together the groups hold every fetched review as often as the fetch does |
| RandomSampler.Swap | plugins/product-reviews/src/api/store/product-reviews/random/route.ts:71 | positions `i` and `j` exchange their elements and every other position keeps its element |
| RandomSampler.SwapPermutes | plugins/product-reviews/src/api/store/product-reviews/random/route.ts:71 | a swap keeps the multiset of elements |
| RandomSampler.ShuffleFrom | plugins/product-reviews/src/api/store/product-reviews/random/route.ts:69-72 | the loop from index `i` down to 1 keeps the length; each swap index is within bounds because every draw `j` for step `i` satisfies `j <= i` |
| RandomSampler.Shuffled | plugins/product-reviews/src/api/store/product-reviews/random/route.ts:67-74 | the full Fisher–Yates shuffle keeps the length |
| RandomSampler.ShuffleFromPermutes | plugins/product-reviews/src/api/store/product-reviews/random/route.ts:69-72 | the loop from any index down is a permutation of its input |
| RandomSampler.ShuffledPermutes | plugins/product-reviews/src/api/store/product-reviews/random/route.ts:67-74 | the shuffle returns a permutation: same length, same multiset |
| RandomSampler.ShuffleArray | plugins/product-reviews/src/api/store/product-reviews/random/route.ts:67-74 | the descending swap loop over a copy of the argument returns the specified shuffle, a permutation of the argument |
| RandomSampler.SliceTo | plugins/product-reviews/src/api/store/product-reviews/random/route.ts:79 | `slice(0, end)` gives a prefix of length `min(end, n)` for `end >= 0` and `max(n + end, 0)` for a negative `end` |
| RandomSampler.Select | plugins/product-reviews/src/api/store/product-reviews/random/route.ts:77-87 | the image part is a prefix of the shuffled image reviews, and the backfill a prefix of the shuffled reviews without image media |
| RandomSampler.SelectImageCount | plugins/product-reviews/src/api/store/product-reviews/random/route.ts:77-79 | exactly `min(withImages, #image reviews)` image reviews are selected |
| RandomSampler.SelectBackfillCount | plugins/product-reviews/src/api/store/product-reviews/random/route.ts:82-84 | with `remaining = total - #selected image reviews`, the backfill has `min(remaining, #non-image)` reviews when `remaining >= 0`, and all but the last `abs(remaining)` non-image reviews when it is negative |
| RandomSampler.SelectSound | plugins/product-reviews/src/api/store/product-reviews/random/route.ts:87 | the sample is the image selection followed by the backfill; every element of the first part has image media, none of the second has, and no review occurs more often than in the fetch |
| RandomSampler.SelectMeetsQuota | plugins/product-reviews/src/api/store/product-reviews/random/route.ts:77-87 | when both groups have enough reviews, the sample has exactly `total` reviews |
| RandomSampler.NegativeRemainderBackfills | plugins/product-reviews/src/api/store/product-reviews/random/route.ts:82-84 | with withImages 5, total 2, five image and ten non-image reviews, the code returns 5 + 7 = 12 reviews |
| RandomSampler.SelectCapped | plugins/product-reviews/src/api/store/product-reviews/random/route.ts:82-84 | the corrected selection: both parts are prefixes of the shuffled groups, and there is no backfill when the image part already reaches a non-negative `total` |
| RandomSampler.SelectCappedBound | plugins/product-reviews/src/api/store/product-reviews/random/route.ts:82-84 | with the backfill clamped at zero, the sample never exceeds the larger of `total` and the image selection; it never exceeds `total` when `withImages <= total`; there is no backfill once the image reviews reach `total` |
| RandomSampler.SelectCappedAgrees | plugins/product-reviews/src/api/store/product-reviews/random/route.ts:82-84 | the clamped and the as-written selections coincide whenever the remainder is not negative |
| RandomSampler.OrDefault | plugins/product-reviews/src/api/store/product-reviews/random/route.ts:17-19 | a present parameter is used as given, an absent one takes the default |
| RandomSampler.EffectiveStatus | plugins/product-reviews/src/api/store/product-reviews/random/route.ts:20 | the requested status, single or a list, is what is filtered on and echoed; "approved" when none is requested |
| RandomSampler.JoinComma | plugins/product-reviews/src/api/store/product-reviews/random/route.ts:49 | an array in a template literal: empty gives "", one element gives that element, and each further element is appended after a comma |
| RandomSampler.StatusText | plugins/product-reviews/src/api/store/product-reviews/random/route.ts:49 | a single status reads as itself, a list of statuses as its elements joined by commas |
| RandomSampler.RandomReviews | plugins/product-reviews/src/api/store/product-reviews/random/route.ts:17-100 | withImages defaults to 3 and total to 6, both echoed back; the status filter defaults to "approved". An empty fetch gives the short response with no reviews, `totalAvailable` 0 and the message naming the status (a list joined by commas). Otherwise the reviews are exactly the selection (image part then backfill) for the fetch and the defaulted counts; `selectedWithImageMedia` and `selectedWithoutImageMedia` are the sizes of the two parts; the two available counts are the sizes of the image and non-image groups and add up to `totalAvailable`, the fetched count; `returned` is the number of reviews; the status is echoed; and no review occurs more often than in the fetch |
| UpsertReview.ImagesOf | plugins/product-reviews/src/workflows/upsert-product-review.ts:38 | one image row per uploaded file, in order, with `url` the file's key and the same type |
| UpsertReview.MediaOf | plugins/product-reviews/src/workflows/upsert-product-review.ts:38 | the reverse mapping keeps the length |
| UpsertReview.ImagesOfRoundTrip | plugins/product-reviews/src/workflows/upsert-product-review.ts:38 | mapping the image rows back gives exactly the uploaded files: nothing lost, reordered or altered |
| UpsertReview.Decide | plugins/product-reviews/src/workflows/upsert-product-review.ts:37-71 | update exactly when a stored review was found, targeting the first one's id. Create otherwise, with product id, `name` from full name, e-mail, and `verified` false. Both carry title, rating, content, status pending and the mapped images. The update payload has no product, e-mail, name or verified field |
| UpsertReview.CreateData | plugins/product-reviews/src/workflows/upsert-product-review.ts:73-78 | the create payload in a one-element list when the action is create, otherwise an empty list |
| UpsertReview.UpdateData | plugins/product-reviews/src/workflows/upsert-product-review.ts:80-85 | the update payload in a one-element list when the action is update, otherwise an empty list |
| UpsertReview.ExactlyOneSubWorkflow | plugins/product-reviews/src/workflows/upsert-product-review.ts:73-85 | exactly one of `createData` and `updateData` is a one-element list, matching the action; the other is empty |
| UpsertReview.WorkflowResult | plugins/product-reviews/src/workflows/upsert-product-review.ts:101-109 | the first created review on create, the first updated review on update, nothing when that sub-workflow returned nothing |
| UpsertReview.Upsert | plugins/product-reviews/src/workflows/upsert-product-review.ts:37-109 | the workflow's result always comes from the update sub-workflow when a review exists, and from the create sub-workflow otherwise |
| ReviewTable.NextStatus | plugins/product-reviews/src/admin/components/molecules/EnhancedProductReviewDataTable.tsx:95-102 | approved goes to pending, pending to flagged and flagged to approved; an unknown status goes to pending; so the next status is always one of the three and never the current one |
| ReviewTable.NextStatusCycle | plugins/product-reviews/src/admin/components/molecules/EnhancedProductReviewDataTable.tsx:95-102 | three clicks from a valid status return to it, and the status two clicks on differs from the first |
| ReviewTable.NextVerified | plugins/product-reviews/src/admin/components/molecules/EnhancedProductReviewDataTable.tsx:165-167 | the flag always changes |
| ReviewTable.NextVerifiedInvolution | plugins/product-reviews/src/admin/components/molecules/EnhancedProductReviewDataTable.tsx:165-167 | two toggles give the original flag |
| ReviewTable.WithStatus | plugins/product-reviews/src/admin/components/molecules/EnhancedProductReviewDataTable.tsx:123-124 | same length and order; rows with the id get the new status; no other field and no other row changes |
| ReviewTable.WithVerified | plugins/product-reviews/src/admin/components/molecules/EnhancedProductReviewDataTable.tsx:186-187 | same length and order; rows with the id get the new flag; no other field and no other row changes |
| ReviewTable.StatusRevertRestores | plugins/product-reviews/src/admin/components/molecules/EnhancedProductReviewDataTable.tsx:133-139 | applying a status and then reverting to the clicked row's status restores the list, when the rows with that id held that status |
| ReviewTable.VerifiedRevertRestores | plugins/product-reviews/src/admin/components/molecules/EnhancedProductReviewDataTable.tsx:196-202 | the same round trip for the verified flag |
| ReviewTable.TotalPages | plugins/product-reviews/src/admin/components/molecules/EnhancedProductReviewDataTable.tsx:41 | `ceil(count / pageSize)`: the fewest pages that hold all rows |
| ReviewTable.PageTarget | plugins/product-reviews/src/admin/components/molecules/EnhancedProductReviewDataTable.tsx:58-59 | a page is chosen exactly when `parseInt` of the input gives a number in [1, totalPages] |
| ReviewTable.PageTargetOfDigits | plugins/product-reviews/src/admin/components/molecules/EnhancedProductReviewDataTable.tsx:57-75 | for a digit string, the table navigates exactly when it is non-empty and denotes a page in [1, totalPages], and then to that page |
| ReviewTable.TableState.constructor | plugins/product-reviews/src/admin/components/molecules/EnhancedProductReviewDataTable.tsx:29-30 | no local rows yet; the page box shows the current page |
| ReviewTable.TableState.Shown | plugins/product-reviews/src/admin/components/molecules/EnhancedProductReviewDataTable.tsx:39 | the local rows when there are any, else the fetched rows, else none |
| ReviewTable.TableState.DataChanged | plugins/product-reviews/src/admin/components/molecules/EnhancedProductReviewDataTable.tsx:44-48 | fetched rows, even an empty list, replace the local rows; absent data leaves them |
| ReviewTable.TableState.ClickStatus | plugins/product-reviews/src/admin/components/molecules/EnhancedProductReviewDataTable.tsx:119-129 | sends the next status and applies it at once to the rows with the clicked id |
| ReviewTable.TableState.StatusUpdateFailed | plugins/product-reviews/src/admin/components/molecules/EnhancedProductReviewDataTable.tsx:133-139 | the rows with the id get back the status the clicked row had |
| ReviewTable.TableState.ClickVerified | plugins/product-reviews/src/admin/components/molecules/EnhancedProductReviewDataTable.tsx:182-192 | sends the negated flag and applies it at once to the rows with the clicked id |
| ReviewTable.TableState.VerifiedUpdateFailed | plugins/product-reviews/src/admin/components/molecules/EnhancedProductReviewDataTable.tsx:196-202 | the rows with the id get back the flag the clicked row had |
| ReviewTable.TableState.ChangePageInput | plugins/product-reviews/src/admin/components/molecules/EnhancedProductReviewDataTable.tsx:50-55 | a digit string (possibly empty) replaces the box's text; any other edit leaves the previous text; the box always holds digits only |
| ReviewTable.TableState.CommitPageInput | plugins/product-reviews/src/admin/components/molecules/EnhancedProductReviewDataTable.tsx:68-75 | on blur, navigate exactly when the text is a page in [1, totalPages]; otherwise, empty text included, the box shows the current page again |
| ReviewTable.TableState.PageInputKeyDown | plugins/product-reviews/src/admin/components/molecules/EnhancedProductReviewDataTable.tsx:57-66 | Enter commits like blur: it navigates exactly to the page `parseInt` gives when that lies in [1, totalPages] and keeps the text, and otherwise puts the current page back in the box; any other key changes nothing |
| ReviewTable.TableState.CurrentPageChanged | plugins/product-reviews/src/admin/components/molecules/EnhancedProductReviewDataTable.tsx:78-80 | the box shows the new current page |
| ReviewTable.ClickStatusThenFail | plugins/product-reviews/src/admin/components/molecules/EnhancedProductReviewDataTable.tsx:119-139 | a status click whose server call fails leaves the local rows as they were |
| ReviewTable.ClickVerifiedThenFail | plugins/product-reviews/src/admin/components/molecules/EnhancedProductReviewDataTable.tsx:182-202 | a verified click whose server call fails leaves the local rows as they were |
| ReviewTable.QuickJumpSlot | plugins/product-reviews/src/admin/components/molecules/EnhancedProductReviewDataTable.tsx:419-420 | on the first three pages, while `currentPage - 2 + i <= totalPages - 4`, the slot for position `i` is `max(1, currentPage - 2 + i) + i`, counting `i` twice; in the middle of the range it is `min(currentPage + i, totalPages - 2)`, a window starting at the current page; on the last three pages every slot is the current page |
| ReviewTable.QuickJumpFrom | plugins/product-reviews/src/admin/components/molecules/EnhancedProductReviewDataTable.tsx:418-434 | the slots kept all pass the filter: in [1, totalPages] and within two of the current page |
| ReviewTable.QuickJumpFromComplete | plugins/product-reviews/src/admin/components/molecules/EnhancedProductReviewDataTable.tsx:418-434 | no slot that passes the filter is dropped, so the list holds exactly the slots that pass it |
| ReviewTable.QuickJumpPages | plugins/product-reviews/src/admin/components/molecules/EnhancedProductReviewDataTable.tsx:403-434 | no quick-jump buttons with ten pages or fewer; otherwise at most five, each a page in [1, totalPages] within two of the current page |
| ReviewTable.QuickJumpPagesComplete | plugins/product-reviews/src/admin/components/molecules/EnhancedProductReviewDataTable.tsx:418-434 | with more than ten pages, every one of the five slots that passes the filter is a button, and the current page, when in range, always is |
| ReviewTable.QuickJumpSkipsPage | plugins/product-reviews/src/admin/components/molecules/EnhancedProductReviewDataTable.tsx:419-420 | on page 2 of 20 the buttons are 1, 2, 4: page 3 is missing |
| ReviewTable.QuickJumpSkipsTwoPages | plugins/product-reviews/src/admin/components/molecules/EnhancedProductReviewDataTable.tsx:419-420 | on page 3 of 20 the buttons are 1, 3, 5: pages 2 and 4 are missing |
| ReviewTable.QuickJumpRepeatsPage | plugins/product-reviews/src/admin/components/molecules/EnhancedProductReviewDataTable.tsx:419-420 | on page 20 of 20 all five buttons are page 20 |
| ReviewTable.QuickJumpShiftsWindow | plugins/product-reviews/src/admin/components/molecules/EnhancedProductReviewDataTable.tsx:419-420 | on page 10 of 20 the buttons are 10, 11, 12: pages 8 and 9 are missing |
| ReviewTable.QuickJumpWindow | plugins/product-reviews/src/admin/components/molecules/EnhancedProductReviewDataTable.tsx:421 | the intended buttons: with more than ten pages, exactly the pages the filter admits, increasing and without repeats |
| ReviewTable.QuickJumpWithinWindow | plugins/product-reviews/src/admin/components/molecules/EnhancedProductReviewDataTable.tsx:418-434 | every button shown is in the intended window, and the window holds the current page |
| AdminList.RewriteFilters | plugins/product-reviews/src/api/admin/product-reviews/route.ts:9-33 | the rewrite works on a copy of the filters. When a date bound is truthy, `created_at` is replaced by a map holding `$gte` only for a truthy lower bound and `$lte` only for a truthy upper bound, and those flat keys are removed. A truthy `q` is removed and `$or` holds the three `$like` clauses `%q%` on content, name and e-mail. Falsy values leave their keys as they were, and every other key passes through unchanged |
| AdminList.PrefixImages | plugins/product-reviews/src/api/admin/product-reviews/route.ts:48-51 | every image URL becomes prefix + URL; count, order and the other image fields are unchanged |
| AdminList.PrefixReviews | plugins/product-reviews/src/api/admin/product-reviews/route.ts:46-52 | when every review carries its image list, every review keeps its id and fields and its images are prefixed; a review without one makes `review.images.map` throw, and exactly then no list results |
| AdminList.PrefixImagesRoundTrip | plugins/product-reviews/src/api/admin/product-reviews/route.ts:48-51 | removing the prefix again gives the stored image rows back |
| AdminList.Respond | plugins/product-reviews/src/api/admin/product-reviews/route.ts:35-54 | the handler fails with an internal error exactly when some fetched review lacks its image list (a `fields` selection without images). Otherwise the listed reviews are the returned rows with their image URLs prefixed: one per row, in order, each with its id and other fields unchanged and with image rows from which stripping the prefix gives the stored ones back; count, offset and limit are the metadata's count, skip and take, all 0 when the query returns no metadata |
| StatsRefresh.DistinctTruthy | plugins/product-reviews/src/api/admin/product-review-stats/route.ts:53 | the derived ids are truthy and free of repeats, and they are exactly the truthy ids among the reviews |
| StatsRefresh.DistinctTruthyOrder | plugins/product-reviews/src/api/admin/product-review-stats/route.ts:53 | the derived ids come in the order of their first occurrence |
| StatsRefresh.Refresh | plugins/product-reviews/src/api/admin/product-review-stats/route.ts:37-79 | non-empty body ids are used verbatim. Otherwise the derived ids are used, and a failing read gives 500 without running the workflow. An empty list gives `refreshed: 0` without running the workflow. Otherwise the workflow runs on the list, and the answer is `refreshed` equal to its length with the ids echoed, or 500 when the workflow throws |
| StoreMiddleware.StopIndex | plugins/product-reviews/src/api/store/product-reviews/middlewares.ts:121-140 | the first element, in order, that is `null` or `undefined`, or is looked up and found or failing; none before it is |
| StoreMiddleware.PreventDuplicateReviews | plugins/product-reviews/src/api/store/product-reviews/middlewares.ts:96-148 | a non-POST request, or an absent or empty list, passes with no lookup. Otherwise only reviews with both ids are looked up, in order, up to the stopping review. A found pair gives 409 `DUPLICATE_REVIEW` with that review's line item id. A failing lookup, a `null` or `undefined` element (reading its ids throws and the error is caught), or no stop at all, passes the request on, and nothing after the stop is examined |
| StoreMiddleware.DuplicateDetected | plugins/product-reviews/src/api/store/product-reviews/middlewares.ts:121-139 | a review whose pair is already reviewed, with no earlier stop, is where the scan stops |
| StoreMiddleware.ValidRandomBounds | plugins/product-reviews/src/api/store/product-reviews/middlewares.ts:36-37 | a query passing the `withImages` and `total` bounds still lies within them after the handler's defaults 3 and 6 fill in what is absent |
| StoreMiddleware.ValidRating | plugins/product-reviews/src/api/store/product-reviews/middlewares.ts:46 | an integer rating passes exactly when it is 1, 2, 3, 4 or 5 |
| StoreMiddleware.ValidatedQueryExceedsMaxTotal | plugins/product-reviews/src/api/store/product-reviews/middlewares.ts:36-37 | withImages 5 and total 2 pass validation, yet with 5 image and 30 non-image reviews the sample has 32 reviews, more than the largest valid total 20 |
| StoreMiddleware.ValidatedCappedWithinMaxTotal | plugins/product-reviews/src/api/store/product-reviews/middlewares.ts:36-37 | with the clamped backfill, no validated query receives more than 20 reviews |
| ReviewsPage.RatingValue | plugins/product-reviews/src/admin/routes/product-reviews/page.tsx:76-78 | the rating filter is sent as a number or as NaN, never as text, and as NaN exactly when `parseInt` finds no digits |
| ReviewsPage.RatingValueOfDigits | plugins/product-reviews/src/admin/routes/product-reviews/page.tsx:76-78 | the rating filter's digits parse to the number they spell; an empty filter parses to NaN |
| ReviewsPage.ReviewsPageState.constructor | plugins/product-reviews/src/admin/routes/product-reviews/page.tsx:10-16 | every filter starts cleared and the page is 1 |
| ReviewsPage.ReviewsPageState.BuildQuery | plugins/product-reviews/src/admin/routes/product-reviews/page.tsx:65-87 | limit 10 and offset `(page - 1) * 10`. Product, status and rating are present exactly when their filter is non-empty and not "all", with the filter value or its parse. Each date bound is present exactly when its date is set, and `q` exactly when the search is non-empty. Cleared filters on page 1 give just limit 10 and offset 0 |
| ReviewsPage.ReviewsPageState.SetProductFilter | plugins/product-reviews/src/admin/routes/product-reviews/page.tsx:90-92 | the product filter takes the value; a changed value sends the list to page 1, an unchanged one keeps the page |
| ReviewsPage.ReviewsPageState.SetStatusFilter | plugins/product-reviews/src/admin/routes/product-reviews/page.tsx:90-92 | the same for the status filter |
| ReviewsPage.ReviewsPageState.SetRatingFilter | plugins/product-reviews/src/admin/routes/product-reviews/page.tsx:90-92 | the same for the rating filter |
| ReviewsPage.ReviewsPageState.SetDateFrom | plugins/product-reviews/src/admin/routes/product-reviews/page.tsx:90-92 | the same for the start date |
| ReviewsPage.ReviewsPageState.SetDateTo | plugins/product-reviews/src/admin/routes/product-reviews/page.tsx:90-92 | the same for the end date |
| ReviewsPage.ReviewsPageState.SetSearchQuery | plugins/product-reviews/src/admin/routes/product-reviews/page.tsx:90-92 | the same for the search text |
| ReviewsPage.ReviewsPageState.ClearFilters | plugins/product-reviews/src/admin/routes/product-reviews/page.tsx:219-227 | every filter back to "all", no dates or an empty search, and page 1 |
| ReviewsPage.ReviewsPageState.ChangePage | plugins/product-reviews/src/admin/routes/product-reviews/page.tsx:237 | the table's page change sets the current page and nothing else |
| Common.NatToString | plugins/product-reviews/src/admin/components/molecules/EnhancedProductReviewDataTable.tsx:79 | `n.toString()` is a non-empty run of decimal digits without a leading zero |
| Common.ParseInt | plugins/product-reviews/src/admin/components/molecules/EnhancedProductReviewDataTable.tsx:59 | `parseInt` gives NaN for text that is empty after its leading white space, gives a non-negative number when a digit follows that white space, and gives a negative number only after a leading '-' |
| Common.NatToStringRoundTrip | plugins/product-reviews/src/admin/components/molecules/EnhancedProductReviewDataTable.tsx:78-80 | the decimal text of a page number reads back as that number |
| Common.ParseIntOfDigits | plugins/product-reviews/src/admin/components/molecules/EnhancedProductReviewDataTable.tsx:58 | `parseInt` of a digit string is the number it spells, and NaN for the empty string |
| Common.ParseIntOfNatToString | plugins/product-reviews/src/admin/components/molecules/EnhancedProductReviewDataTable.tsx:69 | `parseInt(n.toString())` is `n` |

## Left out

- `Math.random`: each draw is an input constrained to `[0, i]`; the uniformity of the shuffle is a probabilistic property and is not stated.
- Database reads and writes, the workflow engine (`when`, `runAsStep`) and the create, update and stats-refresh sub-workflows: their results are parameters (fetched rows, lookup results, sub-workflow results, thrown errors).
- HTTP plumbing, JSON serialisation, logging, the GET endpoint for review stats (a pass-through query), and the query configuration (fields, pagination) passed unchanged to the query layer.
- StoreMiddleware.PreventDuplicateReviews: a failure to resolve the query service before the first lookup also lets the request through; the model has only per-lookup failures. A `reviews` body value that is not an array is not modelled. An element of the list is either `null`/`undefined` or an object whose ids are strings or absent: elements that are other primitives, and ids that are not strings (a truthy number would be looked up, while `0` or `false` skips the review), are not modelled.
- React rendering, hook lifecycles and effect timing: a filter change and its page reset are one step in the model, so the render with the new filter and the old page, and the effects on mount, are not represented. The race between rapid clicks on the same badge is not modelled.
- ReviewsPage.ReviewsPageState.SetDateFrom and SetDateTo: dates are compared by value; the page compares `Date` objects by identity, so a new object for the same instant also resets the page there. `toISOString` and luxon formatting are not modelled; a date is its ISO text.
- ReviewTable.NextStatus: a status string naming an `Object.prototype` property (such as "constructor") finds that property in the cycle object; the model sends every unknown string to "pending".
- Numbers are integers: non-integer or non-finite `withImages`, `total`, ratings and filter values are not modelled, nor `parseInt` beyond a base-10 digit run after leading white space and one sign. The white space skipped is ECMAScript's set: tab, line feed, vertical tab, form feed, carriage return, U+FEFF, U+2028, U+2029 and the space separators of Unicode category Zs. `parseInt("-0")` gives 0 rather than -0.
- Common.ParseInt: the hexadecimal prefix is not modelled. Without a radix, JavaScript reads a leading "0x" or "0X" as hexadecimal (`parseInt("0x10")` is 16, `parseInt("0x")` is NaN), while the model reads the "0" and stops (0 in both cases). The page box holds digits only and the rating filter comes from a fixed list of values, so no modelled caller passes such text.
- StoreMiddleware bounds: only the numeric ranges of the query (`withImages` in [0, 10], `total` in [1, 20]) and the review rating in [1, 5] (`ValidRating`) are modelled; the rest of the schema validation is not.
- The table's first, last and ellipsis page buttons, Previous/Next buttons and the "Showing X to Y" text are rendering and are not modelled.
- The refresh-stats button of the reviews page (toast messages and the storefront revalidation call) is I/O.
- RandomSampler.ShuffleArray: its argument is a sequence value, so the argument being left unchanged follows from value semantics rather than from the copy.
- The SDK client, the React Query hooks, the data models, migrations, links and the details drawer are not part of this model.

## Findings

| source | as written | input that shows it | evidently intended | confidence | as-written member | corrected member |
|---|---|---|---|---|---|---|
| plugins/product-reviews/src/api/store/product-reviews/random/route.ts:82-84 | the backfill is `slice(0, total - selectedImage)`, and a negative end removes only the last few non-image reviews | withImages = 5, total = 2, five image and ten non-image reviews: 12 reviews come back (with thirty non-image reviews, 32, beyond the largest valid total) | the remainder is clamped at zero, so no non-image review is added once the image reviews reach `total` | not executed | RandomSampler.NegativeRemainderBackfills | RandomSampler.SelectCappedBound |
| plugins/product-reviews/src/admin/components/molecules/EnhancedProductReviewDataTable.tsx:419-420 | each quick-jump slot is `max(1, min(c - 2 + i, T - 4))` plus an offset that counts `i` twice near the start, starts the window at the current page in the middle and drops `i` near the end | page 2 of 20 shows 1, 2, 4 (no 3); page 10 of 20 shows 10, 11, 12 (no 8 or 9); page 20 of 20 shows page 20 five times | the buttons are the pages from `max(1, c - 2)` to `min(T, c + 2)`, each once, in order | not executed | ReviewTable.QuickJumpSkipsPage | ReviewTable.QuickJumpWindow |
