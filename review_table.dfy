/** The admin review table's state rules: the status and verified toggles with
    their optimistic update and revert over the local copy of the rows, the
    page-number input, the page count, and the quick-jump page buttons.

    The component's React state (`localReviews`, `pageInput`) is the class
    `TableState`; the server calls are left to the caller, which invokes the
    `...Failed` method when a call reports an error. */
module ReviewTable {
  import opened Common

  /** A table row; `status` is kept as the string the server sent. */
  datatype AdminReview = AdminReview(
    id: string,
    productId: string,
    rating: int,
    title: Option<string>,
    content: Option<string>,
    name: Option<string>,
    status: string,
    verified: bool)

  predicate IsStatus(s: string) { s == "approved" || s == "pending" || s == "flagged" }

  const StatusCycle: map<string, string> :=
    map["approved" := "pending", "pending" := "flagged", "flagged" := "approved"]

  /** `getNextStatus`: approved -> pending -> flagged -> approved; any other value
      goes to pending. The result is always a valid status and never the current one. */
  function NextStatus(current: string): (next: string)
    ensures IsStatus(next) && next != current
    ensures current == "approved" ==> next == "pending"
    ensures current == "pending" ==> next == "flagged"
    ensures current == "flagged" ==> next == "approved"
    ensures !IsStatus(current) ==> next == "pending"
  {
    if current in StatusCycle then StatusCycle[current] else "pending"
  }

  /** Three clicks on the status badge bring a valid status back, passing through
      the other two. */
  lemma NextStatusCycle(s: string)
    requires IsStatus(s)
    ensures NextStatus(NextStatus(NextStatus(s))) == s
    ensures s != NextStatus(NextStatus(s))
  {
  }

  /** `getNextVerified`. */
  function NextVerified(verified: bool): (next: bool)
    ensures next != verified
  {
    !verified
  }

  lemma NextVerifiedInvolution(verified: bool)
    ensures NextVerified(NextVerified(verified)) == verified
  {
  }

  /** `rows.map(r => r.id === id ? { ...r, status } : r)`. */
  function WithStatus(rows: seq<AdminReview>, id: string, status: string): (r: seq<AdminReview>)
    ensures |r| == |rows|
    ensures forall k :: 0 <= k < |rows| ==>
              && r[k].status == (if rows[k].id == id then status else rows[k].status)
              && r[k].(status := rows[k].status) == rows[k]
  {
    if rows == [] then []
    else [if rows[0].id == id then rows[0].(status := status) else rows[0]] + WithStatus(rows[1..], id, status)
  }

  /** `rows.map(r => r.id === id ? { ...r, verified } : r)`. */
  function WithVerified(rows: seq<AdminReview>, id: string, verified: bool): (r: seq<AdminReview>)
    ensures |r| == |rows|
    ensures forall k :: 0 <= k < |rows| ==>
              && r[k].verified == (if rows[k].id == id then verified else rows[k].verified)
              && r[k].(verified := rows[k].verified) == rows[k]
  {
    if rows == [] then []
    else [if rows[0].id == id then rows[0].(verified := verified) else rows[0]] + WithVerified(rows[1..], id, verified)
  }

  /** Reverting the optimistic status update restores the list, provided the rows
      with that id held the status the click started from. */
  lemma {:induction false} StatusRevertRestores(rows: seq<AdminReview>, id: string, next: string, previous: string)
    requires forall k :: 0 <= k < |rows| && rows[k].id == id ==> rows[k].status == previous
    ensures WithStatus(WithStatus(rows, id, next), id, previous) == rows
  {
    if rows != [] {
      StatusRevertRestores(rows[1..], id, next, previous);
    }
  }

  /** The same round trip for the verified flag. */
  lemma {:induction false} VerifiedRevertRestores(rows: seq<AdminReview>, id: string, next: bool, previous: bool)
    requires forall k :: 0 <= k < |rows| && rows[k].id == id ==> rows[k].verified == previous
    ensures WithVerified(WithVerified(rows, id, next), id, previous) == rows
  {
    if rows != [] {
      VerifiedRevertRestores(rows[1..], id, next, previous);
    }
  }

  /** `Math.ceil(totalCount / pageSize)` for a positive page size: the fewest pages
      that hold `totalCount` rows. */
  function TotalPages(totalCount: nat, pageSize: nat): (pages: nat)
    requires pageSize > 0
    ensures pages * pageSize >= totalCount
    ensures pages == 0 || (pages - 1) * pageSize < totalCount
  {
    var q := totalCount / pageSize;
    if q * pageSize == totalCount then q else q + 1
  }

  /** The page the input asks for, if `parseInt` gives a page in [1, totalPages]. */
  function PageTarget(input: string, totalPages: int): (target: Option<int>)
    ensures target.Some? ==> ParseInt(input) == target && 1 <= target.value <= totalPages
    ensures target.None? ==> ParseInt(input).None? || !(1 <= ParseInt(input).value <= totalPages)
  {
    var parsed := ParseInt(input);
    if parsed.Some? && 1 <= parsed.value <= totalPages then parsed else None
  }

  /** For the digit strings the input can hold: it navigates iff the input is
      non-empty and denotes a page in [1, totalPages]. */
  lemma PageTargetOfDigits(input: string, totalPages: int)
    requires AllDigits(input)
    ensures PageTarget(input, totalPages).Some? <==> input != "" && 1 <= DigitsValue(input) <= totalPages
    ensures PageTarget(input, totalPages).Some? ==> PageTarget(input, totalPages).value == DigitsValue(input)
  {
    ParseIntOfDigits(input);
  }

  /** The component's local state: its copy of the rows and the page box text. A
      returned `Some(p)` stands for the call `onPageChange(p)`. */
  class TableState {
    var localReviews: seq<AdminReview>
    var pageInput: string

    /** The input box holds only digits. */
    ghost predicate Valid()
      reads this
    {
      AllDigits(pageInput)
    }

    constructor (currentPage: nat)
      ensures Valid() && localReviews == [] && pageInput == NatToString(currentPage)
    {
      localReviews := [];
      pageInput := NatToString(currentPage);
    }

    /** The rows the table renders: the local copy when it is non-empty, else the
        fetched rows, else none. */
    function Shown(fetched: Option<seq<AdminReview>>): (rows: seq<AdminReview>)
      reads this
      ensures localReviews != [] ==> rows == localReviews
      ensures localReviews == [] ==> rows == (if fetched.Some? then fetched.value else [])
    {
      if localReviews != [] then localReviews else if fetched.Some? then fetched.value else []
    }

    /** The effect on new data: a fetched list, even an empty one, replaces the local copy. */
    method DataChanged(fetched: Option<seq<AdminReview>>)
      modifies this`localReviews
      ensures localReviews == if fetched.Some? then fetched.value else old(localReviews)
    {
      if fetched.Some? {
        localReviews := fetched.value;
      }
    }

    /** A click on the status badge of the rendered row `review`: the rows with its
        id show the next status at once; that status is what is sent to the server. */
    method ClickStatus(review: AdminReview) returns (sent: string)
      modifies this`localReviews
      ensures sent == NextStatus(review.status) && IsStatus(sent)
      ensures localReviews == WithStatus(old(localReviews), review.id, sent)
    {
      sent := NextStatus(review.status);
      localReviews := WithStatus(localReviews, review.id, sent);
    }

    /** The server refused the status change: the rows with the id get back the
        status `review` had when clicked. */
    method StatusUpdateFailed(review: AdminReview)
      modifies this`localReviews
      ensures localReviews == WithStatus(old(localReviews), review.id, review.status)
    {
      localReviews := WithStatus(localReviews, review.id, review.status);
    }

    /** A click on the verified badge: the rows with the id flip their flag at once. */
    method ClickVerified(review: AdminReview) returns (sent: bool)
      modifies this`localReviews
      ensures sent == !review.verified
      ensures localReviews == WithVerified(old(localReviews), review.id, sent)
    {
      sent := NextVerified(review.verified);
      localReviews := WithVerified(localReviews, review.id, sent);
    }

    /** The server refused the verified change: the flag the row had is restored. */
    method VerifiedUpdateFailed(review: AdminReview)
      modifies this`localReviews
      ensures localReviews == WithVerified(old(localReviews), review.id, review.verified)
    {
      localReviews := WithVerified(localReviews, review.id, review.verified);
    }

    /** An edit of the page box is kept only when the new text is all digits
        (possibly empty); otherwise the box keeps its previous text. */
    method ChangePageInput(value: string)
      requires Valid()
      modifies this`pageInput
      ensures Valid()
      ensures pageInput == if AllDigits(value) then value else old(pageInput)
    {
      if AllDigits(value) {
        pageInput := value;
      }
    }

    /** Blur, and Enter through `PageInputKeyDown`: navigate to the typed page when it lies in [1, totalPages];
        otherwise, empty input included, show the current page again. */
    method CommitPageInput(currentPage: nat, totalPages: int) returns (navigateTo: Option<int>)
      requires Valid()
      modifies this`pageInput
      ensures Valid()
      ensures navigateTo.Some? <==> old(pageInput) != "" && 1 <= DigitsValue(old(pageInput)) <= totalPages
      ensures navigateTo.Some? ==> navigateTo.value == DigitsValue(old(pageInput)) && pageInput == old(pageInput)
      ensures navigateTo.None? ==> pageInput == NatToString(currentPage)
    {
      PageTargetOfDigits(pageInput, totalPages);
      navigateTo := PageTarget(pageInput, totalPages);
      if navigateTo.None? {
        pageInput := NatToString(currentPage);
      }
    }

    /** A key press in the page box commits only on Enter. */
    method PageInputKeyDown(key: string, currentPage: nat, totalPages: int) returns (navigateTo: Option<int>)
      requires Valid()
      modifies this`pageInput
      ensures Valid()
      ensures key != "Enter" ==> navigateTo.None? && pageInput == old(pageInput)
      ensures key == "Enter" ==> navigateTo == PageTarget(old(pageInput), totalPages)
      ensures key == "Enter" && navigateTo.Some? ==> pageInput == old(pageInput)
      ensures key == "Enter" && navigateTo.None? ==> pageInput == NatToString(currentPage)
    {
      navigateTo := None;
      if key == "Enter" {
        navigateTo := CommitPageInput(currentPage, totalPages);
        PageTargetOfDigits(old(pageInput), totalPages);
      }
    }

    /** The effect on a new current page: the box shows it. */
    method CurrentPageChanged(currentPage: nat)
      modifies this`pageInput
      ensures Valid() && pageInput == NatToString(currentPage)
    {
      pageInput := NatToString(currentPage);
    }
  }

  /** Apply then revert, as one click followed by a failed server call. */
  method ClickStatusThenFail(table: TableState, review: AdminReview)
    requires forall k :: 0 <= k < |table.localReviews| && table.localReviews[k].id == review.id
                         ==> table.localReviews[k].status == review.status
    modifies table
    ensures table.localReviews == old(table.localReviews)
  {
    var sent := table.ClickStatus(review);
    table.StatusUpdateFailed(review);
    StatusRevertRestores(old(table.localReviews), review.id, sent, review.status);
  }

  /** Apply then revert for the verified flag. */
  method ClickVerifiedThenFail(table: TableState, review: AdminReview)
    requires forall k :: 0 <= k < |table.localReviews| && table.localReviews[k].id == review.id
                         ==> table.localReviews[k].verified == review.verified
    modifies table
    ensures table.localReviews == old(table.localReviews)
  {
    var sent := table.ClickVerified(review);
    table.VerifiedUpdateFailed(review);
    VerifiedRevertRestores(old(table.localReviews), review.id, sent, review.verified);
  }

  function Abs(x: int): nat { if x < 0 then -x else x }

  /** The filter of the quick-jump list: a page in range and within two of the current one. */
  predicate InWindow(page: int, currentPage: int, totalPages: int)
  {
    page > 0 && page <= totalPages && Abs(page - currentPage) <= 2
  }

  /** The page the i-th quick-jump slot computes, as written in the component. */
  function QuickJumpSlot(currentPage: int, totalPages: int, i: int): (page: int)
    ensures 0 <= i && currentPage <= 3 && currentPage - 2 + i <= totalPages - 4 ==>
              page == Max(1, currentPage - 2 + i) + i
    ensures 0 <= i && 3 < currentPage < totalPages - 2 ==> page == Min(currentPage + i, totalPages - 2)
    ensures 0 <= i && 3 < currentPage && totalPages - 2 <= currentPage && 5 <= totalPages ==> page == currentPage
  {
    Max(1, Min(currentPage - 2 + i, totalPages - 4))
      + (if currentPage <= 3 then i
         else if currentPage >= totalPages - 2 then 4 - (totalPages - currentPage)
         else 2)
  }

  /** Slots `i` to `n - 1`, keeping the pages that pass the filter. */
  function QuickJumpFrom(currentPage: int, totalPages: int, i: nat, n: nat): (pages: seq<int>)
    requires i <= n
    ensures forall p :: p in pages ==> InWindow(p, currentPage, totalPages)
    ensures |pages| <= n - i
    decreases n - i
  {
    if i == n then []
    else
      var page := QuickJumpSlot(currentPage, totalPages, i);
      (if InWindow(page, currentPage, totalPages) then [page] else []) + QuickJumpFrom(currentPage, totalPages, i + 1, n)
  }

  /** The filter drops no slot: every slot from `i` to `n - 1` that passes it is listed. */
  lemma {:induction false} QuickJumpFromComplete(currentPage: int, totalPages: int, i: nat, n: nat)
    requires i <= n
    ensures forall k :: i <= k < n && InWindow(QuickJumpSlot(currentPage, totalPages, k), currentPage, totalPages) ==>
              QuickJumpSlot(currentPage, totalPages, k) in QuickJumpFrom(currentPage, totalPages, i, n)
    decreases n - i
  {
    if i < n {
      QuickJumpFromComplete(currentPage, totalPages, i + 1, n);
    }
  }

  /** The quick-jump page buttons: only with more than ten pages, at most five,
      each in [1, totalPages] and within two of the current page. */
  function QuickJumpPages(currentPage: int, totalPages: int): (pages: seq<int>)
    ensures totalPages <= 10 ==> pages == []
    ensures |pages| <= 5
    ensures forall p :: p in pages ==> 1 <= p <= totalPages && Abs(p - currentPage) <= 2
  {
    if totalPages > 10 then QuickJumpFrom(currentPage, totalPages, 0, Min(5, totalPages)) else []
  }

  /** With more than ten pages every one of the five slots that passes the filter is
      shown, and so is the current page when it lies in range. */
  lemma QuickJumpPagesComplete(currentPage: int, totalPages: int)
    requires totalPages > 10
    ensures forall k :: 0 <= k < 5 && InWindow(QuickJumpSlot(currentPage, totalPages, k), currentPage, totalPages) ==>
              QuickJumpSlot(currentPage, totalPages, k) in QuickJumpPages(currentPage, totalPages)
    ensures 1 <= currentPage <= totalPages ==> currentPage in QuickJumpPages(currentPage, totalPages)
  {
    QuickJumpFromComplete(currentPage, totalPages, 0, 5);
    if 1 <= currentPage <= totalPages {
      var slot := if currentPage == 2 || currentPage == 3 then 1 else 0;
      assert QuickJumpSlot(currentPage, totalPages, slot) == currentPage;
    }
  }

  /** As written, page 3 of 20 offers 1, 3 and 5 and skips pages 2 and 4. */
  lemma QuickJumpSkipsTwoPages()
    ensures QuickJumpPages(3, 20) == [1, 3, 5]
  {
    assert QuickJumpSlot(3, 20, 0) == 1 && QuickJumpSlot(3, 20, 1) == 3 && QuickJumpSlot(3, 20, 2) == 5;
    assert QuickJumpSlot(3, 20, 3) == 7 && QuickJumpSlot(3, 20, 4) == 9;
    assert QuickJumpFrom(3, 20, 5, 5) == [];
    assert QuickJumpFrom(3, 20, 4, 5) == [];
    assert QuickJumpFrom(3, 20, 3, 5) == [];
    assert QuickJumpFrom(3, 20, 2, 5) == [5];
    assert QuickJumpFrom(3, 20, 1, 5) == [3, 5];
  }

  /** As written, page 2 of 20 offers 1, 2 and 4 and skips page 3. */
  lemma QuickJumpSkipsPage()
    ensures QuickJumpPages(2, 20) == [1, 2, 4]
    ensures 3 !in QuickJumpPages(2, 20)
  {
    assert QuickJumpSlot(2, 20, 0) == 1 && QuickJumpSlot(2, 20, 1) == 2 && QuickJumpSlot(2, 20, 2) == 4;
    assert QuickJumpSlot(2, 20, 3) == 6 && QuickJumpSlot(2, 20, 4) == 8;
    assert QuickJumpFrom(2, 20, 5, 5) == [];
    assert QuickJumpFrom(2, 20, 4, 5) == [];
    assert QuickJumpFrom(2, 20, 3, 5) == [];
    assert QuickJumpFrom(2, 20, 2, 5) == [4];
    assert QuickJumpFrom(2, 20, 1, 5) == [2, 4];
  }

  /** As written, on the last of 20 pages every slot computes page 20: five buttons
      for the same page. */
  lemma QuickJumpRepeatsPage()
    ensures QuickJumpPages(20, 20) == [20, 20, 20, 20, 20]
  {
    assert forall i :: 0 <= i < 5 ==> QuickJumpSlot(20, 20, i) == 20;
    assert QuickJumpFrom(20, 20, 5, 5) == [];
    assert QuickJumpFrom(20, 20, 4, 5) == [20];
    assert QuickJumpFrom(20, 20, 3, 5) == [20, 20];
    assert QuickJumpFrom(20, 20, 2, 5) == [20, 20, 20];
    assert QuickJumpFrom(20, 20, 1, 5) == [20, 20, 20, 20];
  }

  /** As written, a page in the middle shows only itself and the two pages after
      it: page 10 of 20 offers 10, 11 and 12. */
  lemma QuickJumpShiftsWindow()
    ensures QuickJumpPages(10, 20) == [10, 11, 12]
    ensures 8 !in QuickJumpPages(10, 20) && 9 !in QuickJumpPages(10, 20)
  {
    assert forall i :: 0 <= i < 5 ==> QuickJumpSlot(10, 20, i) == 10 + i;
    assert QuickJumpFrom(10, 20, 5, 5) == [];
    assert QuickJumpFrom(10, 20, 4, 5) == [];
    assert QuickJumpFrom(10, 20, 3, 5) == [];
    assert QuickJumpFrom(10, 20, 2, 5) == [12];
    assert QuickJumpFrom(10, 20, 1, 5) == [11, 12];
  }

  /** The pages `lo`, `lo + 1`, ..., `hi`. */
  function Range(lo: int, hi: int): (pages: seq<int>)
    ensures |pages| == if lo <= hi then hi - lo + 1 else 0
    ensures forall k :: 0 <= k < |pages| ==> pages[k] == lo + k
    decreases hi - lo
  {
    if lo > hi then [] else [lo] + Range(lo + 1, hi)
  }

  /** The quick-jump list the filter describes: every page in [1, totalPages] within
      two of the current page, in increasing order, each once. */
  function QuickJumpWindow(currentPage: int, totalPages: int): (pages: seq<int>)
    ensures totalPages <= 10 ==> pages == []
    ensures totalPages > 10 ==> forall p :: p in pages <==> InWindow(p, currentPage, totalPages)
    ensures forall k, l :: 0 <= k < l < |pages| ==> pages[k] < pages[l]
  {
    if totalPages > 10 then
      var pages := Range(Max(1, currentPage - 2), Min(totalPages, currentPage + 2));
      assert forall p :: InWindow(p, currentPage, totalPages) ==> pages[p - Max(1, currentPage - 2)] == p;
      pages
    else []
  }

  /** Every button the component shows belongs to the window; for a current page in
      range the window also holds the current page. */
  lemma QuickJumpWithinWindow(currentPage: int, totalPages: int)
    ensures forall p :: p in QuickJumpPages(currentPage, totalPages) ==> p in QuickJumpWindow(currentPage, totalPages)
    ensures totalPages > 10 && 1 <= currentPage <= totalPages ==> currentPage in QuickJumpWindow(currentPage, totalPages)
  {
  }
}
