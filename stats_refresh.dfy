/** The refresh of the review statistics (POST /admin/product-review-stats/refresh):
    which products are refreshed, and the three responses. Reading the reviews'
    product ids and running the refresh workflow are inputs of the model. */
module StatsRefresh {
  import opened Common

  /** `[...new Set(ids.filter(Boolean))]`: the truthy ids, each once, in the order of
      their first occurrence (a `Set` iterates in insertion order). */
  function DistinctTruthy(ids: seq<Option<string>>): (r: seq<string>)
    ensures forall k :: 0 <= k < |r| ==> r[k] != ""
    ensures forall id :: id in r <==> Some(id) in ids && id != ""
    ensures forall i, j :: 0 <= i < j < |r| ==> r[i] != r[j]
  {
    if ids == [] then []
    else
      var seen := DistinctTruthy(ids[..|ids| - 1]);
      var last := ids[|ids| - 1];
      assert ids == ids[..|ids| - 1] + [last];
      if Truthy(last) && last.value !in seen then seen + [last.value] else seen
  }

  /** The position of the first occurrence of `id` in `ids`. */
  function FirstIndex(ids: seq<Option<string>>, id: string): (k: nat)
    requires Some(id) in ids
    ensures k < |ids| && ids[k] == Some(id)
    ensures forall j :: 0 <= j < k ==> ids[j] != Some(id)
  {
    if ids[0] == Some(id) then 0 else 1 + FirstIndex(ids[1..], id)
  }

  /** Every id of `r` occurs in `ids`, and `r` lists them in the order of their first occurrence. */
  predicate InFirstOccurrenceOrder(ids: seq<Option<string>>, r: seq<string>)
  {
    && (forall k :: 0 <= k < |r| ==> Some(r[k]) in ids)
    && (forall i, j :: 0 <= i < j < |r| ==> FirstIndex(ids, r[i]) < FirstIndex(ids, r[j]))
  }

  /** The derived list keeps the order of first occurrences: an id listed before
      another first occurs before it among the reviews. */
  lemma {:induction false} DistinctTruthyOrder(ids: seq<Option<string>>)
    ensures InFirstOccurrenceOrder(ids, DistinctTruthy(ids))
  {
    if ids != [] {
      var prefix := ids[..|ids| - 1];
      var last := ids[|ids| - 1];
      var seen := DistinctTruthy(prefix);
      var r := DistinctTruthy(ids);
      DistinctTruthyOrder(prefix);
      assert ids == prefix + [last];
      forall id | id in seen
        ensures FirstIndex(ids, id) == FirstIndex(prefix, id)
      {
        var k := FirstIndex(prefix, id);
        assert ids[k] == Some(id);
        var m := FirstIndex(ids, id);
        assert m <= k;
      }
      if Truthy(last) && last.value !in seen {
        assert Some(last.value) !in prefix;
        assert FirstIndex(ids, last.value) == |ids| - 1;
        forall i, j | 0 <= i < j < |r|
          ensures FirstIndex(ids, r[i]) < FirstIndex(ids, r[j])
        {
          assert r[i] == seen[i] && r[i] in seen;
          if j < |seen| {
            assert r[j] == seen[j] && r[j] in seen;
            assert FirstIndex(prefix, seen[i]) < FirstIndex(prefix, seen[j]);
          } else {
            assert r[j] == last.value;
          }
        }
      } else {
        assert r == seen;
        forall i, j | 0 <= i < j < |r|
          ensures FirstIndex(ids, r[i]) < FirstIndex(ids, r[j])
        {
          assert r[i] == seen[i] && r[j] == seen[j];
          assert FirstIndex(prefix, seen[i]) < FirstIndex(prefix, seen[j]);
          assert seen[i] in seen && seen[j] in seen;
        }
      }
    }
  }

  /** An outcome of reading data that may throw: the value, or the error's message. */
  datatype Attempt<T> = Done(value: T) | Threw(message: string)

  datatype RefreshResponse =
    | NothingToRefresh(status: int, message: string, refreshed: int)
    | Refreshed(status: int, message: string, refreshed: int, productIds: seq<string>)
    | Failed(status: int, message: string, error: string)

  const NothingMessage: string := "No products with reviews found"
  const FailureMessage: string := "Failed to refresh product review stats"

  function SuccessMessage(count: nat): string
  {
    "Successfully refreshed review stats for " + NatToString(count) + " products"
  }

  /** The POST handler. `bodyIds` is the body's `product_ids`, `reviewProductIds` the
      `product_id` of every stored review (or the error the query threw) and
      `workflowError` the error the refresh workflow throws, if any. `workflowInput`
      is the list the workflow was run with, `None` when it was not run. */
  method Refresh(bodyIds: Option<seq<string>>, reviewProductIds: Attempt<seq<Option<string>>>,
                 workflowError: Option<string>)
    returns (response: RefreshResponse, workflowInput: Option<seq<string>>)
    ensures bodyIds.Some? && bodyIds.value != [] ==>
              workflowInput == Some(bodyIds.value)
    ensures (bodyIds.None? || bodyIds.value == []) && reviewProductIds.Threw? ==>
              workflowInput.None? && response == Failed(500, FailureMessage, reviewProductIds.message)
    ensures (bodyIds.None? || bodyIds.value == []) && reviewProductIds.Done? ==>
              var derived := DistinctTruthy(reviewProductIds.value);
              if derived == [] then workflowInput.None? && response == NothingToRefresh(200, NothingMessage, 0)
              else workflowInput == Some(derived)
    ensures workflowInput.Some? && workflowError.Some? ==>
              response == Failed(500, FailureMessage, workflowError.value)
    ensures workflowInput.Some? && workflowError.None? ==>
              var ids := workflowInput.value;
              response == Refreshed(200, SuccessMessage(|ids|), |ids|, ids)
    ensures workflowInput.Some? ==> workflowInput.value != []
  {
    workflowInput := None;
    var productIds: seq<string> := [];
    if bodyIds.Some? && |bodyIds.value| > 0 {
      productIds := bodyIds.value;
    } else {
      if reviewProductIds.Threw? {
        response := Failed(500, FailureMessage, reviewProductIds.message);
        return;
      }
      productIds := DistinctTruthy(reviewProductIds.value);
    }

    if |productIds| == 0 {
      response := NothingToRefresh(200, NothingMessage, 0);
      return;
    }

    workflowInput := Some(productIds);
    if workflowError.Some? {
      response := Failed(500, FailureMessage, workflowError.value);
      return;
    }

    response := Refreshed(200, SuccessMessage(|productIds|), |productIds|, productIds);
  }
}
