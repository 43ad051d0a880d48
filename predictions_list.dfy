/**
  The list of stored predictions: pages of ten fetched newest-first and appended as the
  user scrolls, and deletion through a confirmation dialog. The hosted database is outside
  the model: each query's settled response is an argument of the method that awaits it.
 */
module PredictionsList {
  import opened JsRuntime
  import opened Supabase

  const ItemsPerPage: nat := 10

  /** First row index (inclusive) requested for a page. */
  function PageFrom(page: nat): nat {
    page * ItemsPerPage
  }

  /** Last row index (inclusive) requested for a page. */
  function PageTo(page: nat): nat {
    PageFrom(page) + ItemsPerPage - 1
  }

  /** Every requested range holds exactly `ItemsPerPage` indices, and the next page starts
      right after the previous one ends. */
  lemma PageRangeShape(page: nat)
    ensures PageTo(page) - PageFrom(page) + 1 == ItemsPerPage
    ensures PageFrom(page + 1) == PageTo(page) + 1
  {
  }

  /** Distinct pages never request the same row. */
  lemma PagesDisjoint(p: nat, q: nat, i: int)
    requires p != q
    requires PageFrom(p) <= i <= PageTo(p)
    ensures !(PageFrom(q) <= i <= PageTo(q))
  {
    if p < q {
      assert PageFrom(q) >= PageFrom(p + 1);
    } else {
      assert PageFrom(p) >= PageFrom(q + 1);
    }
  }

  /** Row `i` is requested by page `i / 10` and by no other: pages 0 to n - 1 together request
      exactly the rows 0 to 10n - 1. */
  lemma PageOfRow(i: nat, n: nat)
    ensures PageFrom(i / ItemsPerPage) <= i <= PageTo(i / ItemsPerPage)
    ensures i < n * ItemsPerPage <==> i / ItemsPerPage < n
  {
  }

  /** The `hasMore` rule: another page is worth asking for when the rows up to this page's end
      do not yet reach the total; a missing count counts as zero. */
  function HasMore(page: nat, count: Option<int>): (more: bool)
    ensures more <==> count.Some? && PageTo(page) + 1 < count.value
  {
    var totalItems := if count.Some? then count.value else 0;
    var loadedItems := (page + 1) * ItemsPerPage;
    loadedItems < totalItems
  }

  /** `prev.filter(p => p.id !== id)`. */
  function RemoveById(list: seq<Prediction>, id: string): seq<Prediction> {
    if list == [] then []
    else (if list[0].id == id then [] else [list[0]]) + RemoveById(list[1..], id)
  }

  /** An element survives the filter exactly when it was in the list with another id. */
  lemma {:induction false} RemoveByIdMembers(list: seq<Prediction>, id: string, x: Prediction)
    ensures x in RemoveById(list, id) <==> x in list && x.id != id
  {
    if list != [] {
      RemoveByIdMembers(list[1..], id, x);
      assert list == [list[0]] + list[1..];
    }
  }

  /** Filtering works element by element and keeps the order: filtering a concatenation is
      concatenating the filtered parts. */
  lemma {:induction false} RemoveByIdAppend(a: seq<Prediction>, b: seq<Prediction>, id: string)
    ensures RemoveById(a + b, id) == RemoveById(a, id) + RemoveById(b, id)
  {
    if a == [] {
      assert a + b == b;
    } else {
      assert (a + b)[0] == a[0];
      assert (a + b)[1..] == a[1..] + b;
      RemoveByIdAppend(a[1..], b, id);
      var head := if a[0].id == id then [] else [a[0]];
      assert RemoveById(a + b, id) == head + RemoveById(a[1..] + b, id);
      assert RemoveById(a, id) == head + RemoveById(a[1..], id);
    }
  }

  /** A list with no element of that id is left exactly as it was. */
  lemma {:induction false} RemoveByIdAbsent(list: seq<Prediction>, id: string)
    requires forall k :: 0 <= k < |list| ==> list[k].id != id
    ensures RemoveById(list, id) == list
  {
    if list != [] {
      RemoveByIdAbsent(list[1..], id);
    }
  }

  /** The number of elements removed is the number of elements carrying the id. */
  function CountId(list: seq<Prediction>, id: string): nat {
    if list == [] then 0 else (if list[0].id == id then 1 else 0) + CountId(list[1..], id)
  }

  lemma {:induction false} RemoveByIdLength(list: seq<Prediction>, id: string)
    ensures |RemoveById(list, id)| == |list| - CountId(list, id)
  {
    if list != [] {
      RemoveByIdLength(list[1..], id);
    }
  }

  /** A thrown query error: an `Error` instance carries its own message. */
  datatype FetchError = FetchError(isErrorInstance: bool, message: string)

  /** The settled `{ data, error, count }` of a range query (`error` also stands for a
      rejected request). */
  datatype FetchResponse = FetchResponse(
    data: Option<seq<Prediction>>,
    error: Option<FetchError>,
    count: Option<int>)

  const FetchFailed := "Failed to fetch predictions"

  function ErrorMessage(e: FetchError): (msg: string)
    ensures e.isErrorInstance ==> msg == e.message
    ensures !e.isErrorInstance ==> msg == FetchFailed
  {
    if e.isErrorInstance then e.message else FetchFailed
  }

  function DataOrEmpty(r: FetchResponse): seq<Prediction> {
    if r.data.Some? then r.data.value else []
  }

  /** The component's state. */
  class List {
    var predictions: seq<Prediction>
    var loading: bool
    var loadingMore: bool
    var hasMore: bool
    var error: Option<string>
    var page: nat
    var deletingIds: set<string>
    var deleteModalOpen: bool
    var predictionToDelete: Option<Prediction>

    constructor ()
      ensures predictions == [] && loading && !loadingMore && hasMore && error.None? && page == 0
      ensures deletingIds == {} && !deleteModalOpen && predictionToDelete.None?
    {
      predictions := [];
      loading := true;
      loadingMore := false;
      hasMore := true;
      error := None;
      page := 0;
      deletingIds := {};
      deleteModalOpen := false;
      predictionToDelete := None;
    }

    /** `fetchPredictions(pageNum, isInitial)`, from the request to the `finally` block. Returns
        the inclusive row range it asked for. */
    method FetchPredictions(pageNum: nat, isInitial: bool, response: FetchResponse)
      returns (from: nat, to: nat)
      modifies this
      ensures from == pageNum * ItemsPerPage && to == from + ItemsPerPage - 1
      ensures response.error.Some? ==>
        && predictions == old(predictions)
        && hasMore == old(hasMore)
        && error == Some(ErrorMessage(response.error.value))
      ensures response.error.None? ==>
        && predictions == (if isInitial then [] else old(predictions)) + DataOrEmpty(response)
        && hasMore == HasMore(pageNum, response.count)
        && error == (if isInitial then None else old(error))
      ensures !loading && !loadingMore
      ensures page == old(page) && deletingIds == old(deletingIds)
      ensures deleteModalOpen == old(deleteModalOpen) && predictionToDelete == old(predictionToDelete)
    {
      if isInitial {
        loading := true;
        error := None;
      } else {
        loadingMore := true;
      }
      from := pageNum * ItemsPerPage;
      to := from + ItemsPerPage - 1;
      if response.error.Some? {
        error := Some(ErrorMessage(response.error.value));
      } else {
        if isInitial {
          predictions := DataOrEmpty(response);
        } else {
          predictions := predictions + DataOrEmpty(response);
        }
        hasMore := HasMore(pageNum, response.count);
      }
      loading := false;
      loadingMore := false;
    }

    /** Whether the list view, with its last card, is on screen: the loading skeleton, the
        error card and the empty card replace it. */
    predicate ShowsCards()
      reads this
    {
      !loading && error.None? && predictions != []
    }

    /** The scroll observer: it exists only while nothing is loading and more is expected,
        and it watches the last card, so it can fire only while the cards are shown. When the
        last card comes into view it moves to the next page and fetches it. */
    method LoadNextPage(response: FetchResponse) returns (requested: Option<nat>)
      modifies this
      ensures requested.None? <==> old(loadingMore || !hasMore || !ShowsCards())
      ensures requested.None? ==>
        && predictions == old(predictions) && hasMore == old(hasMore) && error == old(error)
        && page == old(page) && loading == old(loading) && loadingMore == old(loadingMore)
      ensures requested.Some? ==>
        && requested.value == old(page) + 1 == page
        && predictions == old(predictions) + (if response.error.Some? then [] else DataOrEmpty(response))
        && hasMore == (if response.error.Some? then old(hasMore) else HasMore(page, response.count))
        && error == (if response.error.Some? then Some(ErrorMessage(response.error.value)) else old(error))
        && !loading && !loadingMore
      ensures deletingIds == old(deletingIds)
      ensures deleteModalOpen == old(deleteModalOpen) && predictionToDelete == old(predictionToDelete)
    {
      if loading || loadingMore || !hasMore || error.Some? || predictions == [] {
        return None;
      }
      var nextPage := page + 1;
      page := nextPage;
      var _, _ := FetchPredictions(nextPage, false, response);
      requested := Some(nextPage);
    }

    method HandleDeleteClick(prediction: Prediction)
      modifies this
      ensures predictionToDelete == Some(prediction) && deleteModalOpen
      ensures predictions == old(predictions) && deletingIds == old(deletingIds)
      ensures page == old(page) && hasMore == old(hasMore) && error == old(error)
      ensures loading == old(loading) && loadingMore == old(loadingMore)
    {
      predictionToDelete := Some(prediction);
      deleteModalOpen := true;
    }

    method CancelDelete()
      modifies this
      ensures !deleteModalOpen && predictionToDelete.None?
      ensures predictions == old(predictions) && deletingIds == old(deletingIds)
      ensures page == old(page) && hasMore == old(hasMore) && error == old(error)
      ensures loading == old(loading) && loadingMore == old(loadingMore)
    {
      deleteModalOpen := false;
      predictionToDelete := None;
    }

    /** `confirmDelete` up to its `await`: with nothing selected it does nothing; otherwise it
        marks the selected id as being deleted and returns the prediction the request is for. */
    method BeginConfirmDelete() returns (target: Option<Prediction>)
      modifies this
      ensures target == old(predictionToDelete)
      ensures deletingIds == if target.Some? then old(deletingIds) + {target.value.id} else old(deletingIds)
      ensures predictions == old(predictions) && predictionToDelete == old(predictionToDelete)
      ensures deleteModalOpen == old(deleteModalOpen)
      ensures page == old(page) && hasMore == old(hasMore) && error == old(error)
      ensures loading == old(loading) && loadingMore == old(loadingMore)
    {
      target := predictionToDelete;
      if target.None? {
        return;
      }
      deletingIds := deletingIds + {target.value.id};
    }

    /** `confirmDelete` after its `await`. On success the list loses exactly the elements with
        the target's id and the dialog closes; on failure only the in-flight mark goes. */
    method FinishConfirmDelete(target: Prediction, failed: bool)
      modifies this
      ensures deletingIds == old(deletingIds) - {target.id}
      ensures !failed ==>
        && predictions == RemoveById(old(predictions), target.id)
        && !deleteModalOpen && predictionToDelete.None?
      ensures failed ==>
        && predictions == old(predictions)
        && deleteModalOpen == old(deleteModalOpen) && predictionToDelete == old(predictionToDelete)
      ensures page == old(page) && hasMore == old(hasMore) && error == old(error)
      ensures loading == old(loading) && loadingMore == old(loadingMore)
    {
      if !failed {
        predictions := RemoveById(predictions, target.id);
        deleteModalOpen := false;
        predictionToDelete := None;
      }
      deletingIds := deletingIds - {target.id};
    }
  }

  /** A whole delete, begun and finished with no other step in between: the target's id is
      marked while the request is in flight and unmarked afterwards, other ids keep their
      marks, and on success the list is filtered in order. */
  method ConfirmDeleteRun(l: List, failed: bool) returns (target: Option<Prediction>)
    modifies l
    ensures target == old(l.predictionToDelete)
    ensures target.None? ==>
      && l.predictions == old(l.predictions) && l.deletingIds == old(l.deletingIds)
      && l.deleteModalOpen == old(l.deleteModalOpen) && l.predictionToDelete == old(l.predictionToDelete)
    ensures target.Some? ==> l.deletingIds == old(l.deletingIds) - {target.value.id}
    ensures target.Some? && !failed ==>
      && l.predictions == RemoveById(old(l.predictions), target.value.id)
      && !l.deleteModalOpen && l.predictionToDelete.None?
    ensures target.Some? && failed ==>
      && l.predictions == old(l.predictions)
      && l.deleteModalOpen == old(l.deleteModalOpen) && l.predictionToDelete == old(l.predictionToDelete)
    ensures l.page == old(l.page) && l.hasMore == old(l.hasMore) && l.error == old(l.error)
    ensures l.loading == old(l.loading) && l.loadingMore == old(l.loadingMore)
  {
    target := l.BeginConfirmDelete();
    if target.Some? {
      assert target.value.id in l.deletingIds;
      l.FinishConfirmDelete(target.value, failed);
    }
  }
}
