/*
 * The review moderation view: a server-paged list of reviews that the admin
 * approves or rejects, features or unfeatures, and deletes. Each successful
 * call is reconciled into the loaded page locally; a failed one leaves it.
 */
module AdminReviews {
  import opened Js
  import opened Http
  import opened Records
  import Pagination

  /** `{...r, id: r._id || r.id, productId: r.productId || {}}` */
  function NormalizeReview(r: Record): (n: Record)
    ensures Get(n, "id") == ServerId(r)
    ensures Truthy(Get(r, "productId")) ==> Get(n, "productId") == Get(r, "productId")
    ensures !Truthy(Get(r, "productId")) ==> Get(n, "productId") == Obj(map[])
    ensures n.Keys == r.Keys + {"id", "productId"}
    ensures forall k :: k in r && k != "id" && k != "productId" ==> n[k] == r[k]
  {
    Normalize(r)["productId" := Or(Get(r, "productId"), Obj(map[]))]
  }

  /** A normalised review always has a product object to render from, and
      normalising it again changes nothing. */
  lemma NormalizeReviewStable(r: Record)
    ensures Truthy(Get(NormalizeReview(r), "productId"))
    ensures NormalizeReview(NormalizeReview(r)) == NormalizeReview(r)
  {
    var n := NormalizeReview(r);
    assert Get(n, "_id") == Get(r, "_id");
    assert Get(n, "id") == ServerId(r);
  }

  /** `response.data.pagination`, with the integer fields the server sends. */
  datatype PageInfo = PageInfo(total: int, pages: int, page: int)

  /** The settled `getReviews(...)` call: the body's `success` flag, its
      `data`, and the pagination block if the body has one. */
  datatype ReviewsOutcome =
    | ReviewsResolved(success: Value, data: Value, pagination: Option<PageInfo>)
    | ReviewsThrew(error: Value)

  /** The reviews a fetch loads: on success, `data.reviews || data` mapped
      through the normalisation; nothing when the call failed or the list
      could not be mapped. */
  function LoadedReviews(outcome: ReviewsOutcome): (r: Option<seq<Record>>)
    ensures r.Some? <==> outcome.ReviewsResolved? && Truthy(outcome.success) &&
                         RecordsOf(Or(Field(outcome.data, "reviews"), outcome.data)).Some?
    ensures r.Some? ==> var l := RecordsOf(Or(Field(outcome.data, "reviews"), outcome.data)).value;
                        |r.value| == |l| && forall i :: 0 <= i < |l| ==> r.value[i] == NormalizeReview(l[i])
  {
    if outcome.ReviewsResolved? && Truthy(outcome.success) then
      match RecordsOf(Or(Field(outcome.data, "reviews"), outcome.data))
      case Some(l) => Some(seq(|l|, i requires 0 <= i < |l| => NormalizeReview(l[i])))
      case None => None
    else None
  }

  /** Every loaded review carries the id derived from the server record and a
      truthy product, one per element of the fetched list, in its order. */
  lemma LoadedReviewsNormalized(outcome: ReviewsOutcome)
    requires LoadedReviews(outcome).Some?
    ensures var list := Or(Field(outcome.data, "reviews"), outcome.data);
            list.Arr? && |LoadedReviews(outcome).value| == |list.items| &&
            forall i :: 0 <= i < |list.items| ==>
              Get(LoadedReviews(outcome).value[i], "id") == ServerId(Spread(list.items[i])) &&
              Truthy(Get(LoadedReviews(outcome).value[i], "productId"))
  {
    var l := LoadedReviews(outcome).value;
    forall i | 0 <= i < |l| ensures Truthy(Get(l[i], "productId")) {
      NormalizeReviewStable(RecordsOf(Or(Field(outcome.data, "reviews"), outcome.data)).value[i]);
    }
  }

  /** The text the review column shows: the first 50 characters and "..."
      when the review is longer than that, the whole review otherwise. */
  function TruncateReview(text: string): (shown: string)
    ensures |text| <= 50 ==> shown == text
    ensures |text| > 50 ==> |shown| == 53 && shown[..50] == text[..50] && shown[50..] == "..."
  {
    if |text| > 50 then text[..50] + "..." else text
  }

  /** A shown text is never longer than 53 characters and always begins with
      the review's own first characters. */
  lemma TruncateReviewBounds(text: string)
    ensures |TruncateReview(text)| <= 53
    ensures var n := if |text| < 50 then |text| else 50;
            n <= |TruncateReview(text)| && TruncateReview(text)[..n] == text[..n]
  {
  }

  class ReviewsView {
    var reviews: seq<Record>
    var loading: bool
    var page: int
    var limit: int
    var total: int
    var pages: int
    var statusFilter: string
    var reviewToDelete: Option<Record>
    var isDeleteDialogOpen: bool

    /** The initial state slots. */
    constructor ()
      ensures reviews == [] && loading && page == 1 && limit == 10
      ensures total == 0 && pages == 0 && statusFilter == "all"
      ensures reviewToDelete == None && !isDeleteDialogOpen
    {
      reviews := [];
      loading := true;
      page := 1;
      limit := 10;
      total := 0;
      pages := 0;
      statusFilter := "all";
      reviewToDelete := None;
      isDeleteDialogOpen := false;
    }

    /** `fetchReviews`: on success the page of reviews is replaced by the
        normalised list and, when the body has a pagination block, the totals
        and the page follow it (a page of 0 keeps the current one). Anything
        else leaves the list and the paging as they were. Loading ends in
        every case. */
    method FetchReviews(outcome: ReviewsOutcome)
      modifies this`reviews, this`loading, this`total, this`pages, this`page
      ensures !loading
      ensures LoadedReviews(outcome).Some? ==> reviews == LoadedReviews(outcome).value
      ensures LoadedReviews(outcome).None? ==> reviews == old(reviews)
      ensures LoadedReviews(outcome).Some? && outcome.pagination.Some? ==>
                total == outcome.pagination.value.total &&
                pages == outcome.pagination.value.pages &&
                page == (if outcome.pagination.value.page != 0 then outcome.pagination.value.page else old(page))
      ensures LoadedReviews(outcome).None? || outcome.pagination.None? ==>
                total == old(total) && pages == old(pages) && page == old(page)
      ensures limit == old(limit) && statusFilter == old(statusFilter)
      ensures reviewToDelete == old(reviewToDelete) && isDeleteDialogOpen == old(isDeleteDialogOpen)
    {
      loading := true;
      var loaded := LoadedReviews(outcome);
      if loaded.Some? {
        reviews := loaded.value;
        if outcome.pagination.Some? {
          var p := outcome.pagination.value;
          total := p.total;
          pages := p.pages;
          page := if p.page != 0 then p.page else page;
        }
      }
      loading := false;
    }

    /** `handleStatusChange(id, status)`: on success `isApproved` becomes the
        chosen status on the review with that id and nowhere else. */
    method HandleStatusChange(reviewId: Value, status: bool, outcome: Outcome)
      modifies this`reviews
      ensures Succeeded(outcome) ==> reviews == SetField(old(reviews), "id", reviewId, "isApproved", Bool(status))
      ensures !Succeeded(outcome) ==> reviews == old(reviews)
      ensures page == old(page) && pages == old(pages) && total == old(total)
      ensures reviewToDelete == old(reviewToDelete) && isDeleteDialogOpen == old(isDeleteDialogOpen)
    {
      if Succeeded(outcome) {
        reviews := SetField(reviews, "id", reviewId, "isApproved", Bool(status));
      }
    }

    /** `handleToggleFeatured(id)`: on success `isFeatured` is negated on the
        review with that id and nowhere else. */
    method HandleToggleFeatured(reviewId: Value, outcome: Outcome)
      modifies this`reviews
      ensures Succeeded(outcome) ==> reviews == FlipField(old(reviews), "id", reviewId, "isFeatured")
      ensures !Succeeded(outcome) ==> reviews == old(reviews)
      ensures page == old(page) && pages == old(pages) && total == old(total)
      ensures reviewToDelete == old(reviewToDelete) && isDeleteDialogOpen == old(isDeleteDialogOpen)
    {
      if Succeeded(outcome) {
        reviews := FlipField(reviews, "id", reviewId, "isFeatured");
      }
    }

    /** The Delete button: remember the review and open the dialog. */
    method RequestDelete(review: Record)
      modifies this`reviewToDelete, this`isDeleteDialogOpen
      ensures reviewToDelete == Some(review) && isDeleteDialogOpen
      ensures reviews == old(reviews) && page == old(page)
    {
      reviewToDelete := Some(review);
      isDeleteDialogOpen := true;
    }

    /** `confirmDelete`: with no review selected it returns at once and
        changes nothing. Otherwise a successful call removes exactly the
        selected id from the list, and the dialog closes and forgets the
        review whatever the outcome. */
    method ConfirmDelete(outcome: Outcome)
      modifies this`reviews, this`reviewToDelete, this`isDeleteDialogOpen
      ensures old(reviewToDelete).None? ==>
                reviews == old(reviews) && reviewToDelete == old(reviewToDelete) &&
                isDeleteDialogOpen == old(isDeleteDialogOpen)
      ensures old(reviewToDelete).Some? && Succeeded(outcome) ==>
                reviews == RemoveWhere(old(reviews), "id", Get(old(reviewToDelete).value, "id"))
      ensures old(reviewToDelete).Some? && !Succeeded(outcome) ==> reviews == old(reviews)
      ensures old(reviewToDelete).Some? ==> reviewToDelete.None? && !isDeleteDialogOpen
      ensures page == old(page) && pages == old(pages) && total == old(total)
    {
      if reviewToDelete.None? {
        return;
      }
      var id := Get(reviewToDelete.value, "id");
      if Succeeded(outcome) {
        reviews := RemoveWhere(reviews, "id", id);
      }
      isDeleteDialogOpen := false;
      reviewToDelete := None;
    }

    /** The Previous button: `setPage(Math.max(1, page - 1))`. */
    method PreviousPage()
      modifies this`page
      ensures page == Pagination.Prev(old(page))
      ensures reviews == old(reviews) && pages == old(pages) && total == old(total)
    {
      page := Pagination.Prev(page);
    }

    /** The Next button: `setPage(Math.min(pages, page + 1))`. */
    method NextPage()
      modifies this`page
      ensures page == Pagination.Next(old(page), pages)
      ensures reviews == old(reviews) && pages == old(pages) && total == old(total)
    {
      page := Pagination.Next(page, pages);
    }

    /** A page button: jump to one of the numbers in the window. */
    method GoToPage(i: nat)
      requires i < |Pagination.PageWindow(page, pages)|
      modifies this`page
      ensures page == old(Pagination.PageWindow(page, pages)[i])
      ensures 1 <= page <= pages
      ensures reviews == old(reviews) && pages == old(pages) && total == old(total)
    {
      page := Pagination.PageWindow(page, pages)[i];
    }

    /** The status select; the refetch it triggers is `FetchReviews`. */
    method SetStatusFilter(value: string)
      modifies this`statusFilter
      ensures statusFilter == value
      ensures reviews == old(reviews) && page == old(page) && pages == old(pages)
    {
      statusFilter := value;
    }
  }
}
