// The review list of a restaurant page (components/review-list.tsx): the tab that
// filters or re-sorts the fetched reviews, the sort-order toggle, the report and
// reply guards and the status parameter of the fetch.

module ReviewList {
  import opened Common
  import opened Db
  import ReviewsRoute
  import UseApi

  /** A review as the component receives it: status, helpful and reportCount are always there. */
  datatype ListedReview = ListedReview(
    id: string,
    restaurantId: string,
    customerId: string,
    customerName: string,
    rating: real,
    comment: string,
    date: int,
    status: ReviewStatus,
    images: Option<seq<string>>,
    reply: Option<string>,
    helpful: int,
    reportCount: int)

  // ---- getFilteredReviews --------------------------------------------------

  /** The comparators of the sort tabs, as "may come first" relations. */
  predicate NewerFirst(a: ListedReview, b: ListedReview) {
    a.date >= b.date
  }

  predicate HigherFirst(a: ListedReview, b: ListedReview) {
    a.rating >= b.rating
  }

  predicate LowerFirst(a: ListedReview, b: ListedReview) {
    a.rating <= b.rating
  }

  predicate MoreHelpfulFirst(a: ListedReview, b: ListedReview) {
    a.helpful >= b.helpful
  }

  function WithStatus(st: ReviewStatus): ListedReview -> bool {
    (rv: ListedReview) => rv.status == st
  }

  /** The tabs that re-sort and the tabs that filter; every other tab shows the list as fetched. */
  const SortTabs: set<string> := {"recent", "highest", "lowest", "helpful"}
  const StatusTabs: set<string> := {"pending", "approved", "rejected"}

  datatype SortKey = Recent | Highest | Lowest | MostHelpful

  /** What a tab shows: a re-sorted copy, the reviews of one status, or the list as fetched. */
  datatype View = SortedView(key: SortKey) | StatusView(status: ReviewStatus) | Fetched

  /** The `switch (activeTab)` of getFilteredReviews. */
  function TabView(tab: string): (v: View)
    ensures v.SortedView? <==> tab in SortTabs
    ensures v.StatusView? <==> tab in StatusTabs
    ensures v.StatusView? ==> ReviewStatusName(v.status) == tab
  {
    match tab
    case "recent" => SortedView(Recent)
    case "highest" => SortedView(Highest)
    case "lowest" => SortedView(Lowest)
    case "helpful" => SortedView(MostHelpful)
    case "pending" => StatusView(ReviewPending)
    case "approved" => StatusView(Approved)
    case "rejected" => StatusView(Rejected)
    case _ => Fetched
  }

  function Order(key: SortKey): (ListedReview, ListedReview) -> bool {
    match key
    case Recent => NewerFirst
    case Highest => HigherFirst
    case Lowest => LowerFirst
    case MostHelpful => MoreHelpfulFirst
  }

  function Show(reviews: seq<ListedReview>, v: View): seq<ListedReview> {
    match v
    case SortedView(key) => SortBy(reviews, Order(key))
    case StatusView(st) => Filter(reviews, WithStatus(st))
    case Fetched => reviews
  }

  /** getFilteredReviews: a copy of the fetched list, sorted or filtered by the active tab. */
  function FilteredReviews(reviews: seq<ListedReview>, tab: string): (r: seq<ListedReview>)
    ensures forall rv :: rv in r ==> rv in reviews
    ensures TabView(tab).SortedView? ==> multiset(r) == multiset(reviews)
    ensures TabView(tab).Fetched? ==> r == reviews
  {
    var r := Show(reviews, TabView(tab));
    forall rv | rv in r ensures rv in reviews {
      if TabView(tab).SortedView? {
        assert rv in multiset(r);
      }
    }
    r
  }

  /**
   * The tab's reviews as written: `data: reviews = []` keeps a null answer null,
   * and `[...reviews]` then throws a TypeError, which `None` stands for.
   */
  function FilteredReviewsAsWritten(reviews: Option<seq<ListedReview>>, tab: string): (r: Option<seq<ListedReview>>)
    ensures r.None? <==> reviews.None?
    ensures r.Some? ==> r.value == FilteredReviews(reviews.value, tab)
  {
    match reviews
    case None => None
    case Some(rs) => Some(FilteredReviews(rs, tab))
  }

  /**
   * The first render sees the hook's initial null and throws before the loading
   * return, so the effect that would fetch never runs and no tab is ever shown.
   */
  lemma FirstRenderThrows(tab: string)
    ensures FilteredReviewsAsWritten(UseApi.Initial<seq<ListedReview>>().data, tab).None?
  {
  }

  /** Corrected, `reviews ?? []`: no reviews before the answer, the tab's view of it after. */
  function ShownReviews(reviews: Option<seq<ListedReview>>, tab: string): (r: seq<ListedReview>)
    ensures reviews.None? ==> r == []
    ensures forall rv :: rv in r ==> rv in OrElse(reviews, [])
    ensures TabView(tab).SortedView? ==> multiset(r) == multiset(OrElse(reviews, []))
  {
    FilteredReviews(OrElse(reviews, []), tab)
  }

  /** The two versions differ exactly on the null before the answer: once it has arrived they agree. */
  lemma ShownAgreesOnceLoaded(reviews: Option<seq<ListedReview>>, tab: string)
    ensures FilteredReviewsAsWritten(reviews, tab).None? <==> reviews.None?
    ensures reviews.Some? ==> FilteredReviewsAsWritten(reviews, tab) == Some(ShownReviews(reviews, tab))
  {
  }

  /** The four sort tabs and the three status tabs by name. */
  lemma SortTabNames()
    ensures TabView("recent") == SortedView(Recent) && TabView("highest") == SortedView(Highest)
    ensures TabView("lowest") == SortedView(Lowest) && TabView("helpful") == SortedView(MostHelpful)
  {
  }

  lemma StatusTabNames()
    ensures TabView("pending") == StatusView(ReviewPending)
    ensures TabView("approved") == StatusView(Approved)
    ensures TabView("rejected") == StatusView(Rejected)
  {
  }

  /** A sort tab shows the same reviews, ordered by its comparator. */
  lemma SortedShow(reviews: seq<ListedReview>, key: SortKey)
    ensures multiset(Show(reviews, SortedView(key))) == multiset(reviews)
    ensures SortedBy(Show(reviews, SortedView(key)), Order(key))
  {
    SortBySorted(reviews, Order(key));
  }

  /** "highest" lists the same reviews, best rated first. */
  lemma HighestTab(reviews: seq<ListedReview>)
    ensures multiset(FilteredReviews(reviews, "highest")) == multiset(reviews)
    ensures forall i, j :: 0 <= i < j < |FilteredReviews(reviews, "highest")| ==>
      FilteredReviews(reviews, "highest")[i].rating >= FilteredReviews(reviews, "highest")[j].rating
  {
    SortTabNames();
    SortedShow(reviews, Highest);
  }

  /** "lowest" lists the same reviews, worst rated first. */
  lemma LowestTab(reviews: seq<ListedReview>)
    ensures multiset(FilteredReviews(reviews, "lowest")) == multiset(reviews)
    ensures forall i, j :: 0 <= i < j < |FilteredReviews(reviews, "lowest")| ==>
      FilteredReviews(reviews, "lowest")[i].rating <= FilteredReviews(reviews, "lowest")[j].rating
  {
    SortTabNames();
    SortedShow(reviews, Lowest);
  }

  /** "helpful" lists the same reviews, most helpful first. */
  lemma HelpfulTab(reviews: seq<ListedReview>)
    ensures multiset(FilteredReviews(reviews, "helpful")) == multiset(reviews)
    ensures forall i, j :: 0 <= i < j < |FilteredReviews(reviews, "helpful")| ==>
      FilteredReviews(reviews, "helpful")[i].helpful >= FilteredReviews(reviews, "helpful")[j].helpful
  {
    SortTabNames();
    SortedShow(reviews, MostHelpful);
  }

  /** "recent" lists the same reviews, newest first. */
  lemma RecentTab(reviews: seq<ListedReview>)
    ensures multiset(FilteredReviews(reviews, "recent")) == multiset(reviews)
    ensures forall i, j :: 0 <= i < j < |FilteredReviews(reviews, "recent")| ==>
      FilteredReviews(reviews, "recent")[i].date >= FilteredReviews(reviews, "recent")[j].date
  {
    SortTabNames();
    SortedShow(reviews, Recent);
  }

  /** A status tab keeps exactly the reviews with that status, in the fetched order. */
  lemma StatusTab(reviews: seq<ListedReview>, tab: string)
    requires tab in StatusTabs
    ensures FilteredReviews(reviews, tab) == Filter(reviews, WithStatus(TabView(tab).status))
    ensures forall rv :: rv in FilteredReviews(reviews, tab) <==> rv in reviews && ReviewStatusName(rv.status) == tab
  {
    var st := TabView(tab).status;
    NamesAreInjective();
    forall rv ensures rv in FilteredReviews(reviews, tab) <==> rv in reviews && ReviewStatusName(rv.status) == tab {
      FilterMembership(reviews, WithStatus(st), rv);
    }
  }

  lemma {:induction false} StatusCountsAddUp(reviews: seq<ListedReview>)
    ensures |Filter(reviews, WithStatus(ReviewPending))| + |Filter(reviews, WithStatus(Approved))|
      + |Filter(reviews, WithStatus(Rejected))| == |reviews|
  {
    if reviews != [] {
      StatusCountsAddUp(reviews[1..]);
    }
  }

  /** The three status tabs split the list: every review shows on exactly one of them. */
  lemma StatusTabsPartition(reviews: seq<ListedReview>)
    ensures |FilteredReviews(reviews, "pending")| + |FilteredReviews(reviews, "approved")|
      + |FilteredReviews(reviews, "rejected")| == |reviews|
  {
    StatusTabNames();
    StatusCountsAddUp(reviews);
  }

  /** Any other tab, "all" included, shows the fetched list unchanged. */
  lemma OtherTab(reviews: seq<ListedReview>, tab: string)
    requires tab !in SortTabs && tab !in StatusTabs
    ensures FilteredReviews(reviews, tab) == reviews
  {
  }

  // ---- sort order and the fetch ---------------------------------------------

  /** toggleSortOrder */
  function ToggleSortOrder(order: string): (r: string)
    ensures order == "asc" ==> r == "desc"
    ensures order != "asc" ==> r == "asc"
  {
    if order == "asc" then "desc" else "asc"
  }

  /** From either named order, toggling twice returns to it; from any value it lands on a named one. */
  lemma ToggleTwice(order: string)
    ensures order in {"asc", "desc"} ==> ToggleSortOrder(ToggleSortOrder(order)) == order
    ensures ToggleSortOrder(order) in {"asc", "desc"}
  {
  }

  /** The status parameter of the fetch: empty for the owner, "approved" for everybody else. */
  function StatusParam(isOwner: bool): (r: string)
    ensures r == "" <==> isOwner
    ensures !isOwner ==> r == "approved"
  {
    if isOwner then "" else "approved"
  }

  /** Four '&'-free values joined by '&' split back into the four. */
  lemma SplitFour(a: string, b: string, c: string, d: string)
    requires '&' !in a && '&' !in b && '&' !in c && '&' !in d
    ensures Split(a + ['&'] + (b + ['&'] + (c + ['&'] + d)), '&') == [a, b, c, d]
  {
    SplitNoSeparator(a, '&');
    SplitNoSeparator(b, '&');
    SplitNoSeparator(c, '&');
    SplitNoSeparator(d, '&');
    var cd := c + ['&'] + d;
    SplitConcat(c, d, '&');
    var bcd := b + ['&'] + cd;
    SplitConcat(b, cd, '&');
    SplitConcat(a, bcd, '&');
  }

  /** A value after a fixed `name=` holds an '&' only if the value does. */
  lemma NoAmpersand(name: string, v: string)
    requires '&' !in name && '&' !in v
    ensures '&' !in name + v
  {
  }

  /**
   * The fetch URL: the reviews API, then the restaurant, the status, the sort key
   * and the sort order, in that order, as long as no value holds an '&'.
   */
  function ReviewsUrl(restaurantId: string, isOwner: bool, sortOption: string, sortOrder: string): (r: string)
    ensures StartsWith(r, ReviewsPath)
    ensures '&' !in restaurantId && '&' !in sortOption && '&' !in sortOrder ==>
      Split(r[|ReviewsPath|..], '&') ==
      ["restaurantId=" + restaurantId, "status=" + StatusParam(isOwner), "sortBy=" + sortOption, "sortOrder=" + sortOrder]
  {
    var a := "restaurantId=" + restaurantId;
    var b := "status=" + StatusParam(isOwner);
    var c := "sortBy=" + sortOption;
    var d := "sortOrder=" + sortOrder;
    var query := a + ['&'] + (b + ['&'] + (c + ['&'] + d));
    assert (ReviewsPath + query)[|ReviewsPath|..] == query;
    if '&' !in restaurantId && '&' !in sortOption && '&' !in sortOrder then
      NoAmpersand("restaurantId=", restaurantId);
      NoAmpersand("status=", StatusParam(isOwner));
      NoAmpersand("sortBy=", sortOption);
      NoAmpersand("sortOrder=", sortOrder);
      SplitFour(a, b, c, d);
      ReviewsPath + query
    else
      ReviewsPath + query
  }

  const ReviewsPath: string := "/api/reviews?"

  /**
   * The owner flag of the component does not decide what is shown: both status
   * parameters leave the server filtering on "approved" unless the server itself
   * recognises the caller as the owner.
   */
  lemma StatusReachesServer(restaurantId: string, isOwner: bool, sortOption: string, sortOrder: string, serverOwner: bool)
    ensures
      var p := ReviewsRoute.ReviewParams(Some(restaurantId), None, Some(StatusParam(isOwner)), Some(sortOption), Some(sortOrder));
      ReviewsRoute.StatusFilter(p, serverOwner) == if serverOwner then None else Some("approved")
  {
  }

  // ---- report and reply -----------------------------------------------------

  /** What handleReportSubmit sends: the selected review and the reason as typed. */
  datatype ReportRequest = ReportRequest(reviewId: string, reason: string)

  /** handleReportSubmit: nothing is sent without a selected review or with a blank reason. */
  function ReportSubmit(selected: Option<ListedReview>, reason: string): (r: Option<ReportRequest>)
    ensures r.Some? <==> selected.Some? && exists i :: 0 <= i < |reason| && !IsWhitespace(reason[i])
    ensures r.Some? ==> r.value == ReportRequest(selected.value.id, reason)
  {
    TrimNonEmpty(reason);
    if selected.None? || Trim(reason) == "" then None
    else Some(ReportRequest(selected.value.id, reason))
  }

  /** The reply being written: the review it answers and the draft text. */
  datatype ReplyDraft = ReplyDraft(replyingTo: Option<string>, content: string)

  /** handleReplyClick: start a reply to a review, prefilled with its existing reply. */
  function ReplyClick(reviewId: string, existingReply: Option<string>): (d: ReplyDraft)
    ensures d.replyingTo == Some(reviewId)
    ensures d.content == if existingReply.Some? then existingReply.value else ""
  {
    ReplyDraft(Some(reviewId), if Present(existingReply) then existingReply.value else "")
  }

  datatype ReplyRequest = ReplyRequest(reviewId: string, reply: string)

  /**
   * handleSubmitReply: nothing is sent without a target (an empty id counts as
   * none) or with blank content; after sending, the draft is cleared.
   */
  function ReplySubmit(d: ReplyDraft): (r: (Option<ReplyRequest>, ReplyDraft))
    ensures r.0.Some? <==> Present(d.replyingTo) && exists i :: 0 <= i < |d.content| && !IsWhitespace(d.content[i])
    ensures r.0.Some? ==> r.0.value == ReplyRequest(d.replyingTo.value, d.content) && r.1 == ReplyDraft(None, "")
    ensures r.0.None? ==> r.1 == d
  {
    TrimNonEmpty(d.content);
    if !Present(d.replyingTo) || Trim(d.content) == "" then (None, d)
    else (Some(ReplyRequest(d.replyingTo.value, d.content)), ReplyDraft(None, ""))
  }

  /** Editing an existing reply and submitting it unchanged sends that reply again, if it is not blank. */
  lemma ResubmitExistingReply(reviewId: string, reply: string)
    requires reviewId != ""
    ensures var sent := ReplySubmit(ReplyClick(reviewId, Some(reply))).0;
      sent.Some? <==> exists i :: 0 <= i < |reply| && !IsWhitespace(reply[i])
    ensures var sent := ReplySubmit(ReplyClick(reviewId, Some(reply))).0;
      sent.Some? ==> sent.value == ReplyRequest(reviewId, reply)
  {
  }
}
