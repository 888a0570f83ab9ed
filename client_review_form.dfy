// The review form (components/review-form.tsx): the star rating, the comment, up
// to three photos, and the submit with its two guards and the reset that follows
// a success. What the POST meets is a parameter of the submit.

module ReviewForm {
  import opened Common
  import opened Db
  import opened ApiUtils
  import ReviewsRoute
  import Auth

  const MaxImages: nat := 3

  /** A toast: its title, its description and whether it is the destructive variant. */
  datatype Toast = Toast(title: string, description: string, destructive: bool)

  const RatingRequired: Toast := Toast("Rating Required", "Please select a rating from 1 to 5 stars", true)
  const CommentRequired: Toast := Toast("Comment Required", "Please write a review comment", true)
  const Submitted: Toast := Toast("Review Submitted", "Your review has been submitted and will be moderated soon", false)

  function SubmissionFailed(message: string): Toast {
    Toast("Submission Failed", if message != "" then message else "Could not submit your review", true)
  }

  /** The two guards of handleSubmit, the rating first; none means the review is posted. */
  function SubmitGuard(rating: int, comment: string): (r: Option<Toast>)
    ensures r == Some(RatingRequired) <==> rating == 0
    ensures r == Some(CommentRequired) <==> rating != 0 && forall i :: 0 <= i < |comment| ==> IsWhitespace(comment[i])
    ensures r.None? <==> rating != 0 && exists i :: 0 <= i < |comment| && !IsWhitespace(comment[i])
  {
    TrimNonEmpty(comment);
    if rating == 0 then Some(RatingRequired)
    else if Trim(comment) == "" then Some(CommentRequired)
    else None
  }

  /** The body posted to /api/reviews. */
  datatype ReviewRequest = ReviewRequest(restaurantId: string, rating: int, comment: string, images: seq<string>)

  /** The request as the route reads it. */
  function AsBody(q: ReviewRequest): ReviewsRoute.ReviewBody {
    ReviewsRoute.ReviewBody(Some(q.restaurantId), Some(q.rating as real), Some(q.comment), ReviewsRoute.ImageList(q.images))
  }

  /** `prev.filter((_, i) => i !== index)` stated by slicing: the photo at `index` is dropped, if there is one. */
  function WithoutIndex(s: seq<string>, index: int): (r: seq<string>)
    ensures 0 <= index < |s| ==> |r| == |s| - 1
    ensures !(0 <= index < |s|) ==> r == s
  {
    if 0 <= index < |s| then s[..index] + s[index + 1..] else s
  }

  /** Removal keeps every other photo, in its order. */
  lemma WithoutIndexKeepsOrder(s: seq<string>, index: int)
    requires 0 <= index < |s|
    ensures forall j :: 0 <= j < index ==> WithoutIndex(s, index)[j] == s[j]
    ensures forall j :: index <= j < |s| - 1 ==> WithoutIndex(s, index)[j] == s[j + 1]
    ensures multiset(WithoutIndex(s, index)) + multiset{s[index]} == multiset(s)
  {
    assert s == s[..index] + [s[index]] + s[index + 1..];
  }

  /** Removing the photo just uploaded gives back the list before the upload. */
  lemma UploadThenRemove(s: seq<string>, url: string)
    ensures WithoutIndex(s + [url], |s|) == s
  {
    assert (s + [url])[..|s|] == s;
  }

  /** The upload control is shown only while fewer than three photos are attached. */
  function UploadOffered(images: seq<string>): (r: bool)
    ensures r <==> |images| < MaxImages
  {
    |images| < 3
  }

  class ReviewFormState {
    var rating: int
    var comment: string
    var images: seq<string>

    /** The stars give 0 to 5 and the upload control stops at three photos. */
    predicate Valid()
      reads this
    {
      0 <= rating <= 5 && |images| <= MaxImages
    }

    constructor ()
      ensures Valid()
      ensures rating == 0 && comment == "" && images == []
    {
      rating := 0;
      comment := "";
      images := [];
    }

    /** handleRatingClick: one of the five star buttons. */
    method HandleRatingClick(value: int)
      requires Valid() && 1 <= value <= 5
      modifies this
      ensures Valid()
      ensures rating == value && comment == old(comment) && images == old(images)
    {
      rating := value;
    }

    /** The textarea's onChange. */
    method HandleCommentChange(value: string)
      requires Valid()
      modifies this
      ensures Valid()
      ensures comment == value && rating == old(rating) && images == old(images)
    {
      comment := value;
    }

    /** handleImageUpload: the upload control appends the new URL. */
    method HandleImageUpload(url: string)
      requires Valid() && UploadOffered(images)
      modifies this
      ensures Valid()
      ensures images == old(images) + [url]
      ensures rating == old(rating) && comment == old(comment)
    {
      images := images + [url];
    }

    /** handleImageRemove: the filter that keeps every photo but the one at `index`. */
    method HandleImageRemove(index: int)
      requires Valid()
      modifies this
      ensures Valid()
      ensures images == WithoutIndex(old(images), index)
      ensures rating == old(rating) && comment == old(comment)
    {
      var s := images;
      var kept: seq<string> := [];
      var i := 0;
      while i < |s|
        invariant 0 <= i <= |s|
        invariant kept == WithoutIndex(s[..i], index)
      {
        if i != index {
          assert s[..i + 1] == s[..i] + [s[i]];
          kept := kept + [s[i]];
        } else {
          assert s[..i + 1][..i] == s[..i];
        }
        i := i + 1;
      }
      assert s[..i] == s;
      images := kept;
    }

    /**
     * handleSubmit: a failed guard shows its toast and posts nothing; otherwise the
     * review is posted, and a success resets the form and calls the page's
     * `onSuccess` callback, when it passed one, while a failure keeps the form.
     */
    method HandleSubmit(restaurantId: string, reply: HttpReply, hasOnSuccess: bool)
      returns (toast: Toast, sent: Option<ReviewRequest>, calledOnSuccess: bool)
      requires Valid()
      modifies this
      ensures Valid()
      ensures var g := SubmitGuard(old(rating), old(comment));
        && (g.Some? ==> toast == g.value && sent.None?)
        && (g.None? ==> sent == Some(ReviewRequest(restaurantId, old(rating), old(comment), old(images))))
        && (g.None? && PostWithAuthChecked(reply).Ok? ==> toast == Submitted)
        && (g.None? && PostWithAuthChecked(reply).Err? ==> toast == SubmissionFailed(PostWithAuthChecked(reply).error))
      ensures SubmitGuard(old(rating), old(comment)).None? && PostWithAuthChecked(reply).Ok? ==>
        rating == 0 && comment == "" && images == []
      ensures calledOnSuccess <==>
        hasOnSuccess && SubmitGuard(old(rating), old(comment)).None? && PostWithAuthChecked(reply).Ok?
      ensures SubmitGuard(old(rating), old(comment)).Some? || PostWithAuthChecked(reply).Err? ==>
        rating == old(rating) && comment == old(comment) && images == old(images)
    {
      calledOnSuccess := false;
      if rating == 0 {
        return RatingRequired, None, false;
      }
      TrimNonEmpty(comment);
      if Trim(comment) == "" {
        return CommentRequired, None, false;
      }
      sent := Some(ReviewRequest(restaurantId, rating, comment, images));
      var outcome := PostWithAuthChecked(reply);
      if outcome.Ok? {
        toast := Submitted;
        rating := 0;
        comment := "";
        images := [];
        calledOnSuccess := hasOnSuccess;
      } else {
        toast := SubmissionFailed(outcome.error);
      }
    }
  }

  // ---- the form against the route ----------------------------------------------

  /** A review the form posts passes the route's own field and range checks. */
  lemma PostedReviewPassesRouteChecks(restaurantId: string, rating: int, comment: string, images: seq<string>)
    requires restaurantId != "" && 1 <= rating <= 5
    requires SubmitGuard(rating, comment).None?
    ensures !ReviewsRoute.MissingFields(AsBody(ReviewRequest(restaurantId, rating, comment, images)))
    ensures 1.0 <= AsBody(ReviewRequest(restaurantId, rating, comment, images)).rating.value <= 5.0
  {
  }

  /** Every rejection the route can give is shown as a failure once the status is checked. */
  lemma RouteRejectionShown(crypto: Auth.Crypto, header: Option<string>, body: ReviewsRoute.ReviewBody,
                            restaurants: seq<Restaurant>, reviews: seq<Review>, newId: string, now: int)
    requires ReviewsRoute.DecideCreateReview(crypto, header, body, restaurants, reviews, newId, now).Err?
    ensures var e := ReviewsRoute.DecideCreateReview(crypto, header, body, restaurants, reviews, newId, now);
      PostWithAuthChecked(Answered(e.status, e.error)).Err?
  {
  }
}
