/** The product page: the like toggle, the once-per-session view count, review submission and the
    rating shown and published for search engines. */
module ProductDetails {
  import opened Types
  import opened Rating
  import Seqs
  import Strings

  /** The new `likes` list of `handleLike`: the user's entries removed when present, the user
      appended when absent. */
  function ToggleLike(likes: seq<string>, userId: string): (r: seq<string>)
    ensures userId in likes ==> userId !in r && Seqs.IsSubsequence(r, likes)
    ensures userId !in likes ==> r == likes + [userId]
    ensures forall u :: u != userId ==> multiset(r)[u] == multiset(likes)[u]
  {
    if userId in likes then
      var keep := (u: string) => u != userId;
      Seqs.FilterIsSubsequence(likes, keep);
      assert forall u :: u != userId ==> multiset(Seqs.Filter(likes, keep))[u] == multiset(likes)[u] by {
        forall u | u != userId ensures multiset(Seqs.Filter(likes, keep))[u] == multiset(likes)[u] {
          Seqs.FilterCount(likes, keep, u);
        }
      }
      Seqs.Filter(likes, keep)
    else
      likes + [userId]
  }

  /** A toggle flips the user's membership, leaves every other id's membership alone and keeps a
      duplicate-free list duplicate-free. */
  lemma ToggleFlipsOnlyTheUser(likes: seq<string>, userId: string)
    ensures (userId in ToggleLike(likes, userId)) <==> userId !in likes
    ensures forall u :: u != userId ==> (u in ToggleLike(likes, userId) <==> u in likes)
    ensures Seqs.NoDuplicates(likes) ==> Seqs.NoDuplicates(ToggleLike(likes, userId))
  {
    var r := ToggleLike(likes, userId);
    forall u | u != userId ensures u in r <==> u in likes {
      assert multiset(r)[u] == multiset(likes)[u];
    }
    if Seqs.NoDuplicates(likes) {
      if userId in likes {
        Seqs.FilterNoDuplicates(likes, (u: string) => u != userId);
      } else {
        forall i, j | 0 <= i < j < |r| ensures r[i] != r[j] {
          if j == |likes| {
            assert r[i] == likes[i];
          }
        }
      }
    }
  }

  /** Liking and then unliking from the unliked state restores the exact list. */
  lemma ToggleTwiceRestores(likes: seq<string>, userId: string)
    requires userId !in likes
    ensures ToggleLike(ToggleLike(likes, userId), userId) == likes
  {
    var keep := (u: string) => u != userId;
    Seqs.FilterConcat(likes, [userId], keep);
    Seqs.FilterAll(likes, keep);
    assert Seqs.Filter([userId], keep) == [];
  }

  /** The storage key that marks a product as viewed in this browser session. */
  function SessionKey(productId: string): (key: string)
    ensures |key| == 7 + |productId|
    ensures key[..7] == "viewed_" && key[7..] == productId
  {
    "viewed_" + productId
  }

  lemma SessionKeyInjective(a: string, b: string)
    requires SessionKey(a) == SessionKey(b)
    ensures a == b
  {
    assert a == SessionKey(a)[7..] && b == SessionKey(b)[7..];
  }

  /** The browser session's storage keys and the `increment_views` calls made so far. */
  class ViewCounter {
    var storage: set<string>
    var increments: multiset<string>

    /** Every id has been counted at most once, and only with its key set. */
    ghost predicate Valid()
      reads this
    {
      forall id :: id in increments ==> increments[id] == 1 && SessionKey(id) in storage
    }

    constructor (session: set<string>)
      ensures Valid() && storage == session && increments == multiset{}
    {
      storage := session;
      increments := multiset{};
    }

    /** `incrementViews`: count the view and set the key, unless the key is already set. */
    method IncrementViews(productId: string)
      requires Valid()
      modifies this
      ensures Valid()
      ensures SessionKey(productId) in storage
      ensures SessionKey(productId) in old(storage) ==>
        storage == old(storage) && increments == old(increments)
      ensures SessionKey(productId) !in old(storage) ==>
        storage == old(storage) + {SessionKey(productId)} &&
        increments == old(increments) + multiset{productId}
    {
      var key := SessionKey(productId);
      if key !in storage {
        assert productId !in increments;
        increments := increments + multiset{productId};
        storage := storage + {key};
      }
    }
  }

  /** However many times a page is opened, its views are counted at most once per session. */
  lemma AtMostOncePerSession(c: ViewCounter, productId: string)
    requires c.Valid()
    ensures c.increments[productId] <= 1
  {
  }

  /** The search-engine rating block: present only when there are reviews. */
  datatype AggregateRating = AggregateRating(ratingValue: real, reviewCount: nat)

  function AggregateRatingOf(reviews: seq<Review>): (block: Option<AggregateRating>)
    ensures block.Some? <==> reviews != []
    ensures block.Some? ==> block.value.reviewCount == |reviews|
    ensures block.Some? ==> block.value.ratingValue * |reviews| as real == SumStars(reviews) as real
  {
    if |reviews| > 0 then Some(AggregateRating(AverageRating(reviews), |reviews|)) else None
  }

  /** The row `submitReview` inserts. */
  datatype ReviewInsert = ReviewInsert(productId: string, userClerkId: string, text: string, stars: int)

  /** The outcome of a write to the store, as the page sees it. */
  datatype Write<T> = Written(row: T) | WriteFailed

  /** What `handleLike` reports to the user. */
  datatype LikeFeedback = SignInToLike | RemovedFromFavorites | AddedToFavorites | LikeFailed | NoFeedback

  /** The product page's state. */
  class DetailsPage {
    const productId: string
    var product: Option<Product>
    var reviews: seq<Review>
    var loading: bool
    var reviewLoading: bool
    var draftText: string
    var draftStars: int

    constructor (id: string)
      ensures productId == id && product == None && reviews == [] && loading && !reviewLoading
      ensures draftText == [] && draftStars == 5
    {
      productId := id;
      product := None;
      reviews := [];
      loading := true;
      reviewLoading := false;
      draftText := [];
      draftStars := 5;
    }

    /** `fetchProductAndReviews`: when the product row exists it is shown with its quality score
        from the average of the fetched reviews (0 without any), and those reviews are shown. */
    method Load(productData: Option<Product>, reviewsData: Option<seq<Review>>)
      modifies this
      ensures !loading
      ensures reviewLoading == old(reviewLoading) && draftText == old(draftText) && draftStars == old(draftStars)
      ensures productData.None? ==> product == old(product) && reviews == old(reviews)
      ensures productData.Some? ==>
        var p := productData.value;
        && product == Some(p.(qualityScore := Some(QualityScore(p, AverageRating(OrEmpty(reviewsData))))))
        && reviews == OrEmpty(reviewsData)
    {
      if productData.Some? {
        var p := productData.value;
        var avg := AverageRating(OrEmpty(reviewsData));
        product := Some(p.(qualityScore := Some(QualityScore(p, avg))));
        reviews := OrEmpty(reviewsData);
      }
      loading := false;
    }

    /** The average shown on the page: the mean of the loaded reviews' stars, or 0. */
    function ShownAverage(): (avg: real)
      reads this
      ensures reviews == [] ==> avg == 0.0
      ensures reviews != [] ==> avg * |reviews| as real == SumStars(reviews) as real
    {
      AverageRating(reviews)
    }

    /** The `aggregateRating` of the page's structured data. */
    function SchemaRating(): (block: Option<AggregateRating>)
      reads this
      ensures block.Some? <==> reviews != []
      ensures block.Some? ==> block.value.reviewCount == |reviews| && block.value.ratingValue == ShownAverage()
    {
      AggregateRatingOf(reviews)
    }

    /** `handleLike`. A signed-out user changes nothing; so does a failed write (missing token or
        an update error). After a successful write the shown product's likes are toggled. */
    method HandleLike(user: Option<string>, update: Write<()>) returns (feedback: LikeFeedback)
      modifies this
      ensures reviews == old(reviews) && draftText == old(draftText) && draftStars == old(draftStars)
      ensures loading == old(loading) && reviewLoading == old(reviewLoading)
      ensures user.None? ==> feedback == SignInToLike && product == old(product)
      ensures user.Some? && update.WriteFailed? ==> feedback == LikeFailed && product == old(product)
      ensures user.Some? && update.Written? && old(product).None? ==>
        feedback == NoFeedback && product == old(product)
      ensures user.Some? && update.Written? && old(product).Some? ==>
        var p := old(product).value;
        && product == Some(p.(likes := ToggleLike(p.likes, user.value)))
        && feedback == (if user.value in p.likes then RemovedFromFavorites else AddedToFavorites)
    {
      if user.None? {
        return SignInToLike;
      }
      var userId := user.value;
      var isLiked := product.Some? && userId in product.value.likes;
      if update.WriteFailed? {
        return LikeFailed;
      }
      if product.Some? {
        var p := product.value;
        product := Some(p.(likes := ToggleLike(p.likes, userId)));
        feedback := if isLiked then RemovedFromFavorites else AddedToFavorites;
      } else {
        feedback := NoFeedback;
      }
    }

    /** `submitReview`. Nothing is sent for a signed-out user or a blank text, and nothing when no
        token is obtained (the thrown error skips the insert). Otherwise the insert is attempted
        with the draft as typed; on success the stored row is put first and the draft resets to an
        empty text with 5 stars. Once past the two early returns, `reviewLoading` ends false. */
    method SubmitReview(user: Option<string>, tokenPresent: bool, insert: Write<Review>)
      returns (sent: Option<ReviewInsert>)
      modifies this
      ensures product == old(product) && loading == old(loading)
      ensures user.None? || Strings.Trim(old(draftText)) == [] ==> reviewLoading == old(reviewLoading)
      ensures user.Some? && Strings.Trim(old(draftText)) != [] ==> !reviewLoading
      ensures sent.Some? <==> user.Some? && Strings.Trim(old(draftText)) != [] && tokenPresent
      ensures sent.Some? ==> sent.value == ReviewInsert(productId, user.value, old(draftText), old(draftStars))
      ensures sent.None? || insert.WriteFailed? ==>
        reviews == old(reviews) && draftText == old(draftText) && draftStars == old(draftStars)
      ensures sent.Some? && insert.Written? ==>
        reviews == [insert.row] + old(reviews) && draftText == [] && draftStars == 5
    {
      if user.None? {
        return None;
      }
      if Strings.Trim(draftText) == [] {
        return None;
      }
      reviewLoading := true;
      if !tokenPresent {
        sent := None;
      } else {
        sent := Some(ReviewInsert(productId, user.value, draftText, draftStars));
        if insert.Written? {
          reviews := [insert.row] + reviews;
          draftText := [];
          draftStars := 5;
        }
      }
      reviewLoading := false;
    }
  }
}
