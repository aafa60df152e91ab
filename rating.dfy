/** The review join and the average-rating rule shared by the listing, the home page and the
    product page. */
module Rating {
  import opened Types
  import Seqs

  /** `reviews.filter(r => r.product_id === id)`. */
  function ReviewsFor(reviews: seq<Review>, id: string): (matching: seq<Review>)
    ensures forall r :: r in matching <==> r in reviews && r.productId == id
  {
    Seqs.Filter(reviews, (r: Review) => r.productId == id)
  }

  /** The join keeps every matching review in its original order, as often as it occurs, so the
      mean taken over it is the mean over exactly those reviews. */
  lemma ReviewsForKeepsOrderAndCount(reviews: seq<Review>, id: string)
    ensures Seqs.IsSubsequence(ReviewsFor(reviews, id), reviews)
    ensures forall r :: (multiset(ReviewsFor(reviews, id))[r] ==
      if r.productId == id then multiset(reviews)[r] else 0)
  {
    var keep := (r: Review) => r.productId == id;
    Seqs.FilterIsSubsequence(reviews, keep);
    forall r ensures multiset(ReviewsFor(reviews, id))[r] == (if r.productId == id then multiset(reviews)[r] else 0) {
      Seqs.FilterCount(reviews, keep, r);
    }
  }

  /** `reduce((acc, curr) => acc + curr.stars, 0)`: the sum of the stars. */
  function SumStars(reviews: seq<Review>): int
    decreases |reviews|
  {
    if reviews == [] then 0 else reviews[0].stars + SumStars(reviews[1..])
  }

  /** The sum of a concatenation is the sum of the parts. */
  lemma {:induction false} SumStarsConcat(a: seq<Review>, b: seq<Review>)
    ensures SumStars(a + b) == SumStars(a) + SumStars(b)
    decreases |a|
  {
    if a == [] {
      assert a + b == b;
    } else {
      assert (a + b)[0] == a[0] && (a + b)[1..] == a[1..] + b;
      SumStarsConcat(a[1..], b);
    }
  }

  /** Summing from the front gives what `reduce` computes from the left: the last review's stars
      added to the sum of the ones before it. */
  lemma SumStarsFoldsLeft(reviews: seq<Review>)
    requires reviews != []
    ensures SumStars(reviews) == SumStars(reviews[..|reviews| - 1]) + reviews[|reviews| - 1].stars
  {
    var n := |reviews|;
    assert reviews == reviews[..n - 1] + [reviews[n - 1]];
    SumStarsConcat(reviews[..n - 1], [reviews[n - 1]]);
  }

  /** The mean of `stars`, or 0 when there are no reviews. */
  function AverageRating(reviews: seq<Review>): (avg: real)
    ensures reviews == [] ==> avg == 0.0
    ensures reviews != [] ==> avg * |reviews| as real == SumStars(reviews) as real
  {
    if |reviews| > 0 then SumStars(reviews) as real / |reviews| as real else 0.0
  }

  lemma {:induction false} SumStarsBounds(reviews: seq<Review>, lo: int, hi: int)
    requires forall k :: 0 <= k < |reviews| ==> lo <= reviews[k].stars <= hi
    ensures lo * |reviews| <= SumStars(reviews) <= hi * |reviews|
    decreases |reviews|
  {
    if reviews != [] {
      SumStarsBounds(reviews[1..], lo, hi);
    }
  }

  /** The average of a non-empty review list lies between the lowest and highest star values. */
  lemma AverageWithinStarBounds(reviews: seq<Review>, lo: int, hi: int)
    requires reviews != []
    requires forall k :: 0 <= k < |reviews| ==> lo <= reviews[k].stars <= hi
    ensures lo as real <= AverageRating(reviews) <= hi as real
  {
    SumStarsBounds(reviews, lo, hi);
    var n := |reviews| as real;
    CastProduct(lo, |reviews|);
    CastProduct(hi, |reviews|);
    QuotientBounds(SumStars(reviews) as real, n, lo as real, hi as real);
  }

  lemma CastProduct(a: int, b: int)
    ensures (a * b) as real == a as real * b as real
  {
  }

  lemma QuotientBounds(s: real, n: real, lo: real, hi: real)
    requires n > 0.0 && lo * n <= s <= hi * n
    ensures lo <= s / n <= hi
  {
    var q := s / n;
    assert q * n == s;
  }

  /** The mean of reviews with stars in 1..5 is itself in [1, 5]. */
  lemma AverageOfValidStars(reviews: seq<Review>)
    requires reviews != []
    requires forall k :: 0 <= k < |reviews| ==> 1 <= reviews[k].stars <= 5
    ensures 1.0 <= AverageRating(reviews) <= 5.0
  {
    AverageWithinStarBounds(reviews, 1, 5);
  }

  /** Reviews for some other product leave the join for `id` untouched. */
  lemma ReviewsForIgnoresOthers(a: seq<Review>, r: Review, b: seq<Review>, id: string)
    requires r.productId != id
    ensures ReviewsFor(a + [r] + b, id) == ReviewsFor(a + b, id)
  {
    var keep := (x: Review) => x.productId == id;
    Seqs.FilterConcat(a + [r], b, keep);
    Seqs.FilterConcat(a, [r], keep);
    Seqs.FilterConcat(a, b, keep);
  }

  /** Scenario: one product's two reviews of 5 and 4 stars average 4.5. */
  lemma AverageExample(r1: Review, r2: Review)
    requires r1.stars == 5 && r2.stars == 4
    ensures AverageRating([r1, r2]) == 4.5
  {
    assert [r2][1..] == [];
    assert SumStars([r2]) == 4;
    assert [r1, r2][1..] == [r2];
    assert SumStars([r1, r2]) == 9;
  }
}
