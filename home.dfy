/** The home page's featured products: at most ten rows are fetched, scored and sorted exactly as
    on the listing, and the first four are shown. */
module Home {
  import opened Types
  import opened Rating
  import opened Products

  /** The row cap of the home page's query, `.limit(10)`. */
  const FetchLimit: nat := 10
  /** The number of featured products, `.slice(0, 4)`. */
  const FeaturedCount: nat := 4

  function Min(a: int, b: int): int {
    if a <= b then a else b
  }

  /** The first `n` elements, or all of them when there are fewer (`slice(0, n)`, `limit(n)`). */
  function Take(s: seq<Product>, n: nat): (r: seq<Product>)
    ensures |r| == Min(n, |s|)
    ensures r == s[..|r|]
  {
    if |s| <= n then s else s[..n]
  }

  /** The featured list computed from the rows the store returns and the fetched reviews. */
  function Featured(rows: seq<Product>, reviews: seq<Review>): seq<Product> {
    Take(Ranked(Take(rows, FetchLimit), reviews), FeaturedCount)
  }

  /** The scoring map, the sort and the `slice(0, 4)` of `fetchFeatured`. */
  method SelectFeatured(rows: seq<Product>, reviews: seq<Review>) returns (top: seq<Product>)
    ensures top == Featured(rows, reviews)
  {
    var candidates := Take(rows, FetchLimit);
    var ranked := Rank(candidates, reviews);
    top := Take(ranked, FeaturedCount);
  }

  /** The featured list holds min(4, n) of the n <= 10 candidates, sorted by score; it is drawn from
      the scored candidates, and no candidate left out scores higher than any featured one. */
  lemma FeaturedIsTopOfRanking(rows: seq<Product>, reviews: seq<Review>)
    ensures var candidates := Take(rows, FetchLimit);
      var top := Featured(rows, reviews);
      && |candidates| <= FetchLimit
      && |top| == Min(FeaturedCount, |candidates|)
      && SortedByScore(top)
      && multiset(top) <= multiset(WithScores(candidates, reviews))
      && forall y, x :: y in multiset(WithScores(candidates, reviews)) - multiset(top) && x in top ==>
           ScoreKey(y) <= ScoreKey(x)
  {
    var candidates := Take(rows, FetchLimit);
    var ranked := Ranked(candidates, reviews);
    assert multiset(ranked) == multiset(WithScores(candidates, reviews));
    PrefixOfSorted(ranked, Min(FeaturedCount, |ranked|));
  }

  /** A prefix of a list sorted by score is sorted, and outscores everything after it. */
  lemma PrefixOfSorted(ranked: seq<Product>, m: nat)
    requires SortedByScore(ranked) && m <= |ranked|
    ensures SortedByScore(ranked[..m])
    ensures multiset(ranked[..m]) <= multiset(ranked)
    ensures forall y, x :: y in multiset(ranked) - multiset(ranked[..m]) && x in ranked[..m] ==>
      ScoreKey(y) <= ScoreKey(x)
  {
    var top, rest := ranked[..m], ranked[m..];
    assert ranked == top + rest;
    assert multiset(ranked) - multiset(top) == multiset(rest);
    PrefixOutscoresRest(ranked, m);
    forall y, x | y in multiset(ranked) - multiset(top) && x in top ensures ScoreKey(y) <= ScoreKey(x) {
      assert y in rest;
    }
  }

  lemma PrefixOutscoresRest(ranked: seq<Product>, m: nat)
    requires SortedByScore(ranked) && m <= |ranked|
    ensures forall y, x :: y in ranked[m..] && x in ranked[..m] ==> ScoreKey(y) <= ScoreKey(x)
  {
    forall y, x | y in ranked[m..] && x in ranked[..m] ensures ScoreKey(y) <= ScoreKey(x) {
      var i :| 0 <= i < m && ranked[..m][i] == x;
      var j :| 0 <= j < |ranked| - m && ranked[m..][j] == y;
      assert ranked[i] == x && ranked[m + j] == y;
    }
  }

  /** Featured products carry the listing's own scores: each is a candidate with `Scored` applied,
      so its average is the mean of its reviews' stars and its score `QualityScore` of that mean. */
  lemma FeaturedScoredLikeListing(rows: seq<Product>, reviews: seq<Review>, q: Product)
    requires q in Featured(rows, reviews)
    ensures exists k :: 0 <= k < |Take(rows, FetchLimit)| && q == Scored(Take(rows, FetchLimit)[k], reviews)
  {
    var ranked := Ranked(Take(rows, FetchLimit), reviews);
    assert q in ranked;
    RankedIsScoredPermutation(Take(rows, FetchLimit), reviews);
  }

  /** A featured product with reviews has an average between their lowest and highest stars. */
  lemma FeaturedAverageWithinStars(rows: seq<Product>, reviews: seq<Review>, q: Product, lo: int, hi: int)
    requires q in Featured(rows, reviews)
    requires ReviewsFor(reviews, q.id) != []
    requires forall k :: 0 <= k < |ReviewsFor(reviews, q.id)| ==> lo <= ReviewsFor(reviews, q.id)[k].stars <= hi
    ensures q.averageRating.Some? && lo as real <= q.averageRating.value <= hi as real
  {
    FeaturedScoredLikeListing(rows, reviews, q);
    var k :| 0 <= k < |Take(rows, FetchLimit)| && q == Scored(Take(rows, FetchLimit)[k], reviews);
    AverageWithinStarBounds(ReviewsFor(reviews, q.id), lo, hi);
  }

  /** The home page's state: the featured products and the loading flag. */
  class HomePage {
    var featured: seq<Product>
    var loading: bool

    constructor ()
      ensures featured == [] && loading
    {
      featured := [];
      loading := true;
    }

    /** `fetchFeatured`: a store error leaves the featured list as it was; otherwise it becomes
        the top four of the fetched rows (null read as none) against the fetched reviews. */
    method FetchFeatured(productsResult: Fetch<seq<Product>>, reviewsData: Option<seq<Review>>)
      modifies this
      ensures !loading
      ensures productsResult.FetchError? ==> featured == old(featured)
      ensures productsResult.Fetched? ==>
        featured == Featured(OrEmpty(productsResult.data), OrEmpty(reviewsData))
    {
      if productsResult.FetchError? {
        loading := false;
        return;
      }
      var top := SelectFeatured(OrEmpty(productsResult.data), OrEmpty(reviewsData));
      featured := top;
      loading := false;
    }
  }
}
