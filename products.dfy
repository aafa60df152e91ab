/** The product listing: every fetched product gets its average rating and quality score, the
    list is sorted by score, highest first, and the search box and pricing menu filter it. */
module Products {
  import opened Types
  import opened Rating
  import Seqs
  import Strings

  /** One step of the scoring map: the product with `averageRating` and `quality_score` attached. */
  function Scored(p: Product, reviews: seq<Review>): (q: Product)
    ensures q.averageRating.Some? && ScoreKey(q) == QualityScore(p, q.averageRating.value)
    ensures ReviewsFor(reviews, p.id) == [] ==> q.averageRating == Some(0.0)
    ensures q.(qualityScore := p.qualityScore, averageRating := p.averageRating) == p
  {
    var avg := AverageRating(ReviewsFor(reviews, p.id));
    p.(qualityScore := Some(QualityScore(p, avg)), averageRating := Some(avg))
  }

  /** `productsWithScores`: the scoring map over every fetched product. */
  function WithScores(products: seq<Product>, reviews: seq<Review>): (scored: seq<Product>)
    ensures |scored| == |products|
    ensures forall k :: 0 <= k < |scored| ==> scored[k].id == products[k].id && scored[k].likes == products[k].likes
    ensures forall k :: 0 <= k < |scored| ==>
      scored[k].averageRating.Some? && ScoreKey(scored[k]) == QualityScore(products[k], scored[k].averageRating.value)
  {
    seq(|products|, k requires 0 <= k < |products| => Scored(products[k], reviews))
  }

  /** The attached average is the mean of the stars of exactly the reviews whose `productId` is the
      product's id (0 when there are none), and the attached score is `QualityScore` of that
      average. (That every other field is kept is part of `Scored`'s own contract.) */
  lemma ScoredAttachesMeanAndScore(p: Product, reviews: seq<Review>)
    ensures var q := Scored(p, reviews);
      var matching := ReviewsFor(reviews, p.id);
      var avg := AverageRating(matching);
      && q.averageRating == Some(avg)
      && q.qualityScore == Some(QualityScore(p, avg))
      && (matching == [] ==> avg == 0.0)
      && (matching != [] ==> avg * |matching| as real == SumStars(matching) as real)
  {
  }

  /** A review that names no fetched product changes no product's average or score. */
  lemma UnmatchedReviewIgnored(products: seq<Product>, a: seq<Review>, r: Review, b: seq<Review>)
    requires forall k :: 0 <= k < |products| ==> products[k].id != r.productId
    ensures WithScores(products, a + [r] + b) == WithScores(products, a + b)
  {
    forall k | 0 <= k < |products|
      ensures Scored(products[k], a + [r] + b) == Scored(products[k], a + b)
    {
      ReviewsForIgnoresOthers(a, r, b, products[k].id);
    }
  }

  /** The sort key `quality_score || 0`. */
  function ScoreKey(p: Product): (key: real)
    ensures p.qualityScore.Some? ==> key == p.qualityScore.value
    ensures p.qualityScore.None? ==> key == 0.0
  {
    match p.qualityScore
    case Some(score) => score
    case None => 0.0
  }

  /** Non-increasing by score. */
  ghost predicate SortedByScore(s: seq<Product>) {
    forall i, j :: 0 <= i < j < |s| ==> ScoreKey(s[i]) >= ScoreKey(s[j])
  }

  /** `x` placed after every element scoring at least as much as it. */
  function Insert(x: Product, s: seq<Product>): (r: seq<Product>)
    ensures multiset(r) == multiset(s) + multiset{x}
    decreases |s|
  {
    if s == [] then [x]
    else if ScoreKey(s[0]) >= ScoreKey(x) then
      assert s == [s[0]] + s[1..];
      [s[0]] + Insert(x, s[1..])
    else [x] + s
  }

  /** Inserting an element no higher than a bound into a list no higher than it stays below it. */
  lemma {:induction false} InsertBounded(x: Product, s: seq<Product>, b: real)
    requires ScoreKey(x) <= b
    requires forall k :: 0 <= k < |s| ==> ScoreKey(s[k]) <= b
    ensures forall k :: 0 <= k < |Insert(x, s)| ==> ScoreKey(Insert(x, s)[k]) <= b
    decreases |s|
  {
    if s != [] && ScoreKey(s[0]) >= ScoreKey(x) {
      var t := s[1..];
      assert forall k :: 0 <= k < |t| ==> t[k] == s[k + 1];
      InsertBounded(x, t, b);
      var r := Insert(x, s);
      assert r == [s[0]] + Insert(x, t);
      forall k | 0 <= k < |r| ensures ScoreKey(r[k]) <= b {
        if k > 0 {
          assert r[k] == Insert(x, t)[k - 1];
        }
      }
    }
  }

  lemma {:induction false} InsertSorted(x: Product, s: seq<Product>)
    requires SortedByScore(s)
    ensures SortedByScore(Insert(x, s))
    decreases |s|
  {
    if s != [] && ScoreKey(s[0]) >= ScoreKey(x) {
      var t := s[1..];
      assert forall k :: 0 <= k < |t| ==> t[k] == s[k + 1];
      var tail := Insert(x, t);
      InsertSorted(x, t);
      InsertBounded(x, t, ScoreKey(s[0]));
      var r := [s[0]] + tail;
      assert Insert(x, s) == r;
      forall i, j | 0 <= i < j < |r| ensures ScoreKey(r[i]) >= ScoreKey(r[j]) {
        assert r[j] == tail[j - 1];
        if i > 0 {
          assert r[i] == tail[i - 1];
        }
      }
    }
  }

  /** Where the in-place insertion stops: after the elements scoring at least `x`, before the
      first one scoring less. */
  lemma {:induction false} InsertAfter(x: Product, pre: seq<Product>, post: seq<Product>)
    requires forall k :: 0 <= k < |pre| ==> ScoreKey(pre[k]) >= ScoreKey(x)
    requires post != [] ==> ScoreKey(post[0]) < ScoreKey(x)
    ensures Insert(x, pre + post) == pre + [x] + post
    decreases |pre|
  {
    if pre == [] {
      assert pre + post == post;
    } else {
      var s := pre + post;
      assert s[0] == pre[0] && s[1..] == pre[1..] + post;
      InsertAfter(x, pre[1..], post);
      assert [pre[0]] + (pre[1..] + [x] + post) == pre + [x] + post;
    }
  }

  /** Functional insertion sort: the order the in-place sort of `fetchProducts` leaves. Sorted by
      score, highest first, and a permutation of its input. */
  function SortDesc(s: seq<Product>): (r: seq<Product>)
    ensures multiset(r) == multiset(s)
    ensures SortedByScore(r)
    decreases |s|
  {
    if s == [] then []
    else
      var init := SortDesc(s[..|s| - 1]);
      assert s == s[..|s| - 1] + [s[|s| - 1]];
      InsertSorted(s[|s| - 1], init);
      Insert(s[|s| - 1], init)
  }

  /** The sorted prefix of one more element is the sorted prefix with that element inserted. */
  lemma SortDescStep(s: seq<Product>, i: int)
    requires 0 <= i < |s|
    ensures SortDesc(s[..i + 1]) == Insert(s[i], SortDesc(s[..i]))
  {
    var p := s[..i + 1];
    assert p[..|p| - 1] == s[..i] && p[|p| - 1] == s[i];
  }

  /** `productsWithScores.sort((a, b) => (b.quality_score || 0) - (a.quality_score || 0))`, in place. */
  method SortByScore(a: array<Product>)
    modifies a
    ensures a[..] == SortDesc(old(a[..]))
  {
    ghost var input := a[..];
    var i := 0;
    while i < a.Length
      invariant 0 <= i <= a.Length
      invariant a[..i] == SortDesc(input[..i])
      invariant a[i..] == input[i..]
    {
      assert a[i] == input[i] && a[i + 1..] == input[i + 1..] by {
        assert a[i..][0] == a[i] && a[i..][1..] == a[i + 1..];
        assert input[i..][0] == input[i] && input[i..][1..] == input[i + 1..];
      }
      SortDescStep(input, i);
      SinkInto(a, i);
      i := i + 1;
    }
    assert input[..a.Length] == input;
  }

  /** One pass of the insertion sort: `a[i]` moves left past every element scoring less than it. */
  method SinkInto(a: array<Product>, i: int)
    requires 0 <= i < a.Length
    requires SortedByScore(a[..i])
    modifies a
    ensures a[..i + 1] == Insert(old(a[i]), old(a[..i]))
    ensures a[i + 1..] == old(a[i + 1..])
  {
    ghost var sorted := a[..i];
    var x := a[i];
    var j := i;
    while j > 0 && ScoreKey(a[j - 1]) < ScoreKey(x)
      invariant 0 <= j <= i
      invariant forall k :: 0 <= k < j ==> a[k] == sorted[k]
      invariant a[j] == x
      invariant forall k :: j < k <= i ==> a[k] == sorted[k - 1]
      invariant a[i + 1..] == old(a[i + 1..])
      invariant forall k :: j <= k < i ==> ScoreKey(sorted[k]) < ScoreKey(x)
    {
      a[j - 1], a[j] := x, a[j - 1];
      j := j - 1;
    }
    SinkResult(sorted, x, j, a[..i + 1]);
  }

  /** The array after a sinking pass: the sorted prefix with `x` placed at `j`, where it stops. */
  lemma SinkResult(sorted: seq<Product>, x: Product, j: int, b: seq<Product>)
    requires SortedByScore(sorted)
    requires 0 <= j <= |sorted| && |b| == |sorted| + 1
    requires forall k :: 0 <= k < j ==> b[k] == sorted[k]
    requires b[j] == x
    requires forall k :: j < k < |b| ==> b[k] == sorted[k - 1]
    requires forall k :: j <= k < |sorted| ==> ScoreKey(sorted[k]) < ScoreKey(x)
    requires j > 0 ==> ScoreKey(sorted[j - 1]) >= ScoreKey(x)
    ensures b == Insert(x, sorted)
  {
    forall k | 0 <= k < j ensures ScoreKey(sorted[k]) >= ScoreKey(x) {
      assert ScoreKey(sorted[k]) >= ScoreKey(sorted[j - 1]);
    }
    assert b == sorted[..j] + [x] + sorted[j..];
    assert sorted == sorted[..j] + sorted[j..];
    InsertAfter(x, sorted[..j], sorted[j..]);
  }

  /** The listing order: scored, then sorted by score. */
  function Ranked(products: seq<Product>, reviews: seq<Review>): seq<Product> {
    SortDesc(WithScores(products, reviews))
  }

  /** The scoring map and sort of `fetchProducts`. */
  method Rank(products: seq<Product>, reviews: seq<Review>) returns (ranked: seq<Product>)
    ensures ranked == Ranked(products, reviews)
  {
    var scored := WithScores(products, reviews);
    var a := new Product[|scored|](k requires 0 <= k < |scored| => scored[k]);
    assert a[..] == scored;
    SortByScore(a);
    ranked := a[..];
  }

  /** Every listed product is a fetched product with its score attached, and every fetched product is
      listed, as many times as it was fetched. */
  lemma RankedIsScoredPermutation(products: seq<Product>, reviews: seq<Review>)
    ensures SortedByScore(Ranked(products, reviews))
    ensures |Ranked(products, reviews)| == |products|
    ensures multiset(Ranked(products, reviews)) == multiset(WithScores(products, reviews))
    ensures forall q :: q in Ranked(products, reviews) ==>
      exists k :: 0 <= k < |products| && q == Scored(products[k], reviews)
  {
    var ranked := Ranked(products, reviews);
    var scored := WithScores(products, reviews);
    assert |ranked| == |multiset(ranked)| == |multiset(scored)| == |scored|;
    forall q | q in ranked
      ensures exists k :: 0 <= k < |products| && q == Scored(products[k], reviews)
    {
      assert q in multiset(scored);
      var k :| 0 <= k < |scored| && scored[k] == q;
    }
  }

  /** The pricing menu: every tier, or one of them. */
  datatype PricingFilter = AllTiers | Tier(tier: Pricing)

  /** The search box: a case-insensitive substring of the name, description, category or some tag. */
  predicate MatchesSearch(p: Product, searchTerm: string)
    ensures searchTerm == [] ==> MatchesSearch(p, searchTerm)
    ensures Strings.Contains(Strings.Lower(p.name), Strings.Lower(searchTerm)) ==> MatchesSearch(p, searchTerm)
  {
    var term := Strings.Lower(searchTerm);
    Strings.ContainsEmpty(Strings.Lower(p.name));
    || Strings.Contains(Strings.Lower(p.name), term)
    || Strings.Contains(Strings.Lower(p.description), term)
    || Strings.Contains(Strings.Lower(p.category), term)
    || exists k :: 0 <= k < |p.tags| && Strings.Contains(Strings.Lower(p.tags[k]), term)
  }

  predicate MatchesPricing(p: Product, pricingFilter: PricingFilter)
    ensures pricingFilter == AllTiers ==> MatchesPricing(p, pricingFilter)
    ensures pricingFilter.Tier? ==> (MatchesPricing(p, pricingFilter) <==> p.pricing == pricingFilter.tier)
  {
    pricingFilter == AllTiers || pricingFilter == Tier(p.pricing)
  }

  /** `filteredProducts`. */
  function FilterProducts(products: seq<Product>, searchTerm: string, pricingFilter: PricingFilter): (shown: seq<Product>)
    ensures forall p :: p in shown <==>
      p in products && MatchesSearch(p, searchTerm) && MatchesPricing(p, pricingFilter)
  {
    Seqs.Filter(products, (p: Product) => MatchesSearch(p, searchTerm) && MatchesPricing(p, pricingFilter))
  }

  /** Filtering keeps the listing order: the shown list is a subsequence of the ranked one, each
      shown product appears as often as in the listing, and a sorted listing stays sorted. */
  lemma FilterKeepsOrder(products: seq<Product>, searchTerm: string, pricingFilter: PricingFilter)
    ensures Seqs.IsSubsequence(FilterProducts(products, searchTerm, pricingFilter), products)
    ensures forall p :: p in products && MatchesSearch(p, searchTerm) && MatchesPricing(p, pricingFilter) ==>
      multiset(FilterProducts(products, searchTerm, pricingFilter))[p] == multiset(products)[p]
    ensures SortedByScore(products) ==> SortedByScore(FilterProducts(products, searchTerm, pricingFilter))
  {
    var keep := (p: Product) => MatchesSearch(p, searchTerm) && MatchesPricing(p, pricingFilter);
    Seqs.FilterIsSubsequence(products, keep);
    forall p | p in products && keep(p)
      ensures multiset(FilterProducts(products, searchTerm, pricingFilter))[p] == multiset(products)[p]
    {
      Seqs.FilterCount(products, keep, p);
    }
    if SortedByScore(products) {
      SubsequenceOfSortedIsSorted(FilterProducts(products, searchTerm, pricingFilter), products);
    }
  }

  lemma {:induction false} SubsequenceOfSortedIsSorted(xs: seq<Product>, ys: seq<Product>)
    requires Seqs.IsSubsequence(xs, ys)
    requires SortedByScore(ys)
    ensures SortedByScore(xs)
    decreases |ys|
  {
    if ys != [] {
      assert SortedByScore(ys[1..]);
      if xs != [] && xs[0] == ys[0] && Seqs.IsSubsequence(xs[1..], ys[1..]) {
        SubsequenceOfSortedIsSorted(xs[1..], ys[1..]);
        forall j | 0 < j < |xs| ensures ScoreKey(xs[0]) >= ScoreKey(xs[j]) {
          SubsequenceMember(xs[1..], ys[1..], j - 1);
          var m :| 0 <= m < |ys[1..]| && ys[1..][m] == xs[1..][j - 1];
          assert ys[1..][m] == ys[m + 1];
        }
        forall i, j | 0 <= i < j < |xs| ensures ScoreKey(xs[i]) >= ScoreKey(xs[j]) {
          if i > 0 {
            assert xs[i] == xs[1..][i - 1] && xs[j] == xs[1..][j - 1];
          }
        }
      } else {
        SubsequenceOfSortedIsSorted(xs, ys[1..]);
      }
    }
  }

  lemma {:induction false} SubsequenceMember(xs: seq<Product>, ys: seq<Product>, i: int)
    requires Seqs.IsSubsequence(xs, ys)
    requires 0 <= i < |xs|
    ensures xs[i] in ys
    decreases |ys|
  {
    if xs != [] && xs[0] == ys[0] && Seqs.IsSubsequence(xs[1..], ys[1..]) {
      if i > 0 {
        SubsequenceMember(xs[1..], ys[1..], i - 1);
      }
    } else {
      SubsequenceMember(xs, ys[1..], i);
    }
  }

  /** An empty search with every pricing tier shows the ranked list unchanged. */
  lemma EmptySearchShowsAll(products: seq<Product>)
    ensures FilterProducts(products, "", AllTiers) == products
  {
    var keep := (p: Product) => MatchesSearch(p, "") && MatchesPricing(p, AllTiers);
    forall k | 0 <= k < |products| ensures keep(products[k]) {
      Strings.ContainsEmpty(Strings.Lower(products[k].name));
    }
    Seqs.FilterAll(products, keep);
  }

  /** Search terms that differ only in the case of ASCII letters select the same products. */
  /** Two search terms that differ only in the case of some ASCII letters select the same products. */
  lemma SearchIgnoresCase(p: Product, term1: string, term2: string)
    requires |term1| == |term2|
    requires forall k :: 0 <= k < |term1| ==> Strings.CaseVariant(term1[k], term2[k])
    ensures MatchesSearch(p, term1) == MatchesSearch(p, term2)
  {
    Strings.LowerIgnoresCase(term1, term2);
  }

  /** Scenario: searching "AI" finds a product tagged "ai". */
  lemma SearchMatchesTagInOtherCase(p: Product)
    requires p.tags == ["ai"]
    ensures MatchesSearch(p, "AI")
  {
    assert Strings.Lower("AI") == "ai";
    assert Strings.Lower(p.tags[0]) == "ai";
    assert Strings.IsPrefix("ai", "ai");
  }

  /** The listing page's state: the ranked products, the loading flag and the two filter inputs. */
  class ProductsPage {
    var products: seq<Product>
    var loading: bool
    var searchTerm: string
    var pricingFilter: PricingFilter

    constructor ()
      ensures products == [] && loading && searchTerm == [] && pricingFilter == AllTiers
    {
      products := [];
      loading := true;
      searchTerm := [];
      pricingFilter := AllTiers;
    }

    /** `fetchProducts`: on a store error the listing keeps what it showed; otherwise it becomes
        the fetched rows (null read as none), scored against the fetched reviews and sorted. */
    method FetchProducts(productsResult: Fetch<seq<Product>>, reviewsData: Option<seq<Review>>)
      modifies this
      ensures !loading
      ensures searchTerm == old(searchTerm) && pricingFilter == old(pricingFilter)
      ensures productsResult.FetchError? ==> products == old(products)
      ensures productsResult.Fetched? ==>
        products == Ranked(OrEmpty(productsResult.data), OrEmpty(reviewsData))
    {
      loading := true;
      if productsResult.FetchError? {
        loading := false;
        return;
      }
      var sorted := Rank(OrEmpty(productsResult.data), OrEmpty(reviewsData));
      products := sorted;
      loading := false;
    }

    /** The products shown under the current search and pricing filter. */
    function Shown(): (shown: seq<Product>)
      reads this
      ensures forall p :: p in shown <==>
        p in products && MatchesSearch(p, searchTerm) && MatchesPricing(p, pricingFilter)
    {
      FilterProducts(products, searchTerm, pricingFilter)
    }
  }
}
