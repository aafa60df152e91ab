/** The product and review records of the directory and the quality-score formula. */
module Types {

  datatype Option<T> = None | Some(value: T)

  /** The three pricing tiers a product can carry. */
  datatype Pricing = Free | Premium | Paid

  /** A result from the data store: rows (possibly null) or an error. */
  datatype Fetch<T> = Fetched(data: Option<T>) | FetchError

  /** `data || []` for a fetched list that may be null. */
  function OrEmpty<T>(data: Option<seq<T>>): seq<T> {
    match data
    case Some(rows) => rows
    case None => []
  }

  /** A row of the `products` table; `qualityScore` and `averageRating` are the optional
      computed fields the pages attach after fetching. */
  datatype Product = Product(
    id: string,
    ownerClerkId: string,
    name: string,
    category: string,
    link: string,
    logoUrl: string,
    description: string,
    tags: seq<string>,
    pricing: Pricing,
    imagesUrls: seq<string>,
    views: int,
    likes: seq<string>,
    createdAt: string,
    qualityScore: Option<real>,
    averageRating: Option<real>)

  /** A row of the `reviews` table. */
  datatype Review = Review(
    id: string,
    productId: string,
    userClerkId: string,
    userName: Option<string>,
    userAvatarUrl: Option<string>,
    text: string,
    stars: int,
    createdAt: string)

  /** `calculateQualityScore`: views, plus two per entry of `likes`, plus ten per star of average. */
  function QualityScore(product: Product, averageRating: real): (score: real)
    ensures product.views >= 0 && averageRating >= 0.0 ==> score >= 0.0
    ensures score >= product.views as real + averageRating * 10.0
    ensures score - product.views as real - averageRating * 10.0 == 2.0 * |product.likes| as real
  {
    product.views as real + (|product.likes| * 2) as real + averageRating * 10.0
  }

  /** A brand-new product with no reviews scores exactly 0. */
  lemma NewProductScoresZero(p: Product)
    requires p.views == 0 && p.likes == []
    ensures QualityScore(p, 0.0) == 0.0
  {
  }

  /** The score never decreases when views, the number of likes or the average grows. */
  lemma QualityScoreMonotone(p: Product, q: Product, a: real, b: real)
    requires p.views <= q.views && |p.likes| <= |q.likes| && a <= b
    ensures QualityScore(p, a) <= QualityScore(q, b)
  {
  }

  /** The score reads only `views`, the length of `likes` and the average; every other field is irrelevant. */
  lemma QualityScoreDependsOnlyOnCounts(p: Product, q: Product, a: real)
    requires p.views == q.views && |p.likes| == |q.likes|
    ensures QualityScore(p, a) == QualityScore(q, a)
  {
  }

  /** A repeated user id in `likes` is counted again: the score uses the list length. */
  lemma DuplicateLikeCounted(p: Product, user: string, a: real)
    requires user in p.likes
    ensures QualityScore(p.(likes := p.likes + [user]), a) == QualityScore(p, a) + 2.0
  {
  }

  /** 100 views, two likes and an average of 4.5 give 149. */
  lemma QualityScoreExample(p: Product)
    requires p.views == 100 && |p.likes| == 2
    ensures QualityScore(p, 4.5) == 149.0
  {
  }
}
