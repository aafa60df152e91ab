# ProdSpark directory logic, modelled in Dafny

ProdSpark is a product directory. Users browse, search, submit, like and review tools. Persistence, sign-in and image storage all go to external services. What is left in the front end is a small amount of deterministic logic over rows that have already been fetched. This project models that logic and proves its properties:

- **Quality score.** `calculateQualityScore` is views + 2 × number of likes + 10 × average rating.
- **Scoring and ranking** (listing and home page). Each product is joined to its reviews by `product_id`. The mean of their stars (or 0) and the score are attached. The list is then sorted by score, highest first, with an in-place sort. The home page shows the first four of at most ten fetched rows.
- **Listing filter.** The search is a case-insensitive substring match on name, description, category or any tag. It is ANDed with the pricing menu, where "All" matches every tier.
- **Product page.**
  - The like toggle.
  - The once-per-session view-count guard.
  - The review submission guards and state update.
  - The average shown on the page.
  - The `aggregateRating` block, present only when there are reviews.
- **Submission form.**
  - Comma-separated tag parsing.
  - The gallery of at most three images, kept in step with its preview URLs.
  - Removal of a gallery image by position.
  - The sign-in/logo guards and the initial record (no likes, 0 views).
- **Page head.** ` | ProdSpark` is appended to a title that does not already name the site. Absent props take their defaults. The canonical link is the `canonical` prop unless it is empty, in which case it is the page URL. The default canonical URL is not empty, so a page that passes only `url` still gets the site root as its canonical link.

Files: `types.dfy` (records, score), `rating.dfy` (join and average), `products.dfy` (scoring map, sort, filter, listing page), `home.dfy` (featured selection), `product_details.dfy`, `submit_product.dfy`, `seo.dfy`. Two helper files model JavaScript built-ins: `strings.dfy` (`trim`, ASCII `toLowerCase`, `includes`, `split`) and `seqs.dfy` (`Array.prototype.filter`, subsequence).

Modelling choices:

- **Numbers and strings.** Averages and scores are `real`, which is exact. Stars and views are `int`. Strings are `seq<char>`.
- **The sort.** It is an in-place insertion sort on an `array`. It strictly moves an element left past lower scores, so it is stable, like JavaScript's `Array.prototype.sort`. It is proved equal to a functional insertion sort, `SortDesc`, which is proved sorted and a permutation. Products with equal scores therefore keep the order in which the store returned them. This is the deterministic tie-break.
- **Sort key.** The comparator's `quality_score || 0` is `ScoreKey`: no score counts as 0.
- **External results as parameters.** Every result that comes from outside is a parameter:
  - store fetches (`Fetch`: rows, possibly null, or an error);
  - the like update and the review insert (`Write`);
  - token presence;
  - upload results;
  - `URL.createObjectURL` values.
  - `sessionStorage` is a set of keys, and the `increment_views` calls made are a multiset of product ids.
- **The ten-row query.** `.limit(10)` on the home page is modelled as taking the first ten rows the store hands back.
- **Behaviour of the code worth noting:**
  - `likes` is not kept duplicate-free by the code. The toggle removes every occurrence, and the score counts duplicates.
  - Reviews are joined by a filter per product, not a single partition pass.
  - Stars are not checked to be in 1..5. The [1, 5] bound on the average is proved only under that assumption.
  - The product page attaches `quality_score` but not `averageRating` to the loaded product.
  - A review is stored with its text as typed, not trimmed. Only the emptiness check uses `trim`.

## Model

| member | source | states |
|---|---|---|
| Types.QualityScore | src/types/index.ts:31-33 | the score is views plus exactly 2 per entry of `likes` plus 10 per star of average; it is never below views + 10 × average, and non-negative for non-negative views and average |
| Types.NewProductScoresZero | src/types/index.ts:31-33 | 0 views, no likes and average 0 score exactly 0 |
| Types.QualityScoreMonotone | src/types/index.ts:32 | the score is non-decreasing in views, in the number of likes and in the average |
| Types.QualityScoreDependsOnlyOnCounts | src/types/index.ts:31-33 | two products with the same views and the same number of likes score the same; every other field is irrelevant |
| Types.DuplicateLikeCounted | src/types/index.ts:31-33 | adding an id that is already in `likes` still raises the score by 2 (list length, not a distinct count) |
| Types.QualityScoreExample | src/types/index.ts:32 | 100 views, two likes and average 4.5 give 149 |
| Rating.ReviewsFor | src/pages/Products.tsx:34 | a review is joined to a product exactly when its `productId` equals the product's id |
| Rating.ReviewsForKeepsOrderAndCount | src/pages/Products.tsx:34-37 | the join is an order-preserving subsequence of the reviews and holds each matching review exactly as often as the reviews do, and no other; so the mean is taken over exactly those occurrences |
| Rating.SumStarsConcat | src/pages/Products.tsx:36 | the sum of the stars of a concatenation is the sum of the parts |
| Rating.SumStarsFoldsLeft | src/pages/Products.tsx:36 | summing the stars equals the left fold `reduce((acc, curr) => acc + curr.stars, 0)`: the last review's stars added to the sum of the ones before it |
| Rating.AverageRating | src/pages/Products.tsx:35-37 | 0 for no reviews; otherwise average × count equals the sum of the stars (the mean) |
| Rating.SumStarsBounds | src/pages/Products.tsx:36 | with every star in [lo, hi], the sum lies in [lo·n, hi·n] |
| Rating.AverageWithinStarBounds | src/pages/Home.tsx:35-38 | the average of a non-empty list lies between any lower and upper bound of its stars |
| Rating.AverageOfValidStars | src/pages/ProductDetails.tsx:150-152 | with stars in 1..5 the average is in [1, 5] |
| Rating.ReviewsForIgnoresOthers | src/pages/Products.tsx:34 | inserting a review for another product anywhere leaves a product's joined reviews unchanged |
| Rating.AverageExample | src/pages/Products.tsx:35-37 | reviews of 5 and 4 stars average 4.5 |
| Products.Scored | src/pages/Products.tsx:33-44 | a scored product carries an average, its sort key is `QualityScore` of the product at that average, the average is 0 without matching reviews, and every stored field is kept |
| Products.ScoredAttachesMeanAndScore | src/pages/Products.tsx:33-44 | the attached average is the mean of exactly the matching reviews (0 if none) and the attached score is `QualityScore` of it |
| Products.WithScores | src/pages/Products.tsx:33-44 | one scored entry per fetched product, in the same position, with the same id and likes, each carrying an average and ranked by `QualityScore` at that average |
| Products.ScoreKey | src/pages/Products.tsx:46 | the sort key is the attached `quality_score`, or 0 when there is none |
| Products.UnmatchedReviewIgnored | src/pages/Products.tsx:33-37 | a review whose `productId` matches no fetched product changes no product's average or score |
| Products.SortDesc | src/pages/Products.tsx:46 | the sorted list is non-increasing by score and a permutation of its input |
| Products.SortByScore | src/pages/Products.tsx:46 | the in-place sort leaves the array equal to `SortDesc` of its old contents |
| Products.Rank | src/pages/Products.tsx:33-46 | the scoring map followed by the in-place sort yields `SortDesc` of the scored products |
| Products.RankedIsScoredPermutation | src/pages/Products.tsx:33-46 | the ranked list is sorted, has the same multiset of entries as the scored fetched products (each fetched product appears as often as it was fetched), and each entry is a fetched product with its score attached |
| Products.MatchesSearch | src/pages/Products.tsx:52-56 | an empty search matches every product; a term contained in the lower-cased name matches |
| Products.MatchesPricing | src/pages/Products.tsx:58 | "All" matches every product; a tier matches exactly the products with that pricing |
| Products.FilterProducts | src/pages/Products.tsx:51-60 | a product is shown iff it is listed, matches the search and matches the pricing filter |
| Products.FilterKeepsOrder | src/pages/Products.tsx:51 | the shown list is an order-preserving subsequence of the listing, keeps each match's multiplicity, and is sorted when the listing is |
| Products.EmptySearchShowsAll | src/pages/Products.tsx:51-60 | an empty search under "All" shows the listing unchanged |
| Products.SearchIgnoresCase | src/pages/Products.tsx:52-56 | two search terms of equal length that differ position by position only in the case of ASCII letters select the same products |
| Strings.LowerIgnoresCase | src/pages/Products.tsx:52-56 | strings that differ only in the case of ASCII letters have the same `toLowerCase` |
| Products.SearchMatchesTagInOtherCase | src/pages/Products.tsx:56 | searching "AI" matches a product tagged "ai" |
| Products.ProductsPage.constructor | src/pages/Products.tsx:12-15 | the listing starts empty and loading, with an empty search and "All" |
| Products.ProductsPage.FetchProducts | src/pages/Products.tsx:22-49 | on a fetch error the listing is kept; otherwise it becomes the ranked fetched rows (null read as none) against the fetched reviews; loading ends false; the filters are untouched |
| Products.ProductsPage.Shown | src/pages/Products.tsx:51-60 | the shown products are exactly the listed ones passing the current search and pricing filter |
| Home.SelectFeatured | src/pages/Home.tsx:34-49 | the featured list is the first four of the ranked first-ten rows |
| Home.FeaturedIsTopOfRanking | src/pages/Home.tsx:21-49 | at most 10 candidates; the featured list has min(4, n) entries, is sorted by score, is drawn from the scored candidates, and no left-out candidate scores higher than a featured one |
| Home.FeaturedScoredLikeListing | src/pages/Home.tsx:34-44 | each featured product is a candidate scored by the same rule as the listing |
| Home.FeaturedAverageWithinStars | src/pages/Home.tsx:35-38 | a featured product with reviews has an average between the lowest and highest of their stars |
| Home.HomePage.constructor | src/pages/Home.tsx:16-17 | the home page starts with no featured products and loading |
| Home.HomePage.FetchFeatured | src/pages/Home.tsx:20-53 | on a fetch error the featured list is kept; otherwise it becomes `Featured` of the fetched rows and reviews; loading ends false |
| ProductDetails.ToggleLike | src/pages/ProductDetails.tsx:71-74 | with the user present, every occurrence is removed and the rest keep their order and multiplicity; with the user absent, it is appended at the end |
| ProductDetails.ToggleFlipsOnlyTheUser | src/pages/ProductDetails.tsx:71-74 | the user's membership flips, no other id's membership changes, and a duplicate-free list stays duplicate-free |
| ProductDetails.ToggleTwiceRestores | src/pages/ProductDetails.tsx:71-74 | starting from "not liked", two toggles restore the exact list |
| ProductDetails.SessionKey | src/pages/ProductDetails.tsx:53 | the key is `viewed_` followed by the product id, which can be read back from it |
| ProductDetails.SessionKeyInjective | src/pages/ProductDetails.tsx:53 | different product ids have different `viewed_<id>` keys |
| ProductDetails.ViewCounter.constructor | src/pages/ProductDetails.tsx:52-58 | a session starts with its storage and no views counted |
| ProductDetails.ViewCounter.IncrementViews | src/pages/ProductDetails.tsx:52-58 | the view is counted and the key set only when the key was absent; otherwise nothing changes; at most one count per id is kept |
| ProductDetails.AtMostOncePerSession | src/pages/ProductDetails.tsx:53-56 | in a session, each product's views are counted at most once |
| ProductDetails.AggregateRatingOf | src/pages/ProductDetails.tsx:171-177 | the block is present iff there are reviews, with `reviewCount` the number of reviews and the mean as rating |
| ProductDetails.DetailsPage.constructor | src/pages/ProductDetails.tsx:21-25 | no product, no reviews, loading, and a draft of empty text with 5 stars |
| ProductDetails.DetailsPage.Load | src/pages/ProductDetails.tsx:34-50 | an existing product is shown with `quality_score` from the mean of the fetched reviews (0 if none), and those reviews are shown; a missing row changes nothing; loading ends false |
| ProductDetails.DetailsPage.ShownAverage | src/pages/ProductDetails.tsx:150-152 | the average shown is 0 with no reviews, otherwise the mean of their stars |
| ProductDetails.DetailsPage.SchemaRating | src/pages/ProductDetails.tsx:171-177 | `aggregateRating` is present iff there are reviews, with their count and the shown average |
| ProductDetails.DetailsPage.HandleLike | src/pages/ProductDetails.tsx:60-91 | a signed-out user or a failed write changes nothing; after a successful write the shown product's likes are toggled for the user, with the matching message |
| ProductDetails.DetailsPage.SubmitReview | src/pages/ProductDetails.tsx:93-125 | nothing is sent when signed out, when the trimmed text is empty, or when no token is obtained; otherwise the draft as typed is sent; on a successful insert the stored row is prepended and the draft resets to empty text and 5 stars; on failure the reviews and draft are kept; past the two early returns `reviewLoading` ends false |
| Strings.TrimEmptyIffBlank | src/pages/ProductDetails.tsx:96 | `trim()` gives the empty string exactly when the text is all whitespace |
| Strings.TrimmedHasNoOuterWhitespace | src/pages/SubmitProduct.tsx:103 | a trimmed string neither starts nor ends with whitespace |
| SubmitProduct.ParseTags | src/pages/SubmitProduct.tsx:103 | each tag is non-empty, has no leading or trailing whitespace, and no comma |
| SubmitProduct.ParseTagsKeepsOrder | src/pages/SubmitProduct.tsx:103 | the tags are exactly the non-empty trimmed pieces, in left-to-right order, each as often as typed |
| SubmitProduct.BlankTextHasNoTags | src/pages/SubmitProduct.tsx:103 | an empty input, or one of only whitespace and commas, yields no tags |
| SubmitProduct.SingleTag | src/pages/SubmitProduct.tsx:103 | text without a comma gives its trimmed self as the only tag |
| SubmitProduct.RemoveIndex | src/pages/SubmitProduct.tsx:61-64 | in range, exactly that position is dropped and the rest keep their order; out of range, nothing changes |
| SubmitProduct.InitialRecord | src/pages/SubmitProduct.tsx:96-108 | the inserted record has no likes and 0 views, the signed-in user as owner, the uploaded logo and gallery URLs, the form's text fields and pricing, and only clean tags |
| SubmitProduct.SubmittedProductScoresZero | src/pages/SubmitProduct.tsx:96-108 | the inserted record has no likes and 0 views, so with no reviews it scores 0 |
| SubmitProduct.SubmitForm.constructor | src/pages/SubmitProduct.tsx:23-36 | form defaults: category "AI", pricing Free, empty fields, no logo, empty gallery |
| SubmitProduct.SubmitForm.HandleLogoChange | src/pages/SubmitProduct.tsx:38-44 | the first chosen file becomes the logo with its preview; no file changes nothing |
| SubmitProduct.SubmitForm.HandleGalleryChange | src/pages/SubmitProduct.tsx:46-59 | beyond 3 images in all, nothing changes; otherwise the files and their previews are appended in order; the gallery stays at most 3 and in step with its previews |
| SubmitProduct.SubmitForm.RemoveGalleryImage | src/pages/SubmitProduct.tsx:61-64 | the same position is removed from the gallery and from the previews, keeping both in step |
| SubmitProduct.SubmitForm.HandleSubmit | src/pages/SubmitProduct.tsx:66-122 | refused without a user and a logo, or with more than 3 images; a missing token or a failed upload inserts nothing; otherwise the initial record (parsed tags, no likes, 0 views) is inserted; loading ends false |
| Seo.Resolve | src/components/SEO.tsx:14-23 | each of the eight props takes its default when absent and is kept as given (even empty) when present |
| Seo.FullTitle | src/components/SEO.tsx:24-25 | the full title always names the site; a title naming it is kept; any other gets " \| ProdSpark" appended |
| Seo.FullTitleIdempotent | src/components/SEO.tsx:25 | applying the title rule twice is the same as once |
| Seo.DefaultTitleUnchanged | src/components/SEO.tsx:15-25 | the default title already names the site and passes through unchanged |
| Seo.CanonicalLink | src/components/SEO.tsx:37 | the canonical link is `canonical` unless it is empty, then `url` |
| Seo.CanonicalFallback | src/components/SEO.tsx:14-37 | for any props: an absent `canonical` gives the default site root whatever `url` is; an explicitly empty one gives the resolved `url`; a non-empty one is used as given |
| Seo.AllDefaults | src/components/SEO.tsx:14-37 | with no props, the title is the default title and the canonical link the default canonical URL |

## Left out

- Calls to the store, the identity provider and the media service are left out. Each is modelled only as a success or error value passed in. This covers `supabase.from(...)`, `rpc('increment_views')`, `getToken` and the Cloudinary uploads. `src/supabaseClient.ts` and `src/utils/cloudinary.ts` are not part of this model.
- The server-side view counter is left out, because it lives in the store. The model counts the `increment_views` calls made.
- Rendering is left out: JSX, animations, dropdown state, toasts other than the like feedback, `navigate`, `ProductCard`, and the sign-in and sign-up pages.
- Floating point is left out. Averages and scores are JavaScript doubles, but the model uses exact reals. Rounding (of 10 × 13/3, say) can make two nearly equal scores compare differently, and so change the order of near-ties in the sort.
- Display formatting is left out: `Math.round`, `toFixed(1)` (the rating is kept as an exact real), `toLocaleString` and the `substring` cuts.
- Concurrency is left out. This covers the order of `await`s, the lost-update race on `likes` between sessions, `Promise.all` uploads, and the stale `gallery` closure in `handleGalleryChange`.
- The JSON-LD shapes are left out, except for the `aggregateRating` rule.
- The `onChange` setters of the search box, the pricing menu and the form fields are left out. They only assign the typed value.
- DetailsPage.HandleLike: a missing token is passed in as a failed write (`WriteFailed`). In the source both paths end in the same catch, with the same message and no state change.
- DetailsPage.SubmitReview: the review the store returns is a parameter. The refresh `fetchProductAndReviews()` after a success is not chained, and is modelled separately by `Load`.
- Strings.Lower: only ASCII letters are lowered. `toLowerCase` also lowers other scripts, so the search's case-insensitivity is modelled only for ASCII.
- Products.SortDesc: its contract states "sorted and a permutation". Among equal scores the result keeps the input order, because the insertion sort is stable. No lemma states that tie order.
- Home.SelectFeatured: which ten rows the store returns for `.limit(10)` is not specified by the query. The model takes the first ten rows of the sequence it is given.
- SubmitProduct.SubmitForm.HandleGalleryChange: the caller supplies one preview URL per file. That is what the `files.map(URL.createObjectURL)` call produces. A null `FileList` is read as no files, and that leaves the gallery unchanged.
