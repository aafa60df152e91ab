/** The page-head component: the full title, the canonical link and the defaults for absent props. */
module Seo {
  import opened Types
  import Strings

  const SiteName: string := "ProdSpark"

  const DefaultTitle: string := SiteName + " - Discover & Submit the Best Tools and Products"
  const DefaultDescription: string :=
    "ProdSpark is a free platform to discover, submit, and review the best tools, AI products, and side projects. Built for makers and builders."
  const DefaultImage: string := "https://prodspark.vercel.app/OG-BANNER.png"
  const DefaultUrl: string := "https://prodspark.vercel.app"
  const DefaultType: string := "website"
  const DefaultKeywords: string := "ai, devtools, marketing, productivity, directory, makers, saas, products, tools"
  const DefaultAuthor: string := "ProdSpark Team"
  const DefaultCanonical: string := "https://prodspark.vercel.app"

  /** The props as passed; `None` is an absent prop. */
  datatype SeoProps = SeoProps(
    title: Option<string>, description: Option<string>, image: Option<string>, url: Option<string>,
    pageType: Option<string>, keywords: Option<string>, author: Option<string>, canonical: Option<string>)

  /** The props after defaulting. */
  datatype SeoConfig = SeoConfig(
    title: string, description: string, image: string, url: string,
    pageType: string, keywords: string, author: string, canonical: string)

  function OrDefault(prop: Option<string>, default: string): string {
    match prop
    case Some(v) => v
    case None => default
  }

  /** Destructuring with defaults: an absent prop takes its default, a given one (even "") is kept. */
  function Resolve(props: SeoProps): (config: SeoConfig)
    ensures config.title == (if props.title.Some? then props.title.value else DefaultTitle)
    ensures config.description == (if props.description.Some? then props.description.value else DefaultDescription)
    ensures config.image == (if props.image.Some? then props.image.value else DefaultImage)
    ensures config.url == (if props.url.Some? then props.url.value else DefaultUrl)
    ensures config.pageType == (if props.pageType.Some? then props.pageType.value else DefaultType)
    ensures config.keywords == (if props.keywords.Some? then props.keywords.value else DefaultKeywords)
    ensures config.author == (if props.author.Some? then props.author.value else DefaultAuthor)
    ensures config.canonical == (if props.canonical.Some? then props.canonical.value else DefaultCanonical)
  {
    SeoConfig(
      OrDefault(props.title, DefaultTitle), OrDefault(props.description, DefaultDescription),
      OrDefault(props.image, DefaultImage), OrDefault(props.url, DefaultUrl),
      OrDefault(props.pageType, DefaultType), OrDefault(props.keywords, DefaultKeywords),
      OrDefault(props.author, DefaultAuthor), OrDefault(props.canonical, DefaultCanonical))
  }

  /** `fullTitle`: the title, with ` | ProdSpark` appended unless it already names the site. */
  function FullTitle(title: string): (full: string)
    ensures Strings.Contains(full, SiteName)
    ensures Strings.Contains(title, SiteName) ==> full == title
    ensures !Strings.Contains(title, SiteName) ==> full == title + " | " + SiteName
  {
    if Strings.Contains(title, SiteName) then title
    else
      Strings.ContainsAppended(title + " | ", SiteName);
      title + " | " + SiteName
  }

  /** Applying the title rule to its own result changes nothing. */
  lemma FullTitleIdempotent(title: string)
    ensures FullTitle(FullTitle(title)) == FullTitle(title)
  {
  }

  /** The default title already names the site, so it is used as it is. */
  lemma DefaultTitleUnchanged()
    ensures FullTitle(DefaultTitle) == DefaultTitle
  {
    assert DefaultTitle[..|SiteName|] == SiteName;
  }

  /** `canonical || url`: the canonical prop unless it is empty, then the page URL. */
  function CanonicalLink(config: SeoConfig): (link: string)
    ensures config.canonical != [] ==> link == config.canonical
    ensures config.canonical == [] ==> link == config.url
  {
    if config.canonical != [] then config.canonical else config.url
  }

  /** The default canonical URL is not empty, so an absent `canonical` prop always yields the site
      root whatever `url` is; the page URL is used only for an explicitly empty `canonical`. */
  lemma CanonicalFallback(props: SeoProps)
    ensures props.canonical.None? ==> CanonicalLink(Resolve(props)) == DefaultCanonical
    ensures props.canonical == Some([]) ==> CanonicalLink(Resolve(props)) == Resolve(props).url
    ensures props.canonical.Some? && props.canonical.value != [] ==>
      CanonicalLink(Resolve(props)) == props.canonical.value
  {
    assert DefaultCanonical != [] by {
      assert DefaultCanonical[0] == 'h';
    }
  }

  /** With no props at all the page gets the default title unchanged and the default canonical link. */
  lemma AllDefaults()
    ensures var config := Resolve(SeoProps(None, None, None, None, None, None, None, None));
      FullTitle(config.title) == DefaultTitle && CanonicalLink(config) == DefaultCanonical
  {
    DefaultTitleUnchanged();
  }
}
