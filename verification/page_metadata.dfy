/**
  SEO metadata for a CMS page (`generatePageMetadata`): title and description,
  one OpenGraph image, the robots directive and the absolute canonical URL.
  The page may be missing altogether, and every field of it may be missing.
  The CMS image-URL builder is a parameter.
*/
module PageMetadata {
  import opened Wrappers

  /** Site URL used when the environment does not provide a non-empty one. */
  const DEFAULT_SITE_URL: string := "https://www.massimilianocangelosi.com"
  /** Path of the site's own OpenGraph image, used when the page has none. */
  const FALLBACK_OG_PATH: string := "/images/og-image.jpg"
  const DEFAULT_OG_WIDTH: real := 1200.0
  const DEFAULT_OG_HEIGHT: real := 630.0
  /** The slug whose canonical URL is the site root. */
  const INDEX_SLUG: string := "index"

  // ----- input: the page record as the CMS query returns it -----

  datatype Dimensions = Dimensions(width: Option<real>, height: Option<real>)
  datatype ImageMetadata = ImageMetadata(dimensions: Option<Dimensions>)
  datatype Asset = Asset(metadata: Option<ImageMetadata>)
  datatype Image = Image(asset: Option<Asset>)

  datatype Page = Page(metaTitle: Option<string>, metaDescription: Option<string>,
                       noindex: Option<bool>, ogImage: Option<Image>)

  // ----- output: the metadata record -----

  datatype GoogleBot = GoogleBot(index: bool, follow: bool, maxSnippet: int,
                                 maxImagePreview: string, maxVideoPreview: int)
  datatype Robots = Robots(index: bool, follow: bool, googleBot: Option<GoogleBot>)
  datatype OgImage = OgImage(url: string, width: real, height: real)
  datatype OpenGraph = OpenGraph(images: seq<OgImage>, locale: string, kind: string)
  datatype Metadata = Metadata(title: Option<string>, description: Option<string>,
                               openGraph: OpenGraph, robots: Robots, canonical: string)

  /**
    The site URL: the environment's value when it is set and non-empty (`||` also
    skips the empty string), otherwise the built-in address. It is never empty.
  */
  function SiteUrl(env: Option<string>): (url: string)
    ensures |url| > 0
    ensures env.Some? && |env.value| > 0 ==> url == env.value
    ensures env.None? || env.value == [] ==> url == "https://www.massimilianocangelosi.com"
  {
    if env.Some? && env.value != [] then env.value else DEFAULT_SITE_URL
  }

  /** JavaScript's `x || default` on an optional number: missing and 0 both give the default. */
  function NumberOr(x: Option<real>, default: real): (r: real)
    ensures default != 0.0 ==> r != 0.0
    ensures x.Some? && x.value != 0.0 ==> r == x.value
    ensures x == None || x == Some(0.0) ==> r == default
  {
    if x.Some? && x.value != 0.0 then x.value else default
  }

  /** `page?.ogImage?.asset?.metadata?.dimensions`. */
  function ImageDimensions(page: Option<Page>): Option<Dimensions> {
    if page.Some? && page.value.ogImage.Some?
       && page.value.ogImage.value.asset.Some?
       && page.value.ogImage.value.asset.value.metadata.Some?
    then page.value.ogImage.value.asset.value.metadata.value.dimensions
    else None
  }

  function DimensionWidth(page: Option<Page>): Option<real> {
    var d := ImageDimensions(page);
    if d.Some? then d.value.width else None
  }

  function DimensionHeight(page: Option<Page>): Option<real> {
    var d := ImageDimensions(page);
    if d.Some? then d.value.height else None
  }

  /** `Boolean(page?.noindex)`: only an explicit `true` on a present page. */
  function Noindexed(page: Option<Page>): (b: bool)
    ensures page.None? ==> !b
    ensures page.Some? && (page.value.noindex.None? || page.value.noindex == Some(false)) ==> !b
    ensures page.Some? && page.value.noindex == Some(true) ==> b
  {
    page.Some? && page.value.noindex == Some(true)
  }

  /** The robots directive: nothing allowed when noindexed, otherwise everything allowed. */
  function RobotsFor(noindex: bool): (r: Robots)
    ensures noindex ==> r == Robots(false, false, None)
    ensures !noindex ==> r.index && r.follow && r.googleBot.Some?
                         && r.googleBot.value.index && r.googleBot.value.follow
    ensures r.index == r.follow == !noindex
  {
    if noindex then Robots(false, false, None)
    else Robots(true, true, Some(GoogleBot(true, true, -1, "large", -1)))
  }

  /** The absolute canonical URL: the site root for the slug "index", the slug's own path otherwise. */
  function Canonical(siteUrl: string, slug: string): (url: string)
    ensures |url| > |siteUrl| && url[..|siteUrl| + 1] == siteUrl + "/"
    ensures slug == "index" ==> url == siteUrl + "/"
    ensures slug != "index" ==> url == siteUrl + "/" + slug
  {
    siteUrl + "/" + (if slug == INDEX_SLUG then "" else slug)
  }

  /**
    The metadata record for `page` under `slug`. `imageUrl` stands for the CMS
    builder's `urlFor(image).quality(100).url()`.
  */
  function GeneratePageMetadata(siteUrl: string, imageUrl: Image -> string,
                                page: Option<Page>, slug: string): (m: Metadata)
    // title and description are copied, and absent with the page
    ensures page.Some? ==> m.title == page.value.metaTitle && m.description == page.value.metaDescription
    ensures page.None? ==> m.title.None? && m.description.None?
    // the OpenGraph block is the same shape for every input
    ensures |m.openGraph.images| == 1
    ensures m.openGraph.locale == "fr_FR" && m.openGraph.kind == "website"
    // the image URL: the page's own image when it has one, the site's fallback otherwise
    ensures page.Some? && page.value.ogImage.Some? ==>
              m.openGraph.images[0].url == imageUrl(page.value.ogImage.value)
    ensures page.None? || page.value.ogImage.None? ==>
              m.openGraph.images[0].url == siteUrl + "/images/og-image.jpg"
    // the image size: the stored dimension when it is non-zero, else 1200 x 630
    ensures m.openGraph.images[0].width != 0.0 && m.openGraph.images[0].height != 0.0
    ensures DimensionWidth(page).Some? && DimensionWidth(page).value != 0.0 ==>
              m.openGraph.images[0].width == DimensionWidth(page).value
    ensures DimensionWidth(page).None? || DimensionWidth(page) == Some(0.0) ==>
              m.openGraph.images[0].width == 1200.0
    ensures DimensionHeight(page).Some? && DimensionHeight(page).value != 0.0 ==>
              m.openGraph.images[0].height == DimensionHeight(page).value
    ensures DimensionHeight(page).None? || DimensionHeight(page) == Some(0.0) ==>
              m.openGraph.images[0].height == 630.0
    // robots: only an explicit noindex on a present page blocks indexing
    ensures m.robots.index <==> !(page.Some? && page.value.noindex == Some(true))
    ensures page.Some? && page.value.noindex == Some(true) ==> m.robots == Robots(false, false, None)
    // canonical
    ensures slug == "index" ==> m.canonical == siteUrl + "/"
    ensures slug != "index" ==> m.canonical == siteUrl + "/" + slug
  {
    var ogUrl := if page.Some? && page.value.ogImage.Some?
                 then imageUrl(page.value.ogImage.value)
                 else siteUrl + FALLBACK_OG_PATH;
    var width := NumberOr(DimensionWidth(page), DEFAULT_OG_WIDTH);
    var height := NumberOr(DimensionHeight(page), DEFAULT_OG_HEIGHT);
    Metadata(
      if page.Some? then page.value.metaTitle else None,
      if page.Some? then page.value.metaDescription else None,
      OpenGraph([OgImage(ogUrl, width, height)], "fr_FR", "website"),
      RobotsFor(Noindexed(page)),
      Canonical(siteUrl, slug))
  }

  /**
    A missing page, or a page whose noindex flag is missing or false, is
    indexable: index and follow are on, for crawlers in general and for Googlebot.
  */
  lemma MissingNoindexIsIndexable(siteUrl: string, imageUrl: Image -> string,
                                  page: Option<Page>, slug: string)
    requires page.None? || page.value.noindex != Some(true)
    ensures var m := GeneratePageMetadata(siteUrl, imageUrl, page, slug);
            && m.robots.index && m.robots.follow
            && m.robots.googleBot.Some?
            && m.robots.googleBot.value.index && m.robots.googleBot.value.follow
  {
  }

  /**
    The robots directive never contradicts itself: index and follow agree, a
    Googlebot entry is present exactly when indexing is allowed, and then it
    agrees with the general directive.
  */
  lemma RobotsConsistent(siteUrl: string, imageUrl: Image -> string, page: Option<Page>, slug: string)
    ensures var r := GeneratePageMetadata(siteUrl, imageUrl, page, slug).robots;
            && r.index == r.follow
            && (r.googleBot.Some? <==> r.index)
            && (r.googleBot.Some? ==>
                  r.googleBot.value.index == r.index && r.googleBot.value.follow == r.follow)
  {
  }

  /** The slug can be read back from any canonical URL except the root one. */
  lemma {:induction false} CanonicalRecoversSlug(siteUrl: string, slug: string)
    requires slug != "index"
    ensures Canonical(siteUrl, slug)[|siteUrl| + 1..] == slug
  {
  }

  /** Distinct slugs other than "index" get distinct canonical URLs. */
  lemma CanonicalInjective(siteUrl: string, slug1: string, slug2: string)
    requires slug1 != "index" && slug2 != "index"
    requires Canonical(siteUrl, slug1) == Canonical(siteUrl, slug2)
    ensures slug1 == slug2
  {
  }

  /** The slug "index" and the empty slug share the root canonical URL. */
  lemma IndexSharesRootWithEmptySlug(siteUrl: string)
    ensures Canonical(siteUrl, "index") == Canonical(siteUrl, "")
  {
  }

  /** A stored dimension of 0 is treated like a missing one. */
  lemma ZeroDimensionFallsBack(siteUrl: string, imageUrl: Image -> string, page: Option<Page>, slug: string)
    requires DimensionWidth(page) == Some(0.0) && DimensionHeight(page) == Some(0.0)
    ensures var img := GeneratePageMetadata(siteUrl, imageUrl, page, slug).openGraph.images[0];
            img.width == 1200.0 && img.height == 630.0
  {
  }
}
