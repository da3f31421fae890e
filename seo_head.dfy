/** The `<head>` component (portfolio/src/components/SEOHead.tsx): default props, the
    `fullTitle` and `fullImage` rules, and the meta tags they feed. */
module SeoHead {
  import opened Base

  /** The props; a prop not passed is `None`. Default parameters replace only a missing
      prop, so an empty string passed stays empty. */
  datatype Props = Props(
    title: Option<string>, description: Option<string>, image: Option<string>,
    url: Option<string>, pageType: Option<string>, keywords: Option<seq<string>>)

  const DefaultTitle := "ExtMac — iOS Developer"
  const DefaultDescription := "SwiftUI • ARKit • Core Data • High-performance iOS apps"
  const DefaultImage := "/og-image.jpg"
  const DefaultUrl := "https://extmac.dev"
  const DefaultType := "website"
  const DefaultKeywords: seq<string> := ["iOS", "SwiftUI", "ARKit", "Core Data", "mobile development"]

  const Brand := "ExtMac"
  const TitleSuffix := " | ExtMac"
  const ImageHost := "https://extmac.dev"
  const AbsolutePrefix := "http"

  function Or<T>(o: Option<T>, d: T): T {
    if o.Some? then o.value else d
  }

  /** `fullTitle`. */
  function FullTitle(title: string): string {
    if Contains(title, Brand) then title else title + TitleSuffix
  }

  /** `fullImage`. */
  function FullImage(image: string): string {
    if StartsWith(image, AbsolutePrefix) then image else ImageHost + image
  }

  /** A title naming the brand is kept, any other gets ' | ExtMac'; the result always names
      the brand, so the rule is idempotent. */
  lemma FullTitleRule(title: string)
    ensures Contains(title, Brand) ==> FullTitle(title) == title
    ensures !Contains(title, Brand) ==> FullTitle(title) == title + TitleSuffix
    ensures Contains(FullTitle(title), Brand)
    ensures FullTitle(FullTitle(title)) == FullTitle(title)
  {
    assert OccursAt(TitleSuffix, Brand, 3);
    ContainsInParts(title, TitleSuffix, Brand);
  }

  /** An image starting with 'http' is kept, any other is placed under the site's host; the
      result always starts with 'http', so the rule is idempotent. */
  lemma FullImageRule(image: string)
    ensures StartsWith(image, AbsolutePrefix) ==> FullImage(image) == image
    ensures !StartsWith(image, AbsolutePrefix) ==> FullImage(image) == ImageHost + image
    ensures StartsWith(FullImage(image), AbsolutePrefix)
    ensures FullImage(FullImage(image)) == FullImage(image)
  {
    assert StartsWith(ImageHost, AbsolutePrefix);
    StartsWithExtended(ImageHost, image, AbsolutePrefix);
  }

  /** The tags the component writes whose content depends on the props. */
  datatype HeadTags = HeadTags(
    title: string, description: string, keywords: string,
    ogTitle: string, ogDescription: string, ogImage: string, ogUrl: string, ogType: string,
    twitterTitle: string, twitterDescription: string, twitterImage: string, canonical: string)

  function Head(p: Props): HeadTags {
    var title := Or(p.title, DefaultTitle);
    var description := Or(p.description, DefaultDescription);
    var image := Or(p.image, DefaultImage);
    var url := Or(p.url, DefaultUrl);
    var pageType := Or(p.pageType, DefaultType);
    var keywords := Or(p.keywords, DefaultKeywords);
    var fullTitle := FullTitle(title);
    var fullImage := FullImage(image);
    HeadTags(
      fullTitle, description, Join(keywords, ", "),
      fullTitle, description, fullImage, url, pageType,
      fullTitle, description, fullImage, url)
  }

  /** `<title>`, og:title and twitter:title are one value, the full title; og:image and
      twitter:image are the full image; og:url and the canonical link are the url; both
      descriptions are the description. */
  lemma TagsAgree(p: Props)
    ensures var h := Head(p);
            && h.ogTitle == h.title && h.twitterTitle == h.title
            && h.title == FullTitle(Or(p.title, DefaultTitle))
            && h.ogImage == h.twitterImage && h.ogImage == FullImage(Or(p.image, DefaultImage))
            && h.canonical == h.ogUrl && h.ogUrl == Or(p.url, DefaultUrl)
            && h.ogDescription == h.description && h.twitterDescription == h.description
            && h.keywords == Join(Or(p.keywords, DefaultKeywords), ", ")
  {
  }

  /** With no props at all, the default title already names the brand and is used as it
      is, and the canonical link is the default url. */
  lemma DefaultHeadTitle()
    ensures Head(Props(None, None, None, None, None, None)).title == DefaultTitle
    ensures Head(Props(None, None, None, None, None, None)).canonical == DefaultUrl
  {
    assert OccursAt(DefaultTitle, Brand, 0);
  }

  /** With no props at all, the default image is placed under the site's host. */
  lemma DefaultHeadImage()
    ensures Head(Props(None, None, None, None, None, None)).ogImage == "https://extmac.dev/og-image.jpg"
  {
    var p := Props(None, None, None, None, None, None);
    TagsAgree(p);
    assert DefaultImage[0] == '/' && AbsolutePrefix[0] == 'h';
    assert !StartsWith(DefaultImage, AbsolutePrefix);
    assert FullImage(DefaultImage) == ImageHost + DefaultImage;
    assert ImageHost + DefaultImage == "https://extmac.dev/og-image.jpg";
  }

  /** An empty title passed in is not replaced by the default: it becomes ' | ExtMac'. */
  lemma EmptyTitleNotDefaulted(p: Props)
    requires p.title == Some("")
    ensures Head(p).title == TitleSuffix
  {
    assert !Contains("", Brand);
  }
}
