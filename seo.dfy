/** The page-metadata helpers (portfolio/src/utils/seo.ts): the default configuration,
    `generateMetaTags` with its `||` defaults, and the prepared configurations for project,
    contact and resume pages. */
module Seo {
  import opened Base

  datatype PageType = Website | Article

  /** An `SEOConfig`; an optional field left out is `None`. */
  datatype SeoConfig = SeoConfig(
    title: string, description: string, keywords: Option<seq<string>>,
    image: Option<string>, url: Option<string>, pageType: Option<PageType>)

  const DefaultTitle := "Your Name — iOS Developer"
  const DefaultDescription := "SwiftUI • ARKit • Core Data • High-performance iOS apps. Professional iOS developer with 5+ years of experience creating beautiful, user-friendly mobile applications."
  const DefaultKeywords: seq<string> :=
    ["iOS Developer", "SwiftUI", "ARKit", "Core Data", "Mobile Apps", "iPhone Apps", "iOS Development"]

  /** `defaultSEO`. */
  const DefaultSeo := SeoConfig(DefaultTitle, DefaultDescription, Some(DefaultKeywords), None, None, Some(Website))

  const TitleMark := "—"
  const TitleSuffix := " — iOS Developer"
  const DefaultUrl := "https://yourdomain.com"
  const DefaultImage := "/og-image.jpg"
  const KeywordSeparator := ", "

  /** `a || b` on strings: `''` counts as absent. */
  function OrElse(a: string, b: string): string {
    if a != "" then a else b
  }

  /** `a || b` on an optional string. */
  function OptOrElse(a: Option<string>, b: string): string {
    if a.Some? then OrElse(a.value, b) else b
  }

  /** The title rule: a title with a dash is kept, any other gets the suffix. */
  function PageTitle(title: string): string {
    if Contains(title, TitleMark) then title else title + TitleSuffix
  }

  /** A title with the dash is kept, any other gets ' — iOS Developer' appended; the result
      always carries the dash, so applying the rule twice is applying it once. */
  lemma TitleRule(title: string)
    ensures Contains(title, TitleMark) ==> PageTitle(title) == title
    ensures !Contains(title, TitleMark) ==> PageTitle(title) == title + TitleSuffix
    ensures Contains(PageTitle(title), TitleMark)
    ensures PageTitle(PageTitle(title)) == PageTitle(title)
  {
    assert OccursAt(TitleSuffix, TitleMark, 1);
    ContainsInParts(title, TitleSuffix, TitleMark);
  }

  /** `keywords?.join(', ') || defaultSEO.keywords?.join(', ') || ''`. */
  function KeywordLine(keywords: Option<seq<string>>): string {
    var supplied := if keywords.Some? then Join(keywords.value, KeywordSeparator) else "";
    OrElse(supplied, OrElse(Join(DefaultKeywords, KeywordSeparator), ""))
  }

  /** The supplied keywords are used, joined with ', ', unless they join to nothing (no
      list, an empty list, or a list of one empty keyword): then the default keywords are
      used. The line is never empty. */
  lemma KeywordFallback(keywords: Option<seq<string>>)
    ensures KeywordLine(keywords) != ""
    ensures keywords.Some? && keywords.value != [] && keywords.value != [""] ==>
              KeywordLine(keywords) == Join(keywords.value, KeywordSeparator)
    ensures keywords.None? || keywords.value == [] || keywords.value == [""] ==>
              KeywordLine(keywords) == Join(DefaultKeywords, KeywordSeparator)
  {
    JoinEmptyIff(DefaultKeywords, KeywordSeparator);
    if keywords.Some? {
      JoinEmptyIff(keywords.value, KeywordSeparator);
    }
  }

  datatype OgImage = OgImage(url: string, width: int, height: int, alt: string)

  datatype OpenGraph = OpenGraph(
    title: string, description: string, url: string, siteName: string,
    images: seq<OgImage>, locale: string, pageType: PageType)

  datatype TwitterCard = TwitterCard(card: string, title: string, description: string, images: seq<string>)

  datatype GoogleBot = GoogleBot(index: bool, follow: bool, maxVideoPreview: int,
                                 maxImagePreview: string, maxSnippet: int)

  datatype Robots = Robots(index: bool, follow: bool, googleBot: GoogleBot)

  datatype MetaTags = MetaTags(
    title: string, description: string, keywords: string,
    openGraph: OpenGraph, twitter: TwitterCard, robots: Robots)

  const SiteName := "Your Name — iOS Developer"
  const AllowIndexing := Robots(true, true, GoogleBot(true, true, -1, "large", -1))

  /** `generateMetaTags`. */
  function GenerateMetaTags(config: SeoConfig): MetaTags {
    var title := PageTitle(config.title);
    var description := OrElse(config.description, DefaultDescription);
    var url := OptOrElse(config.url, DefaultUrl);
    var image := OptOrElse(config.image, DefaultImage);
    var keywords := KeywordLine(config.keywords);
    MetaTags(
      title, description, keywords,
      OpenGraph(title, description, url, SiteName, [OgImage(image, 1200, 630, title)], "en_US",
                if config.pageType.Some? then config.pageType.value else Website),
      TwitterCard("summary_large_image", title, description, [image]),
      AllowIndexing)
  }

  /** Open Graph and the Twitter card repeat the page's title, description and image:
      one image each, the same one, whose alt text is the title. */
  lemma CardsAgree(config: SeoConfig)
    ensures var m := GenerateMetaTags(config);
            && m.openGraph.title == m.title && m.twitter.title == m.title
            && m.openGraph.description == m.description && m.twitter.description == m.description
            && |m.openGraph.images| == 1 && m.twitter.images == [m.openGraph.images[0].url]
            && m.openGraph.images[0].alt == m.title
  {
  }

  /** Every generated field is filled: the title carries the dash, and description, url,
      image and keywords are never empty. A non-empty value supplied is used as it is. */
  lemma NothingLeftBlank(config: SeoConfig)
    ensures var m := GenerateMetaTags(config);
            && Contains(m.title, TitleMark)
            && m.description != "" && m.openGraph.url != "" && m.twitter.images[0] != ""
            && m.keywords != ""
            && (config.description != "" ==> m.description == config.description)
            && (config.url.Some? && config.url.value != "" ==> m.openGraph.url == config.url.value)
            && (config.image.Some? && config.image.value != "" ==> m.twitter.images[0] == config.image.value)
  {
    TitleRule(config.title);
    KeywordFallback(config.keywords);
  }

  /** An empty string counts as absent: an empty description, url or image gives the same
      tags as the default one, and an absent url or image the same as an empty one. */
  lemma EmptyMeansDefault(config: SeoConfig)
    ensures GenerateMetaTags(config.(description := "")) == GenerateMetaTags(config.(description := DefaultDescription))
    ensures GenerateMetaTags(config.(url := Some(""))) == GenerateMetaTags(config.(url := None))
    ensures GenerateMetaTags(config.(url := None)) == GenerateMetaTags(config.(url := Some(DefaultUrl)))
    ensures GenerateMetaTags(config.(image := Some(""))) == GenerateMetaTags(config.(image := None))
    ensures GenerateMetaTags(config.(image := None)) == GenerateMetaTags(config.(image := Some(DefaultImage)))
  {
  }

  /** The Open Graph type is the configured one, a website when none is given. */
  lemma TypeDefaultsToWebsite(config: SeoConfig)
    ensures GenerateMetaTags(config).openGraph.pageType == Website <==>
              config.pageType.None? || config.pageType.value == Website
  {
  }

  /** The default configuration's own tags keep its title as it is. */
  lemma DefaultSeoTags()
    ensures GenerateMetaTags(DefaultSeo).title == DefaultTitle
    ensures GenerateMetaTags(DefaultSeo).openGraph.url == DefaultUrl
    ensures GenerateMetaTags(DefaultSeo).openGraph.pageType == Website
  {
    assert OccursAt(DefaultTitle, TitleMark, 10);
  }

  /** `projectSEO`. */
  function ProjectSeo(title: string, description: string, tech: seq<string>): SeoConfig {
    SeoConfig(
      title + " — iOS App",
      description + " Built with " + Join(tech, KeywordSeparator)
        + ". View screenshots, demo video, and download from App Store.",
      Some(DefaultKeywords + tech + [title]), None, None, Some(Article))
  }

  /** A project page's title is the project title with ' — iOS App', which the title rule
      leaves alone; its keywords are the defaults, then the technologies, then the title,
      all used; and it is an article. */
  lemma ProjectTags(title: string, description: string, tech: seq<string>)
    ensures var m := GenerateMetaTags(ProjectSeo(title, description, tech));
            && m.title == title + " — iOS App"
            && m.keywords == Join(DefaultKeywords + tech + [title], KeywordSeparator)
            && m.openGraph.pageType == Article
  {
    var t := title + " — iOS App";
    assert OccursAt(" — iOS App", TitleMark, 1);
    ContainsInParts(title, " — iOS App", TitleMark);
    var ks := DefaultKeywords + tech + [title];
    assert ks[0] == DefaultKeywords[0] && ks[1] == DefaultKeywords[1];
    KeywordFallback(Some(ks));
  }

  /** `contactSEO`. */
  const ContactSeo := SeoConfig(
    "Contact — Get In Touch",
    "Have a project in mind or want to collaborate? I'd love to hear from you. Contact me for iOS development opportunities.",
    Some(DefaultKeywords + ["Contact", "Hire iOS Developer", "Collaboration"]), None, None, None)

  /** `resumeSEO`. */
  const ResumeSeo := SeoConfig(
    "Resume — Professional Experience",
    "Download my resume or view my professional experience as an iOS developer. 5+ years of SwiftUI, ARKit, and Core Data expertise.",
    Some(DefaultKeywords + ["Resume", "CV", "Experience", "Skills"]), None, None, None)

  /** The contact page keeps its title, extends the default keywords, and defaults to the
      website type. */
  lemma ContactTags()
    ensures GenerateMetaTags(ContactSeo).title == ContactSeo.title
    ensures GenerateMetaTags(ContactSeo).keywords == Join(ContactSeo.keywords.value, KeywordSeparator)
    ensures GenerateMetaTags(ContactSeo).openGraph.pageType == Website
  {
    var ct := ContactSeo.title;
    assert ct[8] == '—';
    assert ct[8..9] == TitleMark;
    assert OccursAt(ct, TitleMark, 8);
    var ck := ContactSeo.keywords.value;
    assert ck[0] == DefaultKeywords[0];
    KeywordFallback(Some(ck));
  }

  /** The resume page keeps its title, extends the default keywords, and defaults to the
      website type. */
  lemma ResumeTags()
    ensures GenerateMetaTags(ResumeSeo).title == ResumeSeo.title
    ensures GenerateMetaTags(ResumeSeo).keywords == Join(ResumeSeo.keywords.value, KeywordSeparator)
    ensures GenerateMetaTags(ResumeSeo).openGraph.pageType == Website
  {
    var rt := ResumeSeo.title;
    assert rt[7] == '—';
    assert rt[7..8] == TitleMark;
    assert OccursAt(rt, TitleMark, 7);
    var rk := ResumeSeo.keywords.value;
    assert rk[0] == DefaultKeywords[0];
    KeywordFallback(Some(rk));
  }
}
