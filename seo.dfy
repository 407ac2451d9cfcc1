/**
 * The search-engine records of a guide page: the schema.org `HowTo`
 * record embedded as JSON-LD, and the page metadata (title, description,
 * canonical and alternate-language URLs, Open Graph and Twitter cards).
 * The site origin is a parameter.
 */
module Seo {
  import opened GuideTypes
  import Decimal
  import opened SiteUrls

  datatype MonetaryAmount = MonetaryAmount(typ: string, currency: string, value: string)

  datatype HowToStep = HowToStep(typ: string, position: nat, name: string)

  /** The JSON-LD object; `context` and `typ` are its `@context` and `@type` keys. */
  datatype HowTo = HowTo(
    context: string,
    typ: string,
    name: string,
    description: string,
    estimatedCost: MonetaryAmount,
    totalTime: string,
    step: seq<HowToStep>)

  /** The ISO 8601 duration of a number of minutes, `PT<minutes>M`. */
  function Duration(minutes: nat): string
  {
    "PT" + Decimal.Format(minutes) + "M"
  }

  /** The label of the step at one-based `position`. */
  function StepName(position: nat): string
  {
    "Step " + Decimal.Format(position)
  }

  /** The number of minutes an ISO 8601 `PT<digits>M` duration stands for. */
  function DurationMinutes(s: string): Option<nat>
  {
    if |s| < 4 || s[..2] != "PT" || s[|s| - 1] != 'M' || !Decimal.AllDigits(s[2..|s| - 1]) then None
    else Some(Decimal.Value(s[2..|s| - 1]))
  }

  /** The `HowTo` record of a guide in one locale. */
  function GuideJsonLd(meta: GuideMeta, l: Locale): (r: HowTo)
    ensures r.name == meta.seo.For(l).title && r.description == meta.seo.For(l).description
    ensures r.estimatedCost.currency == "USD" && r.estimatedCost.value == "0"
    ensures |r.step| == meta.totalSteps
    ensures forall i :: 0 <= i < |r.step| ==> r.step[i].position == i + 1 && r.step[i].name == StepName(i + 1)
  {
    HowTo(
      "https://schema.org",
      "HowTo",
      meta.seo.For(l).title,
      meta.seo.For(l).description,
      MonetaryAmount("MonetaryAmount", "USD", "0"),
      Duration(meta.estimatedMinutes),
      seq(meta.totalSteps, i requires 0 <= i => HowToStep("HowToStep", i + 1, StepName(i + 1))))
  }

  /** Reading the record's `totalTime` back gives the guide's estimated minutes. */
  lemma {:induction false} TotalTimeRoundTrip(meta: GuideMeta, l: Locale)
    ensures DurationMinutes(GuideJsonLd(meta, l).totalTime) == Some(meta.estimatedMinutes)
  {
    var s := GuideJsonLd(meta, l).totalTime;
    var digits := Decimal.Format(meta.estimatedMinutes);
    assert s == "PT" + digits + "M";
    assert s[..2] == "PT";
    assert s[2..|s| - 1] == digits;
    Decimal.ValueOfFormat(meta.estimatedMinutes);
  }

  /** `totalTime` is written without leading zeros: a `0` after `PT` is the whole number zero. */
  lemma {:induction false} TotalTimeCanonical(meta: GuideMeta, l: Locale)
    ensures GuideJsonLd(meta, l).totalTime[2] == '0' ==> GuideJsonLd(meta, l).totalTime == "PT0M"
  {
    var digits := Decimal.Format(meta.estimatedMinutes);
    assert GuideJsonLd(meta, l).totalTime == "PT" + digits + "M";
    assert GuideJsonLd(meta, l).totalTime[2] == digits[0];
  }

  /** No two steps of a record share a name: the names tell the positions apart. */
  lemma {:induction false} StepNamesDistinct(meta: GuideMeta, l: Locale, i: nat, j: nat)
    requires i < j < meta.totalSteps
    ensures GuideJsonLd(meta, l).step[i].name != GuideJsonLd(meta, l).step[j].name
  {
    var a, b := StepName(i + 1), StepName(j + 1);
    if a == b {
      assert a[5..] == Decimal.Format(i + 1);
      assert b[5..] == Decimal.Format(j + 1);
      Decimal.FormatInjective(i + 1, j + 1);
    }
  }

  datatype Languages = Languages(ko: string, en: string)
  {
    function For(l: Locale): string
    {
      match l
      case Ko => ko
      case En => en
    }
  }

  datatype Alternates = Alternates(canonical: string, languages: Languages)

  datatype OpenGraph = OpenGraph(
    title: string,
    description: string,
    url: string,
    siteName: string,
    locale: Locale,
    typ: string)

  datatype TwitterCard = TwitterCard(card: string, title: string, description: string)

  datatype PageMetadata = PageMetadata(
    title: string,
    description: string,
    keywords: seq<string>,
    alternates: Alternates,
    openGraph: OpenGraph,
    twitter: TwitterCard)

  /** The metadata of the page of guide `slug` in locale `l`. */
  function GuideMetadata(site: string, meta: GuideMeta, l: Locale, slug: string): (r: PageMetadata)
    ensures r.title == r.openGraph.title == r.twitter.title == meta.seo.For(l).title
    ensures r.description == r.openGraph.description == r.twitter.description == meta.seo.For(l).description
    ensures r.keywords == meta.seo.For(l).keywords
    ensures r.alternates.canonical == r.openGraph.url == GuideUrl(site, l, slug)
    ensures forall l' :: r.alternates.languages.For(l') == GuideUrl(site, l', slug)
    ensures r.alternates.canonical == r.alternates.languages.For(l)
    ensures r.openGraph.locale == l
  {
    var seo := meta.seo.For(l);
    PageMetadata(
      seo.title,
      seo.description,
      seo.keywords,
      Alternates(GuideUrl(site, l, slug), Languages(GuideUrl(site, Ko, slug), GuideUrl(site, En, slug))),
      OpenGraph(seo.title, seo.description, GuideUrl(site, l, slug), "CloudSetup.guide", l, "article"),
      TwitterCard("summary_large_image", seo.title, seo.description))
  }

  /**
   * The canonical URL of a page names its own locale and slug, and the
   * two alternate-language URLs differ from each other.
   */
  lemma CanonicalIdentifiesPage(site: string, meta: GuideMeta, l: Locale, slug: string)
    ensures ParseGuideUrl(site, GuideMetadata(site, meta, l, slug).alternates.canonical) == Some((l, slug))
    ensures GuideMetadata(site, meta, l, slug).alternates.languages.ko
         != GuideMetadata(site, meta, l, slug).alternates.languages.en
  {
    GuideUrlRoundTrip(site, l, slug);
    GuideUrlInjective(site, Ko, slug, En, slug);
  }
}
