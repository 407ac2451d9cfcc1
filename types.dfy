/**
 * The records a guide is made of: its metadata (one `meta.json` per guide
 * directory) and a guide as shown to a reader (metadata, body, locale).
 * Enumerations are the string unions of the TypeScript types; each has the
 * identifier it is written as in the content and in URLs.
 */
module GuideTypes {

  datatype Option<T> = None | Some(value: T)

  /** The two site locales, written `ko` and `en` in paths and URLs. */
  datatype Locale = Ko | En

  function LocaleTag(l: Locale): (tag: string)
    ensures |tag| == 2
  {
    match l
    case Ko => "ko"
    case En => "en"
  }

  /** The locales in the order the site lists them. */
  const Locales: seq<Locale> := [Ko, En]

  datatype Platform = Gcp | Aws | Azure | Supabase | Vercel | Cloudflare | Firebase

  function PlatformId(p: Platform): string
  {
    match p
    case Gcp => "gcp"
    case Aws => "aws"
    case Azure => "azure"
    case Supabase => "supabase"
    case Vercel => "vercel"
    case Cloudflare => "cloudflare"
    case Firebase => "firebase"
  }

  datatype Category = AiMl | Compute | Database | Storage | Auth | Maps | Cdn | Monitoring | General

  function CategoryId(c: Category): string
  {
    match c
    case AiMl => "ai-ml"
    case Compute => "compute"
    case Database => "database"
    case Storage => "storage"
    case Auth => "auth"
    case Maps => "maps"
    case Cdn => "cdn"
    case Monitoring => "monitoring"
    case General => "general"
  }

  /** Distinct platforms have distinct identifiers, so a string names at most one. */
  lemma PlatformIdInjective(p: Platform, q: Platform)
    ensures PlatformId(p) == PlatformId(q) <==> p == q
  {
  }

  /** Distinct categories have distinct identifiers. */
  lemma CategoryIdInjective(c: Category, d: Category)
    ensures CategoryId(c) == CategoryId(d) <==> c == d
  {
  }

  datatype Difficulty = Beginner | Intermediate | Advanced

  /** `'none'` in the content; renamed so as not to clash with `Option.None`. */
  datatype FreeTierStatus = Generous | Moderate | Limited | NoFreeTier

  datatype FreeTierPeriod = Month | Year | Forever | Trial

  datatype FreeTierInfo = FreeTierInfo(
    service: string,
    limit: string,
    period: FreeTierPeriod,
    amount: Option<string>,
    status: FreeTierStatus,
    conditions: Option<seq<string>>)

  /** The search-engine texts of one locale. */
  datatype GuideSeo = GuideSeo(title: string, description: string, keywords: seq<string>)

  /** One `GuideSeo` per locale, both required. */
  datatype SeoByLocale = SeoByLocale(ko: GuideSeo, en: GuideSeo)
  {
    function For(l: Locale): GuideSeo
    {
      match l
      case Ko => ko
      case En => en
    }
  }

  /**
   * The metadata record of one guide. The numbers are JSON numbers in the
   * content; the model takes them to be natural numbers.
   */
  datatype GuideMeta = GuideMeta(
    slug: string,
    platform: Platform,
    service: string,
    category: Category,
    difficulty: Difficulty,
    estimatedMinutes: nat,
    totalSteps: nat,
    freeTier: Option<FreeTierInfo>,
    prerequisites: Option<seq<string>>,
    nextGuides: Option<seq<string>>,
    seo: SeoByLocale,
    createdAt: string,
    updatedAt: string,
    lastVerified: string,
    published: bool)

  /** A guide as a page shows it: metadata, the body with its front matter removed, and the locale. */
  datatype Guide = Guide(meta: GuideMeta, content: string, locale: Locale)
}
