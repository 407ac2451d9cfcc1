/**
 * The page URLs the site publishes. Every page lives under a locale
 * segment: `<site>/<locale>` for the home page and
 * `<site>/<locale>/<section>/<key>` for a guide (`guides`) or a platform
 * (`platforms`). The site origin is a parameter.
 */
module SiteUrls {
  import opened GuideTypes

  function HomeUrl(site: string, l: Locale): string
  {
    site + "/" + LocaleTag(l)
  }

  function SectionUrl(site: string, l: Locale, section: string, key: string): string
  {
    site + "/" + LocaleTag(l) + "/" + section + "/" + key
  }

  /** The URL of a guide page, `<site>/<locale>/guides/<slug>`. */
  function GuideUrl(site: string, l: Locale, slug: string): string
  {
    SectionUrl(site, l, "guides", slug)
  }

  /** The URL of a platform page, `<site>/<locale>/platforms/<id>`. */
  function PlatformUrl(site: string, l: Locale, id: string): string
  {
    SectionUrl(site, l, "platforms", id)
  }

  /** The locale whose URL segment is `tag`, if any. */
  function LocaleOfTag(tag: string): (r: Option<Locale>)
    ensures r.Some? ==> LocaleTag(r.value) == tag
  {
    if tag == "ko" then Some(Ko) else if tag == "en" then Some(En) else None
  }

  /**
   * Reads a guide URL of site `site` back into its locale and slug; `None`
   * for a string that is not one.
   */
  function ParseGuideUrl(site: string, url: string): (r: Option<(Locale, string)>)
    ensures r.Some? ==> GuideUrl(site, r.value.0, r.value.1) == url
  {
    var n := |site|;
    if |url| < n + 11 || url[..n] != site || url[n] != '/' || url[n + 3..n + 11] != "/guides/" then None
    else
      match LocaleOfTag(url[n + 1..n + 3])
      case None => None
      case Some(l) =>
        assert url == site + "/" + LocaleTag(l) + "/guides/" + url[n + 11..];
        Some((l, url[n + 11..]))
  }

  /** A guide URL determines the locale and slug it was made from. */
  lemma {:induction false} GuideUrlRoundTrip(site: string, l: Locale, slug: string)
    ensures ParseGuideUrl(site, GuideUrl(site, l, slug)) == Some((l, slug))
  {
    var url := GuideUrl(site, l, slug);
    var n := |site|;
    assert url[..n] == site;
    assert url[n] == '/';
    assert url[n + 1..n + 3] == LocaleTag(l);
    assert url[n + 3..n + 11] == "/guides/";
    assert url[n + 11..] == slug;
  }

  /** Two guide URLs of one site are equal only for the same locale and slug. */
  lemma GuideUrlInjective(site: string, l: Locale, slug: string, l': Locale, slug': string)
    ensures GuideUrl(site, l, slug) == GuideUrl(site, l', slug') <==> l == l' && slug == slug'
  {
    GuideUrlRoundTrip(site, l, slug);
    GuideUrlRoundTrip(site, l', slug');
  }
}
