/**
 * The sitemap: the home page of each locale, then every guide in every
 * locale, then every platform page in every locale. The slugs are the
 * guide directory names as listed (published or not), the platform ids
 * come from the platform table, and the site origin is a parameter.
 * Priorities are in tenths (`priority: 0.8` is 8).
 */
module Sitemap {
  import opened GuideTypes
  import opened SiteUrls
  import Guides
  import Seqs

  datatype ChangeFrequency = Daily | Weekly

  datatype SitemapEntry = SitemapEntry(url: string, changeFrequency: ChangeFrequency, priorityTenths: nat)

  function HomeEntry(site: string, l: Locale): SitemapEntry
  {
    SitemapEntry(HomeUrl(site, l), Daily, 10)
  }

  function GuideEntry(site: string, l: Locale, slug: string): SitemapEntry
  {
    SitemapEntry(GuideUrl(site, l, slug), Weekly, 8)
  }

  function PlatformEntry(site: string, l: Locale, id: string): SitemapEntry
  {
    SitemapEntry(PlatformUrl(site, l, id), Weekly, 7)
  }

  /** `locales.map(...)` for the home pages. */
  function HomePages(site: string): seq<SitemapEntry>
  {
    seq(|Locales|, j requires 0 <= j < |Locales| => HomeEntry(site, Locales[j]))
  }

  /** `guideSlugs.flatMap(slug => locales.map(...))`. */
  function GuidePages(site: string, slugs: seq<string>): (r: seq<SitemapEntry>)
    ensures |r| == |Locales| * |slugs|
  {
    if slugs == [] then []
    else seq(|Locales|, j requires 0 <= j < |Locales| => GuideEntry(site, Locales[j], slugs[0]))
         + GuidePages(site, slugs[1..])
  }

  /** `platforms.flatMap(platform => locales.map(...))` over the platform ids. */
  function PlatformPages(site: string, ids: seq<string>): (r: seq<SitemapEntry>)
    ensures |r| == |Locales| * |ids|
  {
    if ids == [] then []
    else seq(|Locales|, j requires 0 <= j < |Locales| => PlatformEntry(site, Locales[j], ids[0]))
         + PlatformPages(site, ids[1..])
  }

  /** The whole sitemap, in the order the site returns it. */
  function Sitemap(site: string, slugs: seq<string>, ids: seq<string>): (r: seq<SitemapEntry>)
    ensures |r| == 2 + 2 * |slugs| + 2 * |ids|
    ensures r[..2] == [HomeEntry(site, Ko), HomeEntry(site, En)]
    ensures r[2..2 + 2 * |slugs|] == GuidePages(site, slugs)
    ensures r[2 + 2 * |slugs|..] == PlatformPages(site, ids)
  {
    HomePages(site) + GuidePages(site, slugs) + PlatformPages(site, ids)
  }

  /** Guide `i` has its `ko` entry at `2 * i` and its `en` entry right after. */
  lemma {:induction false} GuidePagesAt(site: string, slugs: seq<string>, i: nat)
    requires i < |slugs|
    ensures GuidePages(site, slugs)[2 * i] == GuideEntry(site, Ko, slugs[i])
    ensures GuidePages(site, slugs)[2 * i + 1] == GuideEntry(site, En, slugs[i])
  {
    if i > 0 {
      GuidePagesAt(site, slugs[1..], i - 1);
    }
  }

  /** Platform `k` has its `ko` entry at `2 * k` and its `en` entry right after. */
  lemma {:induction false} PlatformPagesAt(site: string, ids: seq<string>, k: nat)
    requires k < |ids|
    ensures PlatformPages(site, ids)[2 * k] == PlatformEntry(site, Ko, ids[k])
    ensures PlatformPages(site, ids)[2 * k + 1] == PlatformEntry(site, En, ids[k])
  {
    if k > 0 {
      PlatformPagesAt(site, ids[1..], k - 1);
    }
  }

  /** Where each guide and each platform page sits in the whole sitemap. */
  lemma SitemapAt(site: string, slugs: seq<string>, ids: seq<string>)
    ensures forall i :: 0 <= i < |slugs| ==>
      Sitemap(site, slugs, ids)[2 + 2 * i] == GuideEntry(site, Ko, slugs[i]) &&
      Sitemap(site, slugs, ids)[3 + 2 * i] == GuideEntry(site, En, slugs[i])
    ensures forall k :: 0 <= k < |ids| ==>
      Sitemap(site, slugs, ids)[2 + 2 * |slugs| + 2 * k] == PlatformEntry(site, Ko, ids[k]) &&
      Sitemap(site, slugs, ids)[3 + 2 * |slugs| + 2 * k] == PlatformEntry(site, En, ids[k])
  {
    var r := Sitemap(site, slugs, ids);
    forall i | 0 <= i < |slugs|
      ensures r[2 + 2 * i] == GuideEntry(site, Ko, slugs[i]) && r[3 + 2 * i] == GuideEntry(site, En, slugs[i])
    {
      GuidePagesAt(site, slugs, i);
      assert r[2 + 2 * i] == r[2..2 + 2 * |slugs|][2 * i];
      assert r[3 + 2 * i] == r[2..2 + 2 * |slugs|][2 * i + 1];
    }
    forall k | 0 <= k < |ids|
      ensures r[2 + 2 * |slugs| + 2 * k] == PlatformEntry(site, Ko, ids[k])
           && r[3 + 2 * |slugs| + 2 * k] == PlatformEntry(site, En, ids[k])
    {
      PlatformPagesAt(site, ids, k);
      assert r[2 + 2 * |slugs| + 2 * k] == r[2 + 2 * |slugs|..][2 * k];
      assert r[3 + 2 * |slugs| + 2 * k] == r[2 + 2 * |slugs|..][2 * k + 1];
    }
  }

  /**
   * Every guide directory gets a sitemap entry in both locales, also one
   * whose metadata is unpublished and which every read path hides.
   */
  lemma ListsUnpublishedGuides(site: string, c: Guides.Content, dev: bool, ids: seq<string>,
                               e: Guides.DirEntry, m: GuideMeta, l: Locale)
    requires c.root.Listed? && e in c.root.entries && e.isDirectory
    requires Guides.LoadMetaFile(c, e.name) == Seqs.Ok(m) && !m.published
    ensures Guides.ReadMeta(c, dev, e.name) == Seqs.Ok(None)
    ensures GuideEntry(site, l, e.name) in Sitemap(site, Guides.GuideSlugs(c.root), ids)
  {
    var slugs := Guides.GuideSlugs(c.root);
    assert e.name in slugs;
    var i :| 0 <= i < |slugs| && slugs[i] == e.name;
    SitemapAt(site, slugs, ids);
    var r := Sitemap(site, slugs, ids);
    if l == Ko {
      assert r[2 + 2 * i] == GuideEntry(site, l, e.name);
    } else {
      assert r[3 + 2 * i] == GuideEntry(site, l, e.name);
    }
  }
}
