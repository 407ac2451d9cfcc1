/**
 * The guide content layer: listing the guide directories, loading a
 * guide's metadata (`meta.json`) and its per-locale body (`<locale>.mdx`),
 * and the two process-wide memo tables in front of those loads.
 *
 * The content tree is a value (`Content`): the listing of the content
 * root, the files by path, and the two parsers whose internals are not
 * modelled (JSON parsing of the metadata, front-matter stripping of the
 * body). Both parsers may fail. A thrown error is an `Outcome.Threw`
 * carrying its kind; only "no such file" (`NoEntry`) is told apart by the
 * code that catches it.
 *
 * The pure functions (`ReadMeta`, `ReadGuide`, `PublishedMetas`, ...) say
 * what a lookup returns when nothing is cached; `GuideStore` holds the
 * caches and its methods are proved to return exactly those results,
 * whatever the caches hold, because every cached entry agrees with them.
 */
module Guides {
  import opened GuideTypes
  import opened Seqs

  datatype DirEntry = DirEntry(name: string, isDirectory: bool)

  /** Reading the content root: its entries in listing order, or a failure. */
  datatype Listing = Listed(entries: seq<DirEntry>) | ListFailed

  /** What reading a file as text gives: no such file, its text, or another I/O error. */
  datatype FileRead = Missing | Text(text: string) | Unreadable

  datatype Parsed<T> = Parsed(value: T) | Malformed

  /** The kind of a thrown error: no such file, another I/O error, or a parse error. */
  datatype Fault = NoEntry | IoFault | ParseFault

  /** `<root>/<slug>/meta.json` and `<root>/<slug>/<locale>.mdx`. */
  datatype Path = MetaPath(slug: string) | BodyPath(slug: string, locale: Locale)

  datatype Content = Content(
    root: Listing,
    files: map<Path, FileRead>,
    parseMeta: string -> Parsed<GuideMeta>,
    frontMatter: string -> Parsed<string>)

  type MetaOutcome = Outcome<Option<GuideMeta>, Fault>
  type GuideOutcome = Outcome<Option<Guide>, Fault>

  /** A path the tree has no entry for does not exist. */
  function ReadFile(c: Content, p: Path): FileRead
  {
    if p in c.files then c.files[p] else Missing
  }

  // ---------------------------------------------------------------- slugs

  /**
   * The guide slugs: the names of the directories in the content root, in
   * listing order; none when the root cannot be listed.
   */
  function GuideSlugs(root: Listing): (r: seq<string>)
    ensures root.ListFailed? ==> r == []
    ensures root.Listed? ==> |r| <= |root.entries|
    ensures root.Listed? ==>
      forall x :: x in r <==> exists e :: e in root.entries && e.isDirectory && e.name == x
  {
    match root
    case ListFailed => []
    case Listed(entries) =>
      var dirs := Filter(entries, IsDirectory);
      var names := Names(dirs);
      assert forall x :: x in names <==> exists e :: e in dirs && e.name == x by {
        forall x | x in names ensures exists e :: e in dirs && e.name == x {
          var i :| 0 <= i < |names| && names[i] == x;
          assert dirs[i] in dirs;
        }
        forall x | exists e :: e in dirs && e.name == x ensures x in names {
          var e :| e in dirs && e.name == x;
          var i :| 0 <= i < |dirs| && dirs[i] == e;
          assert names[i] == x;
        }
      }
      names
  }

  /** `entry.isDirectory()`. */
  function IsDirectory(e: DirEntry): bool
  {
    e.isDirectory
  }

  /** `entries.map(e => e.name)`. */
  function Names(dirs: seq<DirEntry>): seq<string>
  {
    seq(|dirs|, i requires 0 <= i < |dirs| => dirs[i].name)
  }

  /** Taking names distributes over concatenation. */
  lemma NamesAppend(a: seq<DirEntry>, b: seq<DirEntry>)
    ensures Names(a + b) == Names(a) + Names(b)
  {
  }

  /** The slugs of a listing are the names of its directories. */
  lemma GuideSlugsOfListing(entries: seq<DirEntry>)
    ensures GuideSlugs(Listed(entries)) == Names(Filter(entries, IsDirectory))
  {
  }

  /** Listing is order-preserving: the slugs of a split listing are those of its parts, in order. */
  lemma GuideSlugsAppend(a: seq<DirEntry>, b: seq<DirEntry>)
    ensures GuideSlugs(Listed(a + b)) == GuideSlugs(Listed(a)) + GuideSlugs(Listed(b))
  {
    GuideSlugsOfListing(a + b);
    GuideSlugsOfListing(a);
    GuideSlugsOfListing(b);
    FilterAppend(a, b, IsDirectory);
    NamesAppend(Filter(a, IsDirectory), Filter(b, IsDirectory));
  }

  // ------------------------------------------------------------- metadata

  /** Reading and parsing `meta.json`: the parsed record, or the error that was thrown. */
  function LoadMetaFile(c: Content, slug: string): (r: Outcome<GuideMeta, Fault>)
    ensures r.Ok? <==> ReadFile(c, MetaPath(slug)).Text? && c.parseMeta(ReadFile(c, MetaPath(slug)).text).Parsed?
    ensures r == Threw(NoEntry) <==> ReadFile(c, MetaPath(slug)) == Missing
    ensures r.Ok? ==> c.parseMeta(ReadFile(c, MetaPath(slug)).text) == Parsed(r.value)
    ensures r == Threw(IoFault) <==> ReadFile(c, MetaPath(slug)) == Unreadable
  {
    match ReadFile(c, MetaPath(slug))
    case Missing => Threw(NoEntry)
    case Unreadable => Threw(IoFault)
    case Text(s) =>
      match c.parseMeta(s)
      case Malformed => Threw(ParseFault)
      case Parsed(meta) => Ok(meta)
  }

  /**
   * The handler both loaders share for a caught error: a missing file is
   * "not found"; any other error is re-thrown in development and turned
   * into "not found" otherwise.
   */
  function Recover<T>(dev: bool, f: Fault): (r: Outcome<Option<T>, Fault>)
    ensures r.Threw? <==> dev && f != NoEntry
    ensures r.Threw? ==> r.fault == f
    ensures r.Ok? ==> r.value == None
  {
    if f == NoEntry then Ok(None) else if dev then Threw(f) else Ok(None)
  }

  /**
   * What looking up a guide's metadata returns when nothing is cached:
   * the record when it loads and is published, `None` when the file is
   * missing or the guide is unpublished, and for any other error a throw
   * in development and `None` otherwise.
   */
  function ReadMeta(c: Content, dev: bool, slug: string): (r: MetaOutcome)
    ensures r.Ok? && r.value.Some? <==> LoadMetaFile(c, slug).Ok? && LoadMetaFile(c, slug).value.published
    ensures r.Ok? && r.value.Some? ==> r.value.value == LoadMetaFile(c, slug).value
    ensures r.Threw? <==> dev && LoadMetaFile(c, slug).Threw? && LoadMetaFile(c, slug).fault != NoEntry
    ensures r.Threw? ==> r.fault == LoadMetaFile(c, slug).fault
  {
    match LoadMetaFile(c, slug)
    case Threw(f) => Recover(dev, f)
    case Ok(meta) => if !meta.published then Ok(None) else Ok(Some(meta))
  }

  /**
   * Whether an uncached metadata lookup writes the cache: always for an
   * unpublished guide, outside development for a loaded guide or a
   * missing file, and never after any other error.
   */
  predicate RecordsMeta(c: Content, dev: bool, slug: string)
    ensures RecordsMeta(c, dev, slug) ==> ReadMeta(c, dev, slug).Ok?
  {
    match LoadMetaFile(c, slug)
    case Threw(f) => f == NoEntry && !dev
    case Ok(meta) => !meta.published || !dev
  }

  // ----------------------------------------------------------------- body

  /** Reading `<locale>.mdx` and removing its front matter. */
  function LoadBody(c: Content, slug: string, l: Locale): (r: Outcome<string, Fault>)
    ensures r.Ok? <==> ReadFile(c, BodyPath(slug, l)).Text? && c.frontMatter(ReadFile(c, BodyPath(slug, l)).text).Parsed?
    ensures r == Threw(NoEntry) <==> ReadFile(c, BodyPath(slug, l)) == Missing
    ensures r == Threw(IoFault) <==> ReadFile(c, BodyPath(slug, l)) == Unreadable
    ensures r.Ok? ==>
      ReadFile(c, BodyPath(slug, l)).Text? && c.frontMatter(ReadFile(c, BodyPath(slug, l)).text) == Parsed(r.value)
  {
    match ReadFile(c, BodyPath(slug, l))
    case Missing => Threw(NoEntry)
    case Unreadable => Threw(IoFault)
    case Text(s) =>
      match c.frontMatter(s)
      case Malformed => Threw(ParseFault)
      case Parsed(body) => Ok(body)
  }

  /**
   * What looking up a guide in a locale returns when nothing is cached.
   * The metadata lookup runs inside the same error handler as the body
   * read, so an error it throws is handled once more.
   */
  function ReadGuide(c: Content, dev: bool, slug: string, l: Locale): (r: GuideOutcome)
    ensures r.Ok? && r.value.Some? ==>
      && ReadMeta(c, dev, slug) == Ok(Some(r.value.value.meta))
      && r.value.value.meta.published
      && r.value.value.locale == l
      && LoadBody(c, slug, l) == Ok(r.value.value.content)
    ensures ReadMeta(c, dev, slug).Ok? && ReadMeta(c, dev, slug).value.Some? && LoadBody(c, slug, l).Ok? ==>
      r == Ok(Some(Guide(ReadMeta(c, dev, slug).value.value, LoadBody(c, slug, l).value, l)))
    ensures ReadMeta(c, dev, slug) == Ok(None) ==> r == Ok(None)
    ensures ReadMeta(c, dev, slug).Ok? && ReadFile(c, BodyPath(slug, l)) == Missing ==> r == Ok(None)
    ensures r.Threw? ==> dev && r.fault != NoEntry
    ensures r.Threw? <==>
      dev && (ReadMeta(c, dev, slug).Threw? ||
              (ReadMeta(c, dev, slug).Ok? && ReadMeta(c, dev, slug).value.Some? &&
               LoadBody(c, slug, l).Threw? && LoadBody(c, slug, l).fault != NoEntry))
    ensures r.Threw? ==>
      r.fault == (if ReadMeta(c, dev, slug).Threw? then ReadMeta(c, dev, slug).fault else LoadBody(c, slug, l).fault)
  {
    match ReadMeta(c, dev, slug)
    case Threw(f) => Recover(dev, f)
    case Ok(None) => Ok(None)
    case Ok(Some(meta)) =>
      match LoadBody(c, slug, l)
      case Threw(f) => Recover(dev, f)
      case Ok(body) => Ok(Some(Guide(meta, body, l)))
  }

  /**
   * Whether an uncached guide lookup writes the guide cache: never in
   * development; otherwise when the metadata lookup gave `None`, the body
   * file is missing, or the guide loaded, but not after any other error.
   */
  predicate RecordsGuide(c: Content, dev: bool, slug: string, l: Locale)
    ensures RecordsGuide(c, dev, slug, l) ==> !dev && ReadGuide(c, dev, slug, l).Ok?
  {
    && !dev
    && match ReadMeta(c, dev, slug)
       case Threw(f) => f == NoEntry
       case Ok(None) => true
       case Ok(Some(_)) => LoadBody(c, slug, l).Ok? || LoadBody(c, slug, l).fault == NoEntry
  }

  /**
   * Outside development a guide lookup is cached exactly when the metadata
   * was "not found" (negative caching), or it was found and the body either
   * loaded or is missing (negative caching again); after any other body
   * error nothing is cached.
   */
  lemma GuideCachedAfterLookup(c: Content, dev: bool, slug: string, l: Locale)
    ensures RecordsGuide(c, dev, slug, l) <==>
      !dev && (ReadMeta(c, dev, slug) == Ok(None) ||
               (ReadMeta(c, dev, slug).Ok? && ReadMeta(c, dev, slug).value.Some? &&
                (LoadBody(c, slug, l).Ok? || LoadBody(c, slug, l) == Threw(NoEntry))))
  {
  }

  /** The guide cache key, `<slug>-<locale>`. */
  function CacheKey(slug: string, l: Locale): string
  {
    slug + "-" + LocaleTag(l)
  }

  /** No two (slug, locale) pairs share a guide cache key. */
  lemma {:induction false} CacheKeyInjective(s: string, l: Locale, s': string, l': Locale)
    ensures CacheKey(s, l) == CacheKey(s', l') <==> s == s' && l == l'
  {
    if CacheKey(s, l) == CacheKey(s', l') {
      var k := CacheKey(s, l);
      assert |s| == |s'| == |k| - 3;
      assert s == k[..|s|] == s';
      assert LocaleTag(l) == k[|k| - 2..] == LocaleTag(l');
    }
  }

  /**
   * A found guide carries the `meta.json` record as parsed: its `slug`
   * field is not compared with the directory name it was found under.
   */
  lemma GuideCarriesParsedMeta(c: Content, dev: bool, slug: string, l: Locale, m: GuideMeta, body: string)
    requires LoadMetaFile(c, slug) == Ok(m) && m.published
    requires LoadBody(c, slug, l) == Ok(body)
    ensures ReadGuide(c, dev, slug, l) == Ok(Some(Guide(m, body, l)))
  {
  }

  /**
   * The mode changes only what happens to unexpected errors: where the
   * development lookup returns, the production lookup returns the same,
   * and where it throws, the production lookup returns `None`.
   */
  lemma ModeAffectsOnlyErrors(c: Content, slug: string, l: Locale)
    ensures ReadMeta(c, true, slug).Ok? ==> ReadMeta(c, false, slug) == ReadMeta(c, true, slug)
    ensures ReadMeta(c, true, slug).Threw? ==> ReadMeta(c, false, slug) == Ok(None)
    ensures ReadGuide(c, true, slug, l).Ok? ==> ReadGuide(c, false, slug, l) == ReadGuide(c, true, slug, l)
    ensures ReadGuide(c, true, slug, l).Threw? ==> ReadGuide(c, false, slug, l) == Ok(None)
  {
  }

  /**
   * A guide that exists in one locale only: a published guide whose body
   * file is present for `ko` and missing for `en` is found in `ko` and is
   * "not found" in `en`, in either mode.
   */
  lemma OneLocaleOnly(c: Content, dev: bool, slug: string, text: string, m: GuideMeta, body: string)
    requires LoadMetaFile(c, slug) == Ok(m) && m.published
    requires ReadFile(c, BodyPath(slug, Ko)) == Text(text) && c.frontMatter(text) == Parsed(body)
    requires ReadFile(c, BodyPath(slug, En)) == Missing
    ensures ReadGuide(c, dev, slug, Ko) == Ok(Some(Guide(m, body, Ko)))
    ensures ReadGuide(c, dev, slug, En) == Ok(None)
  {
  }

  // --------------------------------------------------------------- listings

  /** `slugs.map(getGuideMeta)`: one metadata lookup per slug, in slug order. */
  function MetaOutcomes(c: Content, dev: bool, slugs: seq<string>): (r: seq<MetaOutcome>)
    ensures |r| == |slugs| && forall i :: 0 <= i < |slugs| ==> r[i] == ReadMeta(c, dev, slugs[i])
  {
    seq(|slugs|, i requires 0 <= i < |slugs| => ReadMeta(c, dev, slugs[i]))
  }

  /**
   * All published metadata of the given slugs, in slug order: the lookups
   * joined, then the `None`s dropped. It throws only in development, when
   * a lookup throws.
   */
  function PublishedMetas(c: Content, dev: bool, slugs: seq<string>): (r: Outcome<seq<GuideMeta>, Fault>)
    ensures r.Threw? <==> exists i :: 0 <= i < |slugs| && ReadMeta(c, dev, slugs[i]).Threw?
    ensures r.Threw? ==> dev
    ensures r.Threw? ==> exists i :: 0 <= i < |slugs| && ReadMeta(c, dev, slugs[i]) == Threw(r.fault)
    ensures r.Ok? ==> |r.value| <= |slugs|
    ensures r.Ok? ==> forall m :: m in r.value <==>
      exists i :: 0 <= i < |slugs| && ReadMeta(c, dev, slugs[i]) == Ok(Some(m))
    ensures r.Ok? ==> forall m :: m in r.value ==> m.published
  {
    var os := MetaOutcomes(c, dev, slugs);
    match PromiseAll(os)
    case Threw(f) =>
      var i :| 0 <= i < |os| && os[i].Threw?;
      Threw(f)
    case Ok(vs) =>
      assert forall m :: Some(m) in vs <==> exists i :: 0 <= i < |slugs| && os[i] == Ok(Some(m)) by {
        forall m | Some(m) in vs ensures exists i :: 0 <= i < |slugs| && os[i] == Ok(Some(m)) {
          var i :| 0 <= i < |vs| && vs[i] == Some(m);
          assert os[i] == Ok(vs[i]);
        }
      }
      Ok(NonNull(vs))
  }

  /** The per-slug lookups of a split slug list are those of its parts. */
  lemma MetaOutcomesAppend(c: Content, dev: bool, a: seq<string>, b: seq<string>)
    ensures MetaOutcomes(c, dev, a + b) == MetaOutcomes(c, dev, a) + MetaOutcomes(c, dev, b)
  {
    assert forall i :: 0 <= i < |a + b| ==> (a + b)[i] == if i < |a| then a[i] else b[i - |a|];
  }

  /** The listing is the joined lookups with the `None`s dropped. */
  lemma PublishedMetasOf(c: Content, dev: bool, slugs: seq<string>)
    ensures PublishedMetas(c, dev, slugs).Ok? <==> PromiseAll(MetaOutcomes(c, dev, slugs)).Ok?
    ensures PublishedMetas(c, dev, slugs).Ok? ==>
      PublishedMetas(c, dev, slugs).value == NonNull(PromiseAll(MetaOutcomes(c, dev, slugs)).value)
  {
  }

  /** The published metadata of a split slug list is that of its parts, in order. */
  lemma PublishedMetasAppend(c: Content, dev: bool, a: seq<string>, b: seq<string>)
    requires PublishedMetas(c, dev, a + b).Ok?
    ensures PublishedMetas(c, dev, a).Ok? && PublishedMetas(c, dev, b).Ok?
    ensures PublishedMetas(c, dev, a + b).value == PublishedMetas(c, dev, a).value + PublishedMetas(c, dev, b).value
  {
    var oa, ob := MetaOutcomes(c, dev, a), MetaOutcomes(c, dev, b);
    MetaOutcomesAppend(c, dev, a, b);
    PublishedMetasOf(c, dev, a + b);
    PublishedMetasOf(c, dev, a);
    PublishedMetasOf(c, dev, b);
    PromiseAllAppend(oa, ob);
    NonNullAppend(PromiseAll(oa).value, PromiseAll(ob).value);
  }

  /** `guides.filter(guide => guide.platform === p)`. */
  function OnPlatform(ms: seq<GuideMeta>, p: string): seq<GuideMeta>
  {
    Filter(ms, (m: GuideMeta) => PlatformId(m.platform) == p)
  }

  /** `guides.filter(guide => guide.category === k)`. */
  function InCategory(ms: seq<GuideMeta>, k: string): seq<GuideMeta>
  {
    Filter(ms, (m: GuideMeta) => CategoryId(m.category) == k)
  }

  /**
   * The published guides of the given slugs whose platform is written `p`,
   * in slug order.
   */
  function GuidesByPlatform(c: Content, dev: bool, slugs: seq<string>, p: string): (r: Outcome<seq<GuideMeta>, Fault>)
    ensures r.Threw? <==> PublishedMetas(c, dev, slugs).Threw?
    ensures r.Threw? ==> r.fault == PublishedMetas(c, dev, slugs).fault
    ensures r.Ok? ==> |r.value| <= |slugs|
    ensures r.Ok? ==> forall m :: m in r.value <==>
      (exists i :: 0 <= i < |slugs| && ReadMeta(c, dev, slugs[i]) == Ok(Some(m))) && PlatformId(m.platform) == p
  {
    match PublishedMetas(c, dev, slugs)
    case Threw(f) => Threw(f)
    case Ok(ms) => Ok(OnPlatform(ms, p))
  }

  /**
   * The published guides of the given slugs whose category is written `k`,
   * in slug order.
   */
  function GuidesByCategory(c: Content, dev: bool, slugs: seq<string>, k: string): (r: Outcome<seq<GuideMeta>, Fault>)
    ensures r.Threw? <==> PublishedMetas(c, dev, slugs).Threw?
    ensures r.Threw? ==> r.fault == PublishedMetas(c, dev, slugs).fault
    ensures r.Ok? ==> |r.value| <= |slugs|
    ensures r.Ok? ==> forall m :: m in r.value <==>
      (exists i :: 0 <= i < |slugs| && ReadMeta(c, dev, slugs[i]) == Ok(Some(m))) && CategoryId(m.category) == k
  {
    match PublishedMetas(c, dev, slugs)
    case Threw(f) => Threw(f)
    case Ok(ms) => Ok(InCategory(ms, k))
  }

  /** The platform view of a split slug list is that of its parts, in order. */
  lemma GuidesByPlatformAppend(c: Content, dev: bool, a: seq<string>, b: seq<string>, p: string)
    requires GuidesByPlatform(c, dev, a + b, p).Ok?
    ensures GuidesByPlatform(c, dev, a, p).Ok? && GuidesByPlatform(c, dev, b, p).Ok?
    ensures GuidesByPlatform(c, dev, a + b, p).value
         == GuidesByPlatform(c, dev, a, p).value + GuidesByPlatform(c, dev, b, p).value
  {
    PublishedMetasAppend(c, dev, a, b);
    FilterAppend(PublishedMetas(c, dev, a).value, PublishedMetas(c, dev, b).value,
                 (m: GuideMeta) => PlatformId(m.platform) == p);
  }

  /** The category view of a split slug list is that of its parts, in order. */
  lemma GuidesByCategoryAppend(c: Content, dev: bool, a: seq<string>, b: seq<string>, k: string)
    requires GuidesByCategory(c, dev, a + b, k).Ok?
    ensures GuidesByCategory(c, dev, a, k).Ok? && GuidesByCategory(c, dev, b, k).Ok?
    ensures GuidesByCategory(c, dev, a + b, k).value
         == GuidesByCategory(c, dev, a, k).value + GuidesByCategory(c, dev, b, k).value
  {
    PublishedMetasAppend(c, dev, a, b);
    FilterAppend(PublishedMetas(c, dev, a).value, PublishedMetas(c, dev, b).value,
                 (m: GuideMeta) => CategoryId(m.category) == k);
  }

  /**
   * The platform views partition the published guides: each guide is in
   * the view of its own platform and in no other one.
   */
  lemma PlatformViewsPartition(ms: seq<GuideMeta>, m: GuideMeta, p: Platform)
    requires m in ms
    ensures m in OnPlatform(ms, PlatformId(m.platform))
    ensures m in OnPlatform(ms, PlatformId(p)) <==> p == m.platform
  {
    PlatformIdInjective(p, m.platform);
  }

  /** Likewise for the category views. */
  lemma CategoryViewsPartition(ms: seq<GuideMeta>, m: GuideMeta, k: Category)
    requires m in ms
    ensures m in InCategory(ms, CategoryId(m.category))
    ensures m in InCategory(ms, CategoryId(k)) <==> k == m.category
  {
    CategoryIdInjective(k, m.category);
  }

  // ------------------------------------------------------------- the caches

  type MetaCache = map<string, Option<GuideMeta>>
  type GuideCache = map<string, Option<Guide>>

  /** Every cached metadata entry is what an uncached lookup returns. */
  ghost predicate MetaCacheSound(c: Content, dev: bool, cache: MetaCache)
  {
    forall s {:trigger cache[s]} :: s in cache ==> ReadMeta(c, dev, s) == Ok(cache[s])
  }

  /** Every cached guide entry is what an uncached lookup of its slug and locale returns. */
  ghost predicate GuideCacheSound(c: Content, dev: bool, cache: GuideCache)
  {
    forall s, l {:trigger cache[CacheKey(s, l)]} :: CacheKey(s, l) in cache ==> ReadGuide(c, dev, s, l) == Ok(cache[CacheKey(s, l)])
  }

  /** Recording an uncached lookup's result keeps the guide cache sound. */
  lemma GuideCacheStaysSound(c: Content, dev: bool, cache: GuideCache, slug: string, l: Locale, v: Option<Guide>)
    requires GuideCacheSound(c, dev, cache)
    requires ReadGuide(c, dev, slug, l) == Ok(v)
    ensures GuideCacheSound(c, dev, cache[CacheKey(slug, l) := v])
  {
    var cache' := cache[CacheKey(slug, l) := v];
    forall s, l' | CacheKey(s, l') in cache'
      ensures ReadGuide(c, dev, s, l') == Ok(cache'[CacheKey(s, l')])
    {
      CacheKeyInjective(s, l', slug, l);
    }
  }

  /** The metadata cache is consulted only outside development. */
  predicate MetaCacheHit(dev: bool, cache: MetaCache, slug: string)
  {
    !dev && slug in cache
  }

  /** The metadata cache after one lookup of `slug`. */
  function MetaCacheAfter(c: Content, dev: bool, cache: MetaCache, slug: string): MetaCache
  {
    if MetaCacheHit(dev, cache, slug) || !RecordsMeta(c, dev, slug) then cache
    else cache[slug := ReadMeta(c, dev, slug).value]
  }

  /** The files one metadata lookup reads: none on a cache hit, else `meta.json`. */
  function MetaReads(dev: bool, cache: MetaCache, slug: string): seq<Path>
  {
    if MetaCacheHit(dev, cache, slug) then [] else [MetaPath(slug)]
  }

  /** The metadata cache after looking up each slug in turn. */
  function MetaCacheAfterAll(c: Content, dev: bool, cache: MetaCache, slugs: seq<string>): MetaCache
  {
    if slugs == [] then cache
    else MetaCacheAfter(c, dev, MetaCacheAfterAll(c, dev, cache, slugs[..|slugs| - 1]), slugs[|slugs| - 1])
  }

  /** The files read by looking up each slug in turn. */
  function MetaReadsAll(c: Content, dev: bool, cache: MetaCache, slugs: seq<string>): seq<Path>
  {
    if slugs == [] then []
    else
      var init := slugs[..|slugs| - 1];
      MetaReadsAll(c, dev, cache, init) + MetaReads(dev, MetaCacheAfterAll(c, dev, cache, init), slugs[|slugs| - 1])
  }

  /** The file log grows by appending; grouping does not matter. */
  lemma AppendAssoc(a: seq<Path>, b: seq<Path>, c: seq<Path>)
    ensures a + (b + c) == (a + b) + c
  {
  }

  /** How the per-slug results and the cache evolve when one more slug is looked up. */
  lemma PrefixStep(c: Content, dev: bool, cache: MetaCache, slugs: seq<string>, i: nat)
    requires i < |slugs|
    ensures MetaOutcomes(c, dev, slugs[..i + 1]) == MetaOutcomes(c, dev, slugs[..i]) + [ReadMeta(c, dev, slugs[i])]
    ensures MetaCacheAfterAll(c, dev, cache, slugs[..i + 1])
         == MetaCacheAfter(c, dev, MetaCacheAfterAll(c, dev, cache, slugs[..i]), slugs[i])
    ensures MetaReadsAll(c, dev, cache, slugs[..i + 1])
         == MetaReadsAll(c, dev, cache, slugs[..i]) + MetaReads(dev, MetaCacheAfterAll(c, dev, cache, slugs[..i]), slugs[i])
  {
    assert slugs[..i + 1][..i] == slugs[..i];
  }

  /**
   * Outside development a lookup leaves its slug cached exactly when the
   * slug was cached already or the load ended in a record, an unpublished
   * record or a missing file; the next lookup of that slug reads no file.
   */
  lemma MetaCachedAfterLookup(c: Content, cache: MetaCache, slug: string)
    ensures MetaCacheHit(false, MetaCacheAfter(c, false, cache, slug), slug)
        <==> slug in cache || LoadMetaFile(c, slug).Ok? || LoadMetaFile(c, slug) == Threw(NoEntry)
    ensures MetaCacheHit(false, MetaCacheAfter(c, false, cache, slug), slug) ==>
      MetaReads(false, MetaCacheAfter(c, false, cache, slug), slug) == []
  {
  }

  /** The guide cache is consulted only outside development. */
  predicate GuideCacheHit(dev: bool, cache: GuideCache, slug: string, l: Locale)
  {
    !dev && CacheKey(slug, l) in cache
  }

  /**
   * The files one guide lookup reads: none on a guide cache hit; otherwise
   * those of the metadata lookup, then the body when the metadata was found.
   */
  function GuideReads(c: Content, dev: bool, metas: MetaCache, guides: GuideCache, slug: string, l: Locale): seq<Path>
  {
    if GuideCacheHit(dev, guides, slug, l) then []
    else MetaReads(dev, metas, slug)
         + (if ReadMeta(c, dev, slug).Ok? && ReadMeta(c, dev, slug).value.Some? then [BodyPath(slug, l)] else [])
  }

  /**
   * The guide loader of one process: the content tree, the mode, the two
   * memo tables and, as a ghost log, the files read so far.
   */
  class GuideStore {
    const content: Content
    const dev: bool
    var metaCache: MetaCache
    var guideCache: GuideCache
    ghost var fileReads: seq<Path>

    ghost predicate Valid()
      reads this
    {
      MetaCacheSound(content, dev, metaCache) && GuideCacheSound(content, dev, guideCache)
    }

    constructor (content: Content, dev: bool)
      ensures Valid()
      ensures this.content == content && this.dev == dev
      ensures metaCache == map[] && guideCache == map[] && fileReads == []
    {
      this.content := content;
      this.dev := dev;
      metaCache := map[];
      guideCache := map[];
      fileReads := [];
    }

    /**
     * `getGuideMeta`: returns what an uncached lookup returns; on a cache
     * hit it reads no file and leaves the cache alone.
     */
    method GetGuideMeta(slug: string) returns (r: MetaOutcome)
      requires Valid()
      modifies this
      ensures Valid()
      ensures r == ReadMeta(content, dev, slug)
      ensures MetaCacheHit(dev, old(metaCache), slug) ==> r == Ok(old(metaCache)[slug]) && fileReads == old(fileReads)
      ensures metaCache == MetaCacheAfter(content, dev, old(metaCache), slug)
      ensures guideCache == old(guideCache)
      ensures fileReads == old(fileReads) + MetaReads(dev, old(metaCache), slug)
    {
      if !dev && slug in metaCache {
        return Ok(metaCache[slug]);
      }
      fileReads := fileReads + [MetaPath(slug)];
      var read := ReadFile(content, MetaPath(slug));
      var failure: Fault;
      if read.Text? {
        var parsed := content.parseMeta(read.text);
        if parsed.Parsed? {
          var meta := parsed.value;
          if !meta.published {
            metaCache := metaCache[slug := None];
            return Ok(None);
          }
          if !dev {
            metaCache := metaCache[slug := Some(meta)];
          }
          return Ok(Some(meta));
        }
        failure := ParseFault;
      } else {
        failure := if read.Missing? then NoEntry else IoFault;
      }
      // the catch block
      if failure == NoEntry {
        if !dev {
          metaCache := metaCache[slug := None];
        }
        return Ok(None);
      }
      if dev {
        return Threw(failure);
      }
      return Ok(None);
    }

    /**
     * `getGuide`: returns what an uncached lookup returns; on a guide cache
     * hit it reads no file and changes neither cache.
     */
    method GetGuide(slug: string, l: Locale) returns (r: GuideOutcome)
      requires Valid()
      modifies this
      ensures Valid()
      ensures r == ReadGuide(content, dev, slug, l)
      ensures GuideCacheHit(dev, old(guideCache), slug, l) ==>
        r == Ok(old(guideCache)[CacheKey(slug, l)]) && fileReads == old(fileReads)
      ensures metaCache ==
        if GuideCacheHit(dev, old(guideCache), slug, l) then old(metaCache)
        else MetaCacheAfter(content, dev, old(metaCache), slug)
      ensures guideCache ==
        if GuideCacheHit(dev, old(guideCache), slug, l) || !RecordsGuide(content, dev, slug, l) then old(guideCache)
        else old(guideCache)[CacheKey(slug, l) := ReadGuide(content, dev, slug, l).value]
      ensures fileReads == old(fileReads) + GuideReads(content, dev, old(metaCache), old(guideCache), slug, l)
    {
      var key := CacheKey(slug, l);
      if !dev && key in guideCache {
        return Ok(guideCache[key]);
      }
      var found := GetGuideMeta(slug);
      var failure: Fault;
      if found.Ok? {
        if found.value.None? {
          if !dev {
            GuideCacheStaysSound(content, dev, guideCache, slug, l, None);
            guideCache := guideCache[key := None];
          }
          return Ok(None);
        }
        var meta := found.value.value;
        fileReads := fileReads + [BodyPath(slug, l)];
        var read := ReadFile(content, BodyPath(slug, l));
        if read.Text? {
          var matter := content.frontMatter(read.text);
          if matter.Parsed? {
            var guide := Guide(meta, matter.value, l);
            if !dev {
              GuideCacheStaysSound(content, dev, guideCache, slug, l, Some(guide));
              guideCache := guideCache[key := Some(guide)];
            }
            return Ok(Some(guide));
          }
          failure := ParseFault;
        } else {
          failure := if read.Missing? then NoEntry else IoFault;
        }
      } else {
        failure := found.fault;
      }
      // the catch block
      if failure == NoEntry {
        if !dev {
          GuideCacheStaysSound(content, dev, guideCache, slug, l, None);
          guideCache := guideCache[key := None];
        }
        return Ok(None);
      }
      if dev {
        return Threw(failure);
      }
      return Ok(None);
    }

    /**
     * `Promise.all(slugs.map(getGuideMeta))`: every slug is looked up in
     * turn, also after one has thrown; the joined result is `PromiseAll` of
     * the uncached lookups, and the cache and file log are the per-slug
     * updates applied in slug order.
     */
    method LookUpEach(slugs: seq<string>) returns (joined: Outcome<seq<Option<GuideMeta>>, Fault>)
      requires Valid()
      modifies this
      ensures Valid()
      ensures joined == PromiseAll(MetaOutcomes(content, dev, slugs))
      ensures metaCache == MetaCacheAfterAll(content, dev, old(metaCache), slugs)
      ensures guideCache == old(guideCache)
      ensures fileReads == old(fileReads) + MetaReadsAll(content, dev, old(metaCache), slugs)
    {
      joined := Ok([]);
      ghost var logged: seq<Path> := [];
      var i := 0;
      while i < |slugs|
        invariant 0 <= i <= |slugs|
        invariant Valid()
        invariant PromiseAll(MetaOutcomes(content, dev, slugs[..i])) == joined
        invariant metaCache == MetaCacheAfterAll(content, dev, old(metaCache), slugs[..i])
        invariant guideCache == old(guideCache)
        invariant logged == MetaReadsAll(content, dev, old(metaCache), slugs[..i])
        invariant fileReads == old(fileReads) + logged
      {
        ghost var cacheBefore, readsBefore := metaCache, fileReads;
        PrefixStep(content, dev, old(metaCache), slugs, i);
        PromiseAllSnoc(MetaOutcomes(content, dev, slugs[..i]), ReadMeta(content, dev, slugs[i]));
        var o := GetGuideMeta(slugs[i]);
        ghost var step := MetaReads(dev, cacheBefore, slugs[i]);
        assert fileReads == readsBefore + step;
        AppendAssoc(old(fileReads), logged, step);
        logged := logged + step;
        joined := Join(joined, o);
        i := i + 1;
      }
      assert slugs[..i] == slugs;
    }

    /**
     * `getAllGuides`: every slug's metadata is looked up, in slug order,
     * and the published records are returned. When lookups throw, the
     * first of them in slug order is the outcome; the later slugs are
     * still looked up. The locale takes no part.
     */
    method GetAllGuides(l: Locale) returns (r: Outcome<seq<GuideMeta>, Fault>)
      requires Valid()
      modifies this
      ensures Valid()
      ensures r == PublishedMetas(content, dev, GuideSlugs(content.root))
      ensures metaCache == MetaCacheAfterAll(content, dev, old(metaCache), GuideSlugs(content.root))
      ensures guideCache == old(guideCache)
      ensures fileReads == old(fileReads) + MetaReadsAll(content, dev, old(metaCache), GuideSlugs(content.root))
    {
      var slugs := GuideSlugs(content.root);
      var joined := LookUpEach(slugs);
      PublishedMetasOf(content, dev, slugs);
      match joined
      case Threw(f) => r := Threw(f);
      case Ok(metas) => r := Ok(NonNull(metas));
    }

    /** `getGuidesByPlatform`: the published guides of platform `p`, in slug order. */
    method GetGuidesByPlatform(p: string, l: Locale) returns (r: Outcome<seq<GuideMeta>, Fault>)
      requires Valid()
      modifies this
      ensures Valid()
      ensures r == GuidesByPlatform(content, dev, GuideSlugs(content.root), p)
      ensures metaCache == MetaCacheAfterAll(content, dev, old(metaCache), GuideSlugs(content.root))
      ensures guideCache == old(guideCache)
      ensures fileReads == old(fileReads) + MetaReadsAll(content, dev, old(metaCache), GuideSlugs(content.root))
    {
      var all := GetAllGuides(l);
      match all
      case Threw(f) => r := Threw(f);
      case Ok(ms) => r := Ok(OnPlatform(ms, p));
    }

    /** `getGuidesByCategory`: the published guides of category `k`, in slug order. */
    method GetGuidesByCategory(k: string, l: Locale) returns (r: Outcome<seq<GuideMeta>, Fault>)
      requires Valid()
      modifies this
      ensures Valid()
      ensures r == GuidesByCategory(content, dev, GuideSlugs(content.root), k)
      ensures metaCache == MetaCacheAfterAll(content, dev, old(metaCache), GuideSlugs(content.root))
      ensures guideCache == old(guideCache)
      ensures fileReads == old(fileReads) + MetaReadsAll(content, dev, old(metaCache), GuideSlugs(content.root))
    {
      var all := GetAllGuides(l);
      match all
      case Threw(f) => r := Threw(f);
      case Ok(ms) => r := Ok(InCategory(ms, k));
    }
  }
}
