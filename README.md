# CloudSetup.guide content layer, modelled in Dafny

CloudSetup.guide is a bilingual (Korean/English) site of step-by-step setup
guides for cloud platforms. This project models three parts of it:

- **The guide loader** (`lib/guides.ts`), in `guides.dfy`. It lists the
  guide directories under the content root. It loads a guide's `meta.json`
  and hides unpublished guides. It loads the per-locale `.mdx` body and
  builds the platform and category listings. Two process-wide memo tables
  sit in front of the loads, one for metadata and one for guides. They are
  bypassed in development mode.
- **The SEO records** (`lib/seo.ts`), in `seo.dfy`. These are the
  schema.org `HowTo` JSON-LD object and the page metadata: canonical and
  alternate URLs, Open Graph and Twitter cards.
- **The sitemap** (`app/sitemap.ts`), in `sitemap.dfy`. It lists the home
  pages, then the guide pages, then the platform pages, each in both
  locales.

Shared pieces:

- `types.dfy` holds the records of `types/guide.ts`.
- `seqs.dfy` holds the array pipelines: `filter`, dropping nulls, and
  `Promise.all`.
- `decimal.dfy` holds how a template literal writes a whole number.
- `siteurls.dfy` holds the URL templates that the SEO records and the
  sitemap share.

The loader is modelled as follows:

- The content tree is a value `Guides.Content`. It holds the listing of
  the root, the files by path (missing, text, or unreadable), and two
  functions that stand for `JSON.parse` and `gray-matter`. Either function
  may fail.
- A thrown error is `Threw(fault)`. The fault is `NoEntry` (ENOENT),
  `IoFault` (any other read error) or `ParseFault`.
- The pure functions `ReadMeta` and `ReadGuide` say what a lookup returns
  when nothing is cached.
- The class `Guides.GuideStore` holds the mode flag, the two caches and a
  ghost log of the files read.
- The store's invariant says that every cached entry equals what an
  uncached lookup returns. Its methods are proved to return exactly the
  uncached result whatever the caches hold. They are also proved to change
  the caches and the file log exactly as `lib/guides.ts` does. So a cache hit
  reads no file, repeated lookups agree, and a cached "not found" stays
  "not found".

## Model

| member | source | states |
|---|---|---|
| `Guides.GuideSlugs` | lib/guides.ts:14-21 | the slugs are exactly the names of the directory entries of the root; a root that cannot be listed gives no slugs instead of an error |
| `Guides.GuideSlugsAppend` | lib/guides.ts:17 | slugs keep the listing order: a split listing gives the slugs of its parts, in order |
| `Guides.LoadMetaFile` | lib/guides.ts:30-32 | reading and parsing `meta.json` succeeds exactly when the file is text that parses; it throws ENOENT exactly when the file is missing and an I/O error exactly when it is unreadable; a loaded record is what `JSON.parse` gives for the file's text |
| `Guides.Recover` | lib/guides.ts:48-68 | the catch block: a missing file becomes "not found"; any other error is re-thrown unchanged in development and becomes "not found" otherwise |
| `Guides.ReadMeta` | lib/guides.ts:29-68 | metadata is found exactly when `meta.json` loads and is published, and is then the parsed record; the lookup throws exactly in development on a non-ENOENT error, and throws that same error |
| `Guides.RecordsMeta` | lib/guides.ts:34-57 | the uncached lookup writes the metadata cache only for a result it returns (unpublished in either mode; a record or ENOENT outside development); it never writes after another error |
| `Guides.LoadBody` | lib/guides.ts:88-90 | the body load succeeds exactly when `<locale>.mdx` is text whose front matter parses, and the body is then the stripped text; it throws ENOENT exactly when the file is missing and an I/O error exactly when it is unreadable |
| `Guides.ReadGuide` | lib/guides.ts:79-123 | a found guide has the metadata that `ReadMeta` found (so it is published), the requested locale and the stripped body; metadata "not found" or a missing body gives "not found"; it throws exactly in development when the metadata lookup throws or a found guide's body load fails other than by ENOENT, and then throws that same error |
| `Guides.RecordsGuide` | lib/guides.ts:81-114 | the guide cache is written only outside development, and only for a result the lookup returns |
| `Guides.CacheKeyInjective` | lib/guides.ts:72 | the key `<slug>-<locale>` is injective over (slug, locale), so two lookups never share a guide cache entry |
| `Guides.GuideCarriesParsedMeta` | lib/guides.ts:80-96 | a published record with a body for the locale yields a guide made of that record, that body and that locale; the record's `slug` field is not checked against the directory name |
| `Guides.ModeAffectsOnlyErrors` | lib/guides.ts:59-67 | where the development lookup returns, the production lookup returns the same; where it throws, the production lookup returns "not found" (metadata and guide) |
| `Guides.OneLocaleOnly` | lib/guides.ts:88-114 | a published guide with a `ko` body and no `en` body is found in `ko` and is "not found" in `en` |
| `Guides.PublishedMetas` | lib/guides.ts:126-130 | the listing holds exactly the metadata found for some slug, all of it published, and has no more entries than there are slugs; it throws exactly when some lookup throws, which happens only in development, and then with the error some lookup threw |
| `Guides.PublishedMetasAppend` | lib/guides.ts:128-129 | the listing keeps slug order: a split slug list gives the listings of its parts, concatenated |
| `Guides.GuidesByPlatform` | lib/guides.ts:132-138 | exactly the published metadata of the listed slugs whose platform is written `p`, no more entries than there are slugs; throws exactly when the full listing does, with the same error |
| `Guides.GuidesByCategory` | lib/guides.ts:140-146 | exactly the published metadata of the listed slugs whose category is written `k`, no more entries than there are slugs; throws exactly when the full listing does, with the same error |
| `Guides.GuidesByPlatformAppend` | lib/guides.ts:136-137 | the platform view keeps slug order: a split slug list gives the views of its parts, concatenated |
| `Guides.GuidesByCategoryAppend` | lib/guides.ts:144-145 | the category view keeps slug order: a split slug list gives the views of its parts, concatenated |
| `Guides.PlatformViewsPartition` | lib/guides.ts:137 | each listed guide is in the view of its own platform and in no other platform's view |
| `Guides.CategoryViewsPartition` | lib/guides.ts:145 | each listed guide is in the view of its own category and in no other category's view |
| `Guides.GuideCacheStaysSound` | lib/guides.ts:83-111 | writing an uncached lookup's result under its key keeps every guide cache entry equal to its uncached lookup |
| `Guides.MetaCachedAfterLookup` | lib/guides.ts:25-57 | outside development a slug is cached after a lookup exactly when it was cached before or the load gave a record or ENOENT (negative caching); the next lookup of that slug then reads no file |
| `Guides.GuideCachedAfterLookup` | lib/guides.ts:75-122 | outside development the guide cache is written exactly when the metadata was "not found", or it was found and the body loaded or is missing (negative caching); never after any other body error, and never in development |
| `Guides.GuideStore.constructor` | lib/guides.ts:10-12 | both caches start empty, the mode is fixed, no file has been read, and the cache invariant holds |
| `Guides.GuideStore.GetGuideMeta` | lib/guides.ts:23-69 | returns `ReadMeta` whatever the cache holds; on a cache hit (never in development) it returns the cached value and reads no file; it states the new metadata cache and file log, and leaves the guide cache unchanged |
| `Guides.GuideStore.GetGuide` | lib/guides.ts:71-124 | returns `ReadGuide` whatever the caches hold; on a guide cache hit it reads nothing and changes nothing; otherwise it looks up the metadata through `GetGuideMeta`, reads the body only when the metadata was found, and writes the guide cache as `RecordsGuide` says |
| `Guides.GuideStore.LookUpEach` | lib/guides.ts:128 | `Promise.all(slugs.map(getGuideMeta))`: joins to `PromiseAll` of the uncached lookups whatever the cache holds; every slug is looked up in turn, also after a throw; the new metadata cache and file log are the per-slug updates applied in slug order, and the guide cache is unchanged |
| `Guides.GuideStore.GetAllGuides` | lib/guides.ts:126-130 | returns `PublishedMetas` of the listed slugs; every slug is looked up in turn, also after a throw; the new cache and file log are the per-slug updates applied in slug order; the locale takes no part |
| `Guides.GuideStore.GetGuidesByPlatform` | lib/guides.ts:132-138 | returns `GuidesByPlatform` of the listed slugs, with the same cache effects as `GetAllGuides` |
| `Guides.GuideStore.GetGuidesByCategory` | lib/guides.ts:140-146 | returns `GuidesByCategory` of the listed slugs, with the same cache effects as `GetAllGuides` |
| `Seqs.Filter` | lib/guides.ts:137 | the result holds exactly the accepted elements and is no longer than the input |
| `Seqs.FilterAppend` | lib/guides.ts:145 | filtering keeps order: it distributes over concatenation |
| `Seqs.NonNull` | lib/guides.ts:129 | the result holds exactly the present values |
| `Seqs.NonNullAppend` | lib/guides.ts:129 | dropping nulls keeps order: it distributes over concatenation |
| `Seqs.PromiseAll` | lib/guides.ts:128 | with no throw, the values in order, one per call; otherwise the fault of the first call that threw |
| `Seqs.PromiseAllAppend` | lib/guides.ts:128 | joining a concatenation succeeds exactly when both parts do, and then gives their values concatenated |
| `Seo.GuideJsonLd` | lib/seo.ts:4-22 | name and description are the locale's SEO title and description; the cost is "0" USD; there are `totalSteps` steps, step `i` at position `i+1` named `Step <i+1>` |
| `Seo.TotalTimeRoundTrip` | lib/seo.ts:15 | `totalTime` is an ISO 8601 `PT<n>M` duration that reads back as the estimated minutes |
| `Seo.TotalTimeCanonical` | lib/seo.ts:15 | the minutes in `totalTime` have no leading zero: a `0` after `PT` means the duration is exactly `PT0M` |
| `Seo.StepNamesDistinct` | lib/seo.ts:16-20 | no two steps share a name |
| `Seo.GuideMetadata` | lib/seo.ts:24-54 | title and description agree across the page, Open Graph and Twitter, and are the locale's SEO texts; canonical equals the Open Graph URL, both are the guide URL of the locale, and equal the locale's alternate; the alternates are the `ko` and `en` guide URLs; the Open Graph locale is the locale |
| `Seo.CanonicalIdentifiesPage` | lib/seo.ts:33-39 | the canonical URL reads back as the page's locale and slug, and the two alternate URLs differ |
| `SiteUrls.ParseGuideUrl` | lib/seo.ts:34 | what it reads from a URL rebuilds that exact URL |
| `SiteUrls.GuideUrlRoundTrip` | app/sitemap.ts:21 | the guide URL `<site>/<locale>/guides/<slug>` reads back as its locale and slug |
| `SiteUrls.GuideUrlInjective` | lib/seo.ts:36-37 | guide URLs of one site are equal only for equal locale and slug |
| `Decimal.Format` | lib/seo.ts:15 | a whole number is written as one or more decimal digits with no leading zero; a leading `0` occurs only for 0, which is written `0` alone |
| `Decimal.ValueOfFormat` | lib/seo.ts:19 | reading back the digits gives the number |
| `Sitemap.GuidePages` | app/sitemap.ts:19-26 | two guide entries per slug |
| `Sitemap.PlatformPages` | app/sitemap.ts:29-36 | two platform entries per platform id |
| `Sitemap.Sitemap` | app/sitemap.ts:6-39 | `2 + 2*slugs + 2*platforms` entries: the two home entries (daily, priority 1), then the guide entries, then the platform entries |
| `Sitemap.GuidePagesAt` | app/sitemap.ts:19-26 | slug `i` has its `ko` entry at `2i` and its `en` entry at `2i+1`, at its guide URL, weekly, priority 0.8 |
| `Sitemap.PlatformPagesAt` | app/sitemap.ts:29-36 | platform `k` has its `ko` entry at `2k` and its `en` entry at `2k+1`, at its platform URL, weekly, priority 0.7 |
| `Sitemap.SitemapAt` | app/sitemap.ts:38 | the position in the whole sitemap of each guide entry and each platform entry |
| `Sitemap.ListsUnpublishedGuides` | app/sitemap.ts:7-26 | a guide directory whose record is unpublished is hidden by the loader, yet both its locales appear in the sitemap |
| `GuideTypes.PlatformIdInjective` | types/guide.ts:1-8 | distinct platforms are written differently |
| `GuideTypes.CategoryIdInjective` | types/guide.ts:10-19 | distinct categories are written differently |

## Behaviour of the code worth noting

- The slug list is the directory entries only, in the order the directory
  read returns them. The order is not sorted or otherwise specified.
- A found guide's `meta.slug` is whatever `meta.json` says. The code never
  compares it with the directory name, so `meta.slug == slug` holds only
  when the content is authored that way (`GuideCarriesParsedMeta`).
- An unpublished guide is written into the metadata cache as `null` in
  development mode too (lib/guides.ts:38). The cache is never read in that
  mode, so results do not change.
- Outside development, a malformed `meta.json` is not cached in the
  metadata cache. `getGuide` then caches `null` in the guide cache, under
  the key of each locale it is called with for that guide
  (lib/guides.ts:81-85).
- In `getGuide` the metadata lookup runs inside the same `try`. An error
  it re-throws in development is caught again and re-thrown by the same
  rule.

## Left out

- File I/O, `path.join` and the content-root path are left out. A path is
  the datatype `Guides.Path`, keyed by slug and locale. Slugs containing
  `/` or `..`, which would make two paths alias, are not modelled.
- The internals of `JSON.parse` and `gray-matter` are left out. They are
  the function fields `parseMeta` and `frontMatter` of `Content`, each of
  which may fail.
- `JSON.parse(...) as GuideMeta` does no validation. A JSON value with
  missing or mistyped fields is either a record or `Malformed` in the
  model. The truthiness of a non-boolean `published` is not modelled.
- The content tree does not change while the store exists: it is the
  store's `content` constant. Edits between lookups are not modelled,
  neither the stale cache hits production serves after an edit nor the
  fresh reads development makes to see one. The store's soundness
  invariant and "repeated lookups agree" rest on this.
- The `isDevelopment` environment read at module load is left out. It is
  the store's `dev` constant.
- `console.warn` and `console.error` logging is left out.
- Asynchrony is left out. Lookups run one after another. Two concurrent
  first lookups of the same key are not modelled.
- Seqs.PromiseAll: reports the first fault in slug order. `Promise.all`
  rejects with the first rejection in time, which the model cannot know.
- GuideTypes.GuideMeta: `estimatedMinutes` and `totalSteps` are natural
  numbers. Fractional, negative or huge JSON numbers are not modelled.
  Their template-literal forms (`1.5`, `-1`, `1e+21`) and `Array.from`'s
  length conversion are not modelled either.
- `SITE_URL` and its environment default (lib/constants.ts) are left out.
  The site origin is a parameter.
- The platform table `data/platforms.json` is not part of this model. The
  sitemap takes the platform ids as a parameter.
- `lastModified: new Date()` in sitemap entries is left out, because it is
  a clock read.
- Priorities are integers in tenths: 1 is 10, 0.8 is 8 and 0.7 is 7.
- The React components, `lib/pagefind.ts`, `lib/env.ts`, `i18n/routing.ts`
  and `lib/constants.ts` are outside the modelled core. They are UI state,
  a foreign search library, URL validation by a foreign parser, and
  constant tables. The platform, category and locale lists appear only as
  the enumerations in `types.dfy`.
