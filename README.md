# Admin route guard and sitemap route of the fair-directory front end

This project models the two pieces of decision logic in the web front end of a
regional fair directory. The rest of the front end consists of HTTP wrappers and
React views.

- **Admin route guard** (`src/middleware.ts`, module `Middleware`). For each
  request, the guard takes the request path and whether the visitor has a
  session. It then lets the request through, sends the visitor to the login
  page `/admin`, or sends a signed-in visitor from the login page to
  `/admin/dashboard`. The model is the pure function `Decide(path, hasSession)`.
  Its contract relates the guard to an access policy (`Allowed`) that is stated
  without the guard's branch structure. The same contract states that a
  redirect is never to the request's own path. The lemmas show that following a
  redirect with the same session lets the request through, and that protection
  is a plain string prefix (`/administrator` counts as an admin page).
- **Sitemap route** (`src/app/sitemap.ts`, module `Sitemap`). The route turns
  the parsed `<url>` elements of the stored sitemap into sitemap entries. Absent
  `<lastmod>`, `<changefreq>` and `<priority>` tags get defaults. `<lastmod>`
  defaults to today at 02:00 UTC. `<changefreq>` defaults to `daily`.
  `<priority>` defaults to 0.5, the default in the "XML tag definitions"
  section of the Sitemap protocol 0.9. The `<xhtml:link rel="alternate">`
  children become an hreflang-to-href map. If anything throws, the result is a
  single fallback entry.
  - Pure specification functions: `LanguagesOf`, a left fold over the links;
    `EntryOf`; `EntriesOf`; and `SitemapOf`.
  - Imperative methods, each proved equal to its function: `BuildLanguages`,
    the `forEach` loop that mutates the dictionary; `BuildEntry`, which
    attaches `alternates` after construction; and `BuildSitemap`, which sets a
    `Date` to 02:00 UTC in place, maps the elements and stops at the first
    throw.
  - The mutable `Date` is the class `UtcDate`. Its `SetUTCHours` follows the
    day/time arithmetic of ECMAScript's `Date`.

The model starts from what the foreign code produces:

- The session lookup becomes the boolean `hasSession`.
- The HTTP fetch and the xml2js parse become an `Option<ParsedXml>`. `None`
  means one of them threw.
- The parsed tree has the shape xml2js gives it. Every child tag without
  attributes is a non-empty array of text values. The attributes of a link are an optional
  `$` object whose fields may each be absent.
- The wall clock becomes the parameter `now`, in milliseconds since the epoch.
- Date parsing and `parseFloat` stay symbolic: `ParsedDate(raw)` and
  `ParsedFloat(raw)`.

## Model

| member | source | states |
|---|---|---|
| `Middleware.Decide` | src/middleware.ts:13-30 | Paths outside the `/admin` prefix pass whatever the session. The request passes exactly when the access policy allows it: not protected, or the login page without a session, or another admin page with a session. It redirects to `/admin` exactly when an admin page other than `/admin` is opened without a session. It redirects to `/admin/dashboard` exactly when `/admin` is opened with a session. No other target occurs, and a redirect never targets the request's own path. |
| `Middleware.RedirectSettles` | src/middleware.ts:15-27 | Deciding again on a redirect's target, with the same session, lets the request through, so the guard cannot cause a redirect loop. |
| `Middleware.PrefixNotSegment` | src/middleware.ts:13-19 | Protection is a plain `startsWith`: every path `/admin` followed by any text is protected. For example, `/administrator` is protected and, without a session, is redirected to `/admin`. `/Admin` is not protected, because the test is case-sensitive. The matcher `/admin/:path*` does not route `/administrator` to the guard, so this redirect does not occur in the deployed app. |
| `Sitemap.UtcDate.constructor` | src/app/sitemap.ts:32 | `new Date()` holds the clock reading. |
| `Sitemap.UtcDate.SetUTCHours` | src/app/sitemap.ts:33 | The new time value is MakeDate(Day(old time), MakeTime(hour, min, sec, ms)), as in ECMAScript. When that time of day is under 24 hours, the UTC day is kept and the time within the day is exactly the given one. |
| `Sitemap.TodayAt0200` | src/app/sitemap.ts:32-33 | The default `lastModified` is in the same UTC day as `now`, at exactly 02:00:00.000. |
| `Sitemap.LanguagesKeys` | src/app/sitemap.ts:51-60 | A language is a key of the map exactly when some link has a `$` object, `rel` equal to `alternate`, a non-empty `href` and that language as its non-empty `hreflang`. |
| `Sitemap.LaterLinkWins` | src/app/sitemap.ts:51-58 | A language's value is the `href` of the last qualifying link with that `hreflang`, so a later link overwrites an earlier one. |
| `Sitemap.LanguagesNonEmpty` | src/app/sitemap.ts:52-58 | No key and no value of the map is an empty string. |
| `Sitemap.BuildLanguages` | src/app/sitemap.ts:49-60 | The dictionary left by the `forEach` loop equals the fold `LanguagesOf` over all the links. |
| `Sitemap.EntryOf` | src/app/sitemap.ts:35-68 | The callback throws exactly when `<loc>` is absent. Otherwise `url` is the first `<loc>`. `lastModified` is the first `<lastmod>` if present, else today at 02:00 UTC. `changeFrequency` is the first `<changefreq>` if present, else `daily`. `priority` is the parsed first `<priority>` if present, else the literal 0.5. `alternates` is present exactly when the languages map is non-empty, and it then holds that map. |
| `Sitemap.AlternatesIffQualifyingLink` | src/app/sitemap.ts:48-67 | An entry has `alternates` exactly when its element has at least one qualifying `xhtml:link`. Entries with no link, or with no qualifying link, have none. |
| `Sitemap.BuildEntry` | src/app/sitemap.ts:35-70 | Building the entry and then attaching `alternates` yields `EntryOf`, including its throw on a missing `<loc>`. |
| `Sitemap.EntriesOfCases` | src/app/sitemap.ts:35-71 | The `map` throws exactly when some element lacks `<loc>`. Otherwise it gives one entry per element, in the same order, and entry `i` is the callback's result on element `i`. |
| `Sitemap.SitemapEntries` | src/app/sitemap.ts:25-71 | If the fetch and the parse succeed, the root is `<urlset>` and every `<url>` has a `<loc>`, the route returns exactly one entry per `<url>`, in order. |
| `Sitemap.EmptyUrlSet` | src/app/sitemap.ts:30 | A `<urlset>` without `<url>` children gives the empty list, not the fallback. |
| `Sitemap.SitemapFallback` | src/app/sitemap.ts:72-81 | If the fetch or the parse threw, the root is not `<urlset>`, or some `<url>` lacks `<loc>`, the result is the single entry `https://thewedding.com`, last modified now, `daily`, priority 1.0, with no alternates. |
| `Sitemap.BuildSitemap` | src/app/sitemap.ts:22-83 | The route as executed equals `SitemapOf`. This covers the in-place `setUTCHours`, stopping the `map` at the first throw, and the `catch` fallback. |

## Left out

- Supabase session retrieval (src/middleware.ts:6-10) is a foreign call. It is the boolean `hasSession`. The pass-through outcome is the response `res` that was handed to the Supabase client, which can write refreshed session cookies onto it. The two redirects are new responses without those cookies. The model does not capture cookies.
- The Next.js `matcher` (src/middleware.ts:34-36) decides which requests reach the guard. The model decides on every path, including paths such as `/administrator` that the matcher never sends to the guard. Next.js path normalisation is not modelled either.
- `new URL(target, request.url)` makes the redirect absolute with the request's origin. The model keeps only the target path.
- The HTTP fetch `getSitemapXml('3')` and the xml2js parse (src/app/sitemap.ts:26-28) are foreign. The model starts from their outcome.
- xml2js shapes outside the route's declared `UrlEntry` type (src/app/sitemap.ts:6-18) are not modelled. The stored sitemap is free text that the admin editor saves as typed, so it can contain them, and the route does not check for them. For example, xml2js turns a `<loc>`, `<lastmod>`, `<changefreq>` or `<priority>` that carries attributes into an object `{_, $}`. The route then passes that object on as `url` or `changeFrequency`, gets an Invalid Date from `new Date(obj)` and gets `NaN` from `parseFloat(obj)`.
- `new Date(lastmod)` and `parseFloat(priority)` (src/app/sitemap.ts:39,44) parse dates and floating-point numbers. They stay symbolic as `ParsedDate(raw)` and `ParsedFloat(raw)`. Invalid dates and `NaN` are not modelled.
- The `changefreq` cast (src/app/sitemap.ts:41-42) is unchecked, so any string passes through. The model does the same and does not restrict it to the protocol's values.
- One clock reading, `now`, serves both `new Date()` calls (src/app/sitemap.ts:32 and 77). Date range clipping (`TimeClip`) is not modelled.
- In the route, all default `lastModified` values share one `Date` object. The model gives each entry its own time value, so this aliasing is not captured.
- The route builds `languages` as a plain object. An `hreflang` such as `__proto__` would behave differently there than in a map. The model treats every `hreflang` as an ordinary key.
- The route's `languages` object orders its keys (integer-like keys first, then insertion order), and that order decides the order of the emitted `<xhtml:link>` elements. A `map<string, string>` has no order, so the model does not capture it.
- `console.error`, `revalidate = 86400` (framework caching) and the returned `Promise` are left out, because they do not affect the entries.
