/**
 * The sitemap route of src/app/sitemap.ts.
 *
 * The route fetches the stored sitemap XML of the site, parses it with
 * xml2js and turns every `<url>` element into a sitemap entry, filling in
 * defaults for the optional tags `<lastmod>`, `<changefreq>` and `<priority>`
 * (only the 0.5 for `<priority>` is the Sitemap protocol 0.9's own default;
 * the other two are the route's choices), and collecting the
 * `<xhtml:link rel="alternate">` children into an hreflang-to-href map. Any
 * exception inside the `try` block replaces the whole result with a single
 * fallback entry.
 *
 * The fetch and the parser are foreign: the model starts from their outcome,
 * `None` when either of them threw, otherwise the parsed tree in the shape
 * xml2js gives it for the route's declared element type (every child element
 * without attributes becomes an array of its text values, every attribute
 * list an object under `$`). Date parsing and `parseFloat`
 * are kept symbolic. The wall clock is the parameter `now`, in milliseconds
 * since the epoch.
 */
module Sitemap {
  import opened Wrappers

  // ---------------------------------------------------------------------------
  // JavaScript `Date` in UTC: only what the route uses
  // ---------------------------------------------------------------------------

  const MsPerSecond: int := 1000
  const MsPerMinute: int := 60 * MsPerSecond
  const MsPerHour: int := 60 * MsPerMinute
  const MsPerDay: int := 24 * MsPerHour

  /** The day number of a time value: floor(t / msPerDay), as Dafny's `/` is for a positive divisor. */
  function Day(t: int): int {
    t / MsPerDay
  }

  /** The milliseconds elapsed since midnight UTC of the time value's day. */
  function TimeWithinDay(t: int): int {
    t % MsPerDay
  }

  function MakeTime(hour: int, min: int, sec: int, ms: int): int {
    hour * MsPerHour + min * MsPerMinute + sec * MsPerSecond + ms
  }

  function MakeDate(day: int, time: int): int {
    day * MsPerDay + time
  }

  /** A `Date` object: a mutable time value. */
  class UtcDate {
    var time: int

    /** `new Date()` read at the clock value `now`. */
    constructor (now: int)
      ensures time == now
    {
      time := now;
    }

    /**
     * `setUTCHours(hour, min, sec, ms)`: the new time value is the old UTC day
     * plus the given time of day; a time of day under 24 hours keeps the day,
     * a larger or negative one carries into another day.
     */
    method SetUTCHours(hour: int, min: int, sec: int, ms: int)
      modifies this
      ensures time == MakeDate(Day(old(time)), MakeTime(hour, min, sec, ms))
      ensures 0 <= MakeTime(hour, min, sec, ms) < MsPerDay ==>
        Day(time) == Day(old(time)) && TimeWithinDay(time) == MakeTime(hour, min, sec, ms)
    {
      time := MakeDate(Day(time), MakeTime(hour, min, sec, ms));
    }
  }

  /** The `today` of the route: the current UTC day at 02:00:00.000. */
  function TodayAt0200(now: int): (t: int)
    ensures Day(t) == Day(now)
    ensures TimeWithinDay(t) == 2 * MsPerHour
  {
    MakeDate(Day(now), MakeTime(2, 0, 0, 0))
  }

  // ---------------------------------------------------------------------------
  // The parsed document, in xml2js's shape
  // ---------------------------------------------------------------------------

  /** The text values of one child tag without attributes; xml2js never yields an empty array. */
  type Values = s: seq<string> | |s| > 0 witness [""]

  /** The attribute object `$` of an `<xhtml:link>`; each attribute may be absent. */
  datatype LinkAttrs = LinkAttrs(rel: Option<string>, hreflang: Option<string>, href: Option<string>)

  /** One `<xhtml:link>` child; an element without attributes has no `$`. */
  datatype Link = Link(attrs: Option<LinkAttrs>)

  /** One `<url>` element: its child tags, each absent or with at least one value. */
  datatype UrlEntry = UrlEntry(
    loc: Option<Values>,
    lastmod: Option<Values>,
    changefreq: Option<Values>,
    priority: Option<Values>,
    links: Option<seq<Link>>)

  /** The `<urlset>` root; `url` is absent when the set has no `<url>` child. */
  datatype UrlSet = UrlSet(url: Option<seq<UrlEntry>>)

  /** The parser's result; `urlset` is absent when the root element is something else. */
  datatype ParsedXml = ParsedXml(urlset: Option<UrlSet>)

  // ---------------------------------------------------------------------------
  // The entries the route returns
  // ---------------------------------------------------------------------------

  /** `lastModified`: a `Date` parsed from `<lastmod>`, or a clock-derived time value. */
  datatype LastModified = ParsedDate(raw: string) | At(time: int)

  /** `priority`: `parseFloat` of `<priority>`, or a literal number. */
  datatype Priority = ParsedFloat(raw: string) | Literal(value: real)

  /** `alternates: { languages }`. */
  datatype Alternates = Alternates(languages: map<string, string>)

  datatype Entry = Entry(
    url: string,
    lastModified: LastModified,
    changeFrequency: string,
    priority: Priority,
    alternates: Option<Alternates>)

  /** The route's own default for an absent `<changefreq>` (the protocol sets none). */
  const DefaultChangeFrequency: string := "daily"
  /** The protocol's default for an absent `<priority>`. */
  const DefaultPriority: real := 0.5
  const FallbackUrl: string := "https://thewedding.com"
  const FallbackPriority: real := 1.0

  /** The single entry returned when anything in the `try` block throws. */
  function FallbackEntry(now: int): Entry {
    Entry(FallbackUrl, At(now), DefaultChangeFrequency, Literal(FallbackPriority), None)
  }

  // ---------------------------------------------------------------------------
  // The hreflang-to-href map
  // ---------------------------------------------------------------------------

  /** JavaScript truthiness of an optional string: present and not empty. */
  predicate Truthy(s: Option<string>) {
    s.Some? && s.value != ""
  }

  /** The link test: a `$` object, `rel` exactly `alternate`, a non-empty `hreflang` and `href`. */
  predicate Qualifies(link: Link) {
    && link.attrs.Some?
    && link.attrs.value.rel == Some("alternate")
    && Truthy(link.attrs.value.hreflang)
    && Truthy(link.attrs.value.href)
  }

  /** The link qualifies and names the language `lang`. */
  predicate Declares(link: Link, lang: string) {
    Qualifies(link) && link.attrs.value.hreflang.value == lang
  }

  function HrefOf(link: Link): string
    requires Qualifies(link)
  {
    link.attrs.value.href.value
  }

  /** One step of the `forEach`: a qualifying link (over)writes its language. */
  function AddLink(languages: map<string, string>, link: Link): map<string, string> {
    if Qualifies(link) then
      languages[link.attrs.value.hreflang.value := link.attrs.value.href.value]
    else
      languages
  }

  /** The map the `forEach` leaves behind: a left fold of `AddLink` from the empty map. */
  function LanguagesOf(links: seq<Link>): map<string, string>
    decreases |links|
  {
    if links == [] then map[]
    else AddLink(LanguagesOf(links[..|links| - 1]), links[|links| - 1])
  }

  /** A language is a key exactly when some qualifying link names it. */
  lemma {:induction false} LanguagesKeys(links: seq<Link>, lang: string)
    ensures lang in LanguagesOf(links) <==> exists i :: 0 <= i < |links| && Declares(links[i], lang)
    decreases |links|
  {
    if links != [] {
      var init, last := links[..|links| - 1], links[|links| - 1];
      LanguagesKeys(init, lang);
      if Declares(last, lang) {
        assert Declares(links[|links| - 1], lang);
      } else if exists i :: 0 <= i < |links| && Declares(links[i], lang) {
        var i :| 0 <= i < |links| && Declares(links[i], lang);
        assert i < |links| - 1 && init[i] == links[i];
      }
    }
  }

  /**
   * The value of a language is the `href` of the LAST qualifying link that
   * names it: a later link overwrites an earlier one.
   */
  lemma {:induction false} LaterLinkWins(links: seq<Link>, i: int, lang: string)
    requires 0 <= i < |links| && Declares(links[i], lang)
    requires forall j :: i < j < |links| ==> !Declares(links[j], lang)
    ensures lang in LanguagesOf(links) && LanguagesOf(links)[lang] == HrefOf(links[i])
    decreases |links|
  {
    if i < |links| - 1 {
      var init := links[..|links| - 1];
      assert init[i] == links[i];
      assert !Declares(links[|links| - 1], lang);
      LaterLinkWins(init, i, lang);
    }
  }

  /** Neither keys nor values of the map are ever empty strings. */
  lemma {:induction false} LanguagesNonEmpty(links: seq<Link>, lang: string)
    requires lang in LanguagesOf(links)
    ensures lang != "" && LanguagesOf(links)[lang] != ""
    decreases |links|
  {
    var init, last := links[..|links| - 1], links[|links| - 1];
    if !Declares(last, lang) {
      LanguagesNonEmpty(init, lang);
    }
  }

  /** The `forEach` loop over the `xhtml:link` children, mutating `languages`. */
  method BuildLanguages(links: seq<Link>) returns (languages: map<string, string>)
    ensures languages == LanguagesOf(links)
  {
    languages := map[];
    for i := 0 to |links|
      invariant languages == LanguagesOf(links[..i])
    {
      assert links[..i + 1][..i] == links[..i];
      var link := links[i];
      if link.attrs.Some? && link.attrs.value.rel == Some("alternate")
         && Truthy(link.attrs.value.hreflang) && Truthy(link.attrs.value.href)
      {
        languages := languages[link.attrs.value.hreflang.value := link.attrs.value.href.value];
      }
    }
    assert links[..|links|] == links;
  }

  // ---------------------------------------------------------------------------
  // One `<url>` element
  // ---------------------------------------------------------------------------

  /**
   * The callback of `urlset.map`; `None` when it throws, which happens exactly
   * when `<loc>` is absent (`urlEntry.loc[0]` on `undefined`).
   */
  function EntryOf(u: UrlEntry, today: int): (r: Option<Entry>)
    ensures r.Some? <==> u.loc.Some?
    ensures r.Some? ==> r.value.url == u.loc.value[0]
    // `<lastmod>` when present, otherwise today at 02:00 UTC.
    ensures r.Some? && u.lastmod.Some? ==> r.value.lastModified == ParsedDate(u.lastmod.value[0])
    ensures r.Some? && u.lastmod.None? ==> r.value.lastModified == At(today)
    // `<changefreq>` when present, otherwise "daily".
    ensures r.Some? && u.changefreq.Some? ==> r.value.changeFrequency == u.changefreq.value[0]
    ensures r.Some? && u.changefreq.None? ==> r.value.changeFrequency == DefaultChangeFrequency
    // `<priority>` parsed when present, otherwise the default 0.5, never parsed.
    ensures r.Some? && u.priority.Some? ==> r.value.priority == ParsedFloat(u.priority.value[0])
    ensures r.Some? && u.priority.None? ==> r.value.priority == Literal(DefaultPriority)
    // Alternates only with a non-empty languages map, and then exactly that map.
    ensures r.Some? ==> (r.value.alternates.Some? <==> u.links.Some? && LanguagesOf(u.links.value) != map[])
    ensures r.Some? && r.value.alternates.Some? ==> r.value.alternates.value.languages == LanguagesOf(u.links.value)
  {
    if u.loc.None? then None
    else
      var languages := if u.links.Some? && |u.links.value| > 0 then LanguagesOf(u.links.value) else map[];
      Some(Entry(
        u.loc.value[0],
        if u.lastmod.Some? then ParsedDate(u.lastmod.value[0]) else At(today),
        if u.changefreq.Some? then u.changefreq.value[0] else DefaultChangeFrequency,
        if u.priority.Some? then ParsedFloat(u.priority.value[0]) else Literal(DefaultPriority),
        if |languages| > 0 then Some(Alternates(languages)) else None))
  }

  /** An entry has alternates exactly when the element has a qualifying `xhtml:link`. */
  lemma AlternatesIffQualifyingLink(u: UrlEntry, today: int)
    requires u.loc.Some?
    ensures EntryOf(u, today).value.alternates.Some?
        <==> u.links.Some? && exists i :: 0 <= i < |u.links.value| && Qualifies(u.links.value[i])
  {
    if u.links.Some? {
      var links := u.links.value;
      if exists i :: 0 <= i < |links| && Qualifies(links[i]) {
        var i :| 0 <= i < |links| && Qualifies(links[i]);
        LanguagesKeys(links, links[i].attrs.value.hreflang.value);
      } else if LanguagesOf(links) != map[] {
        var lang :| lang in LanguagesOf(links);
        LanguagesKeys(links, lang);
      }
    }
  }

  /** The `map` callback as the route runs it: build, then attach alternates. */
  method BuildEntry(u: UrlEntry, today: int) returns (r: Option<Entry>)
    ensures r == EntryOf(u, today)
  {
    if u.loc.None? {
      return None;
    }
    var entry := Entry(
      u.loc.value[0],
      if u.lastmod.Some? then ParsedDate(u.lastmod.value[0]) else At(today),
      if u.changefreq.Some? then u.changefreq.value[0] else DefaultChangeFrequency,
      if u.priority.Some? then ParsedFloat(u.priority.value[0]) else Literal(DefaultPriority),
      None);
    if u.links.Some? && |u.links.value| > 0 {
      var languages := BuildLanguages(u.links.value);
      if |languages| > 0 {
        entry := entry.(alternates := Some(Alternates(languages)));
      }
    }
    return Some(entry);
  }

  // ---------------------------------------------------------------------------
  // The whole route
  // ---------------------------------------------------------------------------

  /** `urlset.map(callback)`: `None` as soon as one callback throws. */
  function EntriesOf(urls: seq<UrlEntry>, today: int): Option<seq<Entry>>
    decreases |urls|
  {
    if urls == [] then Some([])
    else
      match (EntriesOf(urls[..|urls| - 1], today), EntryOf(urls[|urls| - 1], today))
      case (Some(es), Some(e)) => Some(es + [e])
      case _ => None
  }

  /** Some `<url>` element has no `<loc>`. */
  predicate MissingLoc(urls: seq<UrlEntry>) {
    exists i :: 0 <= i < |urls| && urls[i].loc.None?
  }

  /** The map succeeds exactly when every element has a `<loc>`, one entry per element, in order. */
  lemma {:induction false} EntriesOfCases(urls: seq<UrlEntry>, today: int)
    ensures EntriesOf(urls, today).None? <==> MissingLoc(urls)
    ensures EntriesOf(urls, today).Some? ==>
      && |EntriesOf(urls, today).value| == |urls|
      && forall i :: 0 <= i < |urls| ==> EntryOf(urls[i], today) == Some(EntriesOf(urls, today).value[i])
    decreases |urls|
  {
    if urls != [] {
      var init := urls[..|urls| - 1];
      EntriesOfCases(init, today);
      assert forall i :: 0 <= i < |init| ==> init[i] == urls[i];
      if MissingLoc(init) {
        var i :| 0 <= i < |init| && init[i].loc.None?;
        assert urls[i].loc.None?;
      }
    }
  }

  /** `parsedXml.urlset.url || []`. */
  function UrlsOf(urlset: UrlSet): seq<UrlEntry> {
    urlset.url.GetOr([])
  }

  /**
   * The body of the `try` block; `None` when it throws: the fetch or the parse
   * failed, the root is not `<urlset>` (`parsedXml.urlset.url` on
   * `undefined`), or a `<url>` has no `<loc>`.
   */
  function Attempt(fetched: Option<ParsedXml>, now: int): Option<seq<Entry>> {
    if fetched.None? || fetched.value.urlset.None? then None
    else EntriesOf(UrlsOf(fetched.value.urlset.value), TodayAt0200(now))
  }

  /** The route's result: the entries, or the fallback list if anything threw. */
  function SitemapOf(fetched: Option<ParsedXml>, now: int): seq<Entry> {
    match Attempt(fetched, now)
    case Some(entries) => entries
    case None => [FallbackEntry(now)]
  }

  /** Without failure: exactly one entry per `<url>` element, in the same order. */
  lemma SitemapEntries(fetched: Option<ParsedXml>, now: int)
    requires fetched.Some? && fetched.value.urlset.Some?
    requires !MissingLoc(UrlsOf(fetched.value.urlset.value))
    ensures var urls := UrlsOf(fetched.value.urlset.value);
      && |SitemapOf(fetched, now)| == |urls|
      && forall i :: 0 <= i < |urls| ==>
           EntryOf(urls[i], TodayAt0200(now)) == Some(SitemapOf(fetched, now)[i])
  {
    EntriesOfCases(UrlsOf(fetched.value.urlset.value), TodayAt0200(now));
  }

  /** A `<urlset>` without any `<url>` child gives an empty sitemap, not the fallback. */
  lemma EmptyUrlSet(now: int)
    ensures SitemapOf(Some(ParsedXml(Some(UrlSet(None)))), now) == []
  {
  }

  /**
   * On any failure the result is the single fallback entry: the site's home
   * page, changed daily, priority 1.0, last modified now.
   */
  lemma SitemapFallback(fetched: Option<ParsedXml>, now: int)
    requires || fetched.None?
             || fetched.value.urlset.None?
             || MissingLoc(UrlsOf(fetched.value.urlset.value))
    ensures SitemapOf(fetched, now) == [Entry("https://thewedding.com", At(now), "daily", Literal(1.0), None)]
  {
    if fetched.Some? && fetched.value.urlset.Some? {
      EntriesOfCases(UrlsOf(fetched.value.urlset.value), TodayAt0200(now));
    }
  }

  /**
   * The route as it runs: `today` is a `Date` set to 02:00 UTC in place, the
   * `map` stops at the first callback that throws, and the `catch` returns
   * the fallback list.
   */
  method BuildSitemap(fetched: Option<ParsedXml>, now: int) returns (r: seq<Entry>)
    ensures r == SitemapOf(fetched, now)
  {
    if fetched.None? || fetched.value.urlset.None? {
      return [FallbackEntry(now)];
    }
    var urls := UrlsOf(fetched.value.urlset.value);
    var today := new UtcDate(now);
    today.SetUTCHours(2, 0, 0, 0);
    var entries: seq<Entry> := [];
    for i := 0 to |urls|
      invariant today.time == TodayAt0200(now)
      invariant EntriesOf(urls[..i], TodayAt0200(now)) == Some(entries)
    {
      assert urls[..i + 1][..i] == urls[..i];
      var e := BuildEntry(urls[i], today.time);
      if e.None? {
        assert urls[i].loc.None?;
        EntriesOfCases(urls, TodayAt0200(now));
        return [FallbackEntry(now)];
      }
      entries := entries + [e.value];
    }
    assert urls[..|urls|] == urls;
    return entries;
  }
}
