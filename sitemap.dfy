/**
 * The sitemap route: one entry per page of the site, in route order, with
 * the absolute URL, a change frequency and a priority. The home page is
 * marked weekly with priority 1, every other page monthly with priority 0.7.
 */
module Sitemap {

  const SITE_URL: string := "https://khyteautomations.com"

  /** The paths of the pages, the home page first. */
  const ROUTES: seq<string> := ["", "/about", "/cases", "/contact"]

  datatype Frequency = Weekly | Monthly

  /** A sitemap entry without its lastModified date. */
  datatype Entry = Entry(url: string, changeFrequency: Frequency, priority: real)

  /** The entry of one path. */
  function EntryFor(path: string): (e: Entry)
    ensures |e.url| == |SITE_URL| + |path|
    ensures e.url[..|SITE_URL|] == SITE_URL && e.url[|SITE_URL|..] == path
    ensures e.priority == 1.0 <==> path == ""
    ensures e.changeFrequency == Weekly <==> path == ""
    ensures 0.0 < e.priority <= 1.0
    ensures path != "" ==> e.priority == 0.7 && e.changeFrequency == Monthly
  {
    Entry(SITE_URL + path, if path == "" then Weekly else Monthly, if path == "" then 1.0 else 0.7)
  }

  /** `routes.map(...)`: the entries in route order. */
  function Entries(routes: seq<string>): (es: seq<Entry>)
    ensures |es| == |routes|
    ensures forall i :: 0 <= i < |routes| ==> es[i] == EntryFor(routes[i])
  {
    seq(|routes|, i requires 0 <= i < |routes| => EntryFor(routes[i]))
  }

  /** sitemap() */
  function SitemapEntries(): seq<Entry> {
    Entries(ROUTES)
  }

  /** The path an entry's URL was built from. */
  function PathOf(e: Entry): string
    requires |SITE_URL| <= |e.url|
  {
    e.url[|SITE_URL|..]
  }

  /** Reading the path back from an entry gives the route it was made from. */
  lemma PathRoundTrip(path: string)
    ensures PathOf(EntryFor(path)) == path
  {
  }

  predicate Distinct<T(==)>(s: seq<T>) {
    forall i, j :: 0 <= i < j < |s| ==> s[i] != s[j]
  }

  /** Distinct paths give distinct URLs. */
  lemma DistinctUrls(routes: seq<string>)
    requires Distinct(routes)
    ensures forall i, j :: 0 <= i < j < |routes| ==> Entries(routes)[i].url != Entries(routes)[j].url
  {
    forall i, j | 0 <= i < j < |routes| ensures Entries(routes)[i].url != Entries(routes)[j].url {
      PathRoundTrip(routes[i]);
      PathRoundTrip(routes[j]);
    }
  }

  /** The site's map: four entries, home first and alone in being weekly with priority 1, all URLs distinct. */
  lemma SiteMapShape()
    ensures |SitemapEntries()| == 4
    ensures SitemapEntries()[0] == Entry(SITE_URL, Weekly, 1.0)
    ensures forall i :: 1 <= i < 4 ==> SitemapEntries()[i].changeFrequency == Monthly && SitemapEntries()[i].priority == 0.7
    ensures forall i, j :: 0 <= i < j < 4 ==> SitemapEntries()[i].url != SitemapEntries()[j].url
  {
    assert Distinct(ROUTES);
    DistinctUrls(ROUTES);
    assert SITE_URL + "" == SITE_URL;
  }
}
