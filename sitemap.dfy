/**
 * The sitemap builders (sitemap/sitemap.go): an XML sitemap in the format of
 * the Sitemaps protocol 0.9 (sitemaps.org), written from fixed header and
 * footer templates with one templated `<url>` entry per page, and the
 * page-by-page projection that is handed to the JSON encoder. The date of the
 * entries is a parameter.
 */
module Sitemap {
  import opened Wrappers
  import opened Domain

  /** The XML declaration and the opening `urlset` tag with its schema attributes, on four lines. */
  const Header: string :=
    "<?xml version=\"1.0\" encoding=\"utf-8\"?>\n"
    + "<urlset xmlns=\"http://www.sitemaps.org/schemas/sitemap/0.9\"\n"
    + "   xmlns:xsi=\"http://www.w3.org/2001/XMLSchema-instance\"\n"
    + "   xsi:schemaLocation=\"http://www.sitemaps.org/schemas/sitemap/0.9 "
    + "http://www.sitemaps.org/schemas/sitemap/0.9/sitemap.xsd\">\n"

  const Footer: string := "</urlset>"

  const LocOpen: string := "\t<url>\n\t\t<loc>"
  const LastmodOpen: string := "</loc>\n\t\t<lastmod>"
  const EntryClose: string := "</lastmod>\n\t\t<changefreq>daily</changefreq>\n\t\t<priority>0.8</priority>\n\t</url>\n"

  /** The `<url>` entry of one page: its location, the modification date, daily, priority 0.8. */
  function Entry(loc: string, date: string): string {
    LocOpen + loc + LastmodOpen + date + EntryClose
  }

  /** The location and the date sit at fixed offsets of an entry, so both can be read back from it. */
  lemma EntryFields(loc: string, date: string)
    ensures |Entry(loc, date)| == |LocOpen| + |loc| + |LastmodOpen| + |date| + |EntryClose|
    ensures Entry(loc, date)[..|LocOpen|] == LocOpen
    ensures Entry(loc, date)[|LocOpen|..|LocOpen| + |loc|] == loc
    ensures Entry(loc, date)[|LocOpen| + |loc|..|LocOpen| + |loc| + |LastmodOpen|] == LastmodOpen
    ensures Entry(loc, date)[|LocOpen| + |loc| + |LastmodOpen|..|LocOpen| + |loc| + |LastmodOpen| + |date|] == date
    ensures Entry(loc, date)[|LocOpen| + |loc| + |LastmodOpen| + |date|..] == EntryClose
  {
    var e := Entry(loc, date);
    var a, b, c := |LocOpen|, |LocOpen| + |loc|, |LocOpen| + |loc| + |LastmodOpen|;
    var d := c + |date|;
    assert e == LocOpen + loc + LastmodOpen + date + EntryClose;
    assert e[..a] == LocOpen;
    assert e[a..b] == loc;
    assert e[b..c] == LastmodOpen;
    assert e[c..d] == date;
    assert e[d..] == EntryClose;
  }

  /** What one slot of the page list writes: nothing for a nil page, else the page's entry. */
  function EntryOf(p: Option<Page>, date: string): string {
    if p.Some? then Entry(p.value.url.str, date) else ""
  }

  /** The entries of the pages, in input order. */
  function Entries(pages: seq<Option<Page>>, date: string): string {
    if pages == [] then ""
    else Entries(pages[..|pages| - 1], date) + EntryOf(pages[|pages| - 1], date)
  }

  /** The entries of a concatenation are the entries of each part, in order. */
  lemma {:induction false} EntriesAppend(a: seq<Option<Page>>, b: seq<Option<Page>>, date: string)
    ensures Entries(a + b, date) == Entries(a, date) + Entries(b, date)
    decreases |b|
  {
    if b == [] {
      assert a + b == a;
    } else {
      var b' := b[..|b| - 1];
      var tail := EntryOf(b[|b| - 1], date);
      assert (a + b)[..|a + b| - 1] == a + b';
      assert (a + b)[|a + b| - 1] == b[|b| - 1];
      EntriesAppend(a, b', date);
      calc {
        Entries(a + b, date);
        Entries(a + b', date) + tail;
        (Entries(a, date) + Entries(b', date)) + tail;
        Entries(a, date) + (Entries(b', date) + tail);
        Entries(a, date) + Entries(b, date);
      }
    }
  }

  /** One more slot of the page list adds that slot's entry. */
  lemma EntriesPrefix(pages: seq<Option<Page>>, i: nat, date: string)
    requires i < |pages|
    ensures Entries(pages[..i + 1], date) == Entries(pages[..i], date) + EntryOf(pages[i], date)
  {
    assert pages[..i + 1][..i] == pages[..i];
  }

  /** Nil pages write nothing: a run of them adds no entry. */
  lemma {:induction false} EntriesOfNils(pages: seq<Option<Page>>, date: string)
    requires forall j :: 0 <= j < |pages| ==> pages[j].None?
    ensures Entries(pages, date) == ""
  {
    if pages != [] {
      EntriesOfNils(pages[..|pages| - 1], date);
    }
  }

  /**
   * BuildXMLSitemap: the header, one entry per non-nil page in input order
   * with the page's URL as location and `date` as modification date, then
   * the footer. Never an error.
   */
  method BuildXMLSitemap(pages: seq<Option<Page>>, date: string) returns (out: string, err: Option<string>)
    ensures err == None
    ensures out == Header + Entries(pages, date) + Footer
  {
    var buf := Header;
    ghost var written := "";
    for i := 0 to |pages|
      invariant buf == Header + written
      invariant written == Entries(pages[..i], date)
    {
      EntriesPrefix(pages, i, date);
      var p := pages[i];
      if p.None? {
        continue;
      }
      var entry := Entry(p.value.url.str, date);
      Regroup(Header, written, entry);
      buf, written := buf + entry, written + entry;
    }
    assert pages[..|pages|] == pages;
    buf := buf + Footer;
    return buf, None;
  }

  // ---- JSON site structure ----

  /** One page as the JSON structure shows it: its URL, its link targets and its assets, as strings. */
  datatype FormattedPage = FormattedPage(url: string, links: seq<string>, assets: seq<string>)

  /** The value handed to the JSON encoder: the target and the formatted pages. */
  datatype SiteStructure = SiteStructure(target: string, pages: seq<FormattedPage>)

  /** `fp` shows page `p`: same URL, and link targets and assets slot by slot. */
  predicate Shows(fp: FormattedPage, p: Page) {
    && fp.url == p.url.str
    && |fp.links| == |p.links|
    && (forall j :: 0 <= j < |p.links| ==> fp.links[j] == p.links[j].target.str)
    && |fp.assets| == |p.assets|
    && (forall j :: 0 <= j < |p.assets| ==> fp.assets[j] == p.assets[j].str)
  }

  /** The two index loops of one page: fill a slice of the page's size slot by slot. */
  method FormatPage(p: Page) returns (fp: FormattedPage)
    ensures Shows(fp, p)
  {
    var links := new string[|p.links|];
    for i := 0 to |p.links|
      invariant forall j :: 0 <= j < i ==> links[j] == p.links[j].target.str
    {
      links[i] := p.links[i].target.str;
    }
    var linkStrings := links[..];
    var assets := new string[|p.assets|];
    for i := 0 to |p.assets|
      invariant forall j :: 0 <= j < i ==> assets[j] == p.assets[j].str
    {
      assets[i] := p.assets[i].str;
    }
    fp := FormattedPage(p.url.str, linkStrings, assets[..]);
  }

  /**
   * BuildJSONSiteStructure, up to the encoding: the target's string and one
   * formatted page per input page, in input order.
   */
  method BuildJSONSiteStructure(target: Url, pages: seq<Page>) returns (s: SiteStructure)
    ensures s.target == target.str
    ensures |s.pages| == |pages|
    ensures forall i :: 0 <= i < |pages| ==> Shows(s.pages[i], pages[i])
  {
    var ps: seq<FormattedPage> := [];
    for i := 0 to |pages|
      invariant |ps| == i
      invariant forall k :: 0 <= k < i ==> Shows(ps[k], pages[k])
    {
      var fp := FormatPage(pages[i]);
      ps := ps + [fp];
    }
    s := SiteStructure(target.str, ps);
  }
}
