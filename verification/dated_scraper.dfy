/**
 * The copy of the scraper that takes a date range: `agrimarket/scraper.py`.
 * Its `main` walks every date range and, within each, every commodity; each
 * (date range, commodity) pair is one unit of work whose tables go to a file
 * named after the commodity and the two dates.
 */
module DatedScraper {
  import opened Wrappers
  import opened Text
  import opened FormEncoding
  import opened Query
  import opened TableExtractor
  import opened CsvStore
  import opened Orchestrator

  /** The search page of the Agmarknet portal. */
  const BaseUrl: string := "https://agmarknet.gov.in/SearchCmmMkt.aspx"

  lemma BaseUrlHasNoQuery()
    ensures '?' !in BaseUrl
  {
    assert forall i :: 0 <= i < |BaseUrl| ==> BaseUrl[i] != '?';
  }

  /** The value the portal's drop-down lists use for "no choice". */
  const Unselected: string := "--Select--"

  /** A row of the commodity list: the portal's commodity code and its label. */
  datatype Commodity = Commodity(code: Value, head: string)

  /** A row of the date list: the two dates as the portal spells them, e.g. `01-Jan-2020`. */
  datatype DateRange = DateRange(from: string, to: string)

  /** The parameter dictionary of `get_url`, in its insertion order. */
  function SearchParameters(code: Value, head: string, from: string, to: string): seq<(string, Value)>
  {
    [("Tx_Commodity", code), ("Tx_State", Str("0")), ("Tx_District", Int(0)), ("Tx_Market", Int(0)),
     ("DateFrom", Str(from)), ("DateTo", Str(to)), ("Fr_Date", Str(from)), ("To_Date", Str(to)),
     ("Tx_Trend", Int(0)), ("Tx_CommodityHead", Str(head)),
     ("Tx_StateHead", Str(Unselected)), ("Tx_DistrictHead", Str(Unselected)), ("Tx_MarketHead", Str(Unselected))]
  }

  /** A URL of the search page: the page, then `?`, then a query holding no further `?`. */
  predicate IsSearchUrl(r: string)
  {
    |r| > |BaseUrl| && r[..|BaseUrl|] == BaseUrl && r[|BaseUrl|] == '?' && '?' !in r[|BaseUrl| + 1..]
  }

  /** `get_url(Commodity, CommodityHead, date_from, date_to)`. */
  function GetUrl(code: Value, head: string, from: string, to: string): (r: string)
    ensures IsSearchUrl(r)
  {
    BuildUrl(BaseUrl, SearchParameters(code, head, from, to))
  }

  /** What a reader of the URL's query recovers: the thirteen keys in order, each with the text of its value. */
  function SearchTexts(code: Value, head: string, from: string, to: string): (r: seq<(string, string)>)
    ensures |r| == 13
  {
    [("Tx_Commodity", ToText(code)), ("Tx_State", "0"), ("Tx_District", "0"), ("Tx_Market", "0"),
     ("DateFrom", from), ("DateTo", to), ("Fr_Date", from), ("To_Date", to),
     ("Tx_Trend", "0"), ("Tx_CommodityHead", head),
     ("Tx_StateHead", Unselected), ("Tx_DistrictHead", Unselected), ("Tx_MarketHead", Unselected)]
  }

  lemma SearchParametersTexts(code: Value, head: string, from: string, to: string)
    ensures Texts(SearchParameters(code, head, from, to)) == SearchTexts(code, head, from, to)
  {
    var ps := SearchParameters(code, head, from, to);
    assert ToText(Int(0)) == "0" by {
      assert NatToDecimal(0) == [DigitChar(0)];
    }
    assert forall i :: 0 <= i < 13 ==> Texts(ps)[i] == SearchTexts(code, head, from, to)[i];
  }

  /**
   * The URL is the search page, one `?`, and a query that decodes to exactly
   * the thirteen parameters in order: the commodity code as decimal text,
   * the three zeros, both dates twice, the commodity label, and the three
   * unselected drop-downs.
   */
  lemma GetUrlReadsBack(code: Value, head: string, from: string, to: string)
    ensures var parts := Split(GetUrl(code, head, from, to), '?');
            |parts| == 2 && parts[0] == BaseUrl
            && ParseQuery(parts[1]) == Some(SearchTexts(code, head, from, to))
  {
    BaseUrlHasNoQuery();
    BuildUrlReadsBack(BaseUrl, SearchParameters(code, head, from, to));
    SearchParametersTexts(code, head, from, to);
  }

  /** Different arguments never share a URL: the commodity, the label and both dates can all be read off it. */
  lemma GetUrlDistinguishes(c1: Value, h1: string, f1: string, t1: string,
                            c2: Value, h2: string, f2: string, t2: string)
    requires GetUrl(c1, h1, f1, t1) == GetUrl(c2, h2, f2, t2)
    ensures ToText(c1) == ToText(c2) && h1 == h2 && f1 == f2 && t1 == t2
  {
    GetUrlSameTexts(c1, h1, f1, t1, c2, h2, f2, t2);
    SearchTextsDistinguish(c1, h1, f1, t1, c2, h2, f2, t2);
  }

  /** Equal URLs read back into equal parameters. */
  lemma GetUrlSameTexts(c1: Value, h1: string, f1: string, t1: string,
                        c2: Value, h2: string, f2: string, t2: string)
    requires GetUrl(c1, h1, f1, t1) == GetUrl(c2, h2, f2, t2)
    ensures SearchTexts(c1, h1, f1, t1) == SearchTexts(c2, h2, f2, t2)
  {
    GetUrlReadsBack(c1, h1, f1, t1);
    GetUrlReadsBack(c2, h2, f2, t2);
  }

  /** The recovered parameters hold the commodity text, the label and both dates. */
  lemma SearchTextsDistinguish(c1: Value, h1: string, f1: string, t1: string,
                               c2: Value, h2: string, f2: string, t2: string)
    requires SearchTexts(c1, h1, f1, t1) == SearchTexts(c2, h2, f2, t2)
    ensures ToText(c1) == ToText(c2) && h1 == h2 && f1 == f2 && t1 == t2
  {
    var s1, s2 := SearchTexts(c1, h1, f1, t1), SearchTexts(c2, h2, f2, t2);
    assert s1[0].1 == s2[0].1 && s1[4].1 == s2[4].1 && s1[5].1 == s2[5].1 && s1[9].1 == s2[9].1;
  }

  lemma DigitsUnreserved(n: nat)
    ensures AllUnreserved(NatToDecimal(n))
  {
  }

  lemma SearchKeysUnreserved()
    ensures AllUnreserved("Tx_Commodity") && AllUnreserved("Tx_State") && AllUnreserved("Tx_District")
    ensures AllUnreserved("Tx_Market") && AllUnreserved("DateFrom") && AllUnreserved("DateTo")
    ensures AllUnreserved("Fr_Date") && AllUnreserved("To_Date") && AllUnreserved("Tx_Trend")
  {
  }

  lemma HeadKeysUnreserved()
    ensures AllUnreserved("Tx_CommodityHead") && AllUnreserved("Tx_StateHead")
    ensures AllUnreserved("Tx_DistrictHead") && AllUnreserved("Tx_MarketHead") && AllUnreserved(Unselected)
  {
  }

  /** The pieces of `GetUrlUnreserved`, in order. */
  function PlainSearchPieces(n: nat, head: string, from: string, to: string): seq<string>
  {
    ["Tx_Commodity=" + NatToDecimal(n), "Tx_State=0", "Tx_District=0", "Tx_Market=0",
     "DateFrom=" + from, "DateTo=" + to, "Fr_Date=" + from, "To_Date=" + to,
     "Tx_Trend=0", "Tx_CommodityHead=" + head, "Tx_StateHead=--Select--",
     "Tx_DistrictHead=--Select--", "Tx_MarketHead=--Select--"]
  }

  lemma SearchParametersUnreserved(n: nat, head: string, from: string, to: string)
    requires AllUnreserved(head) && AllUnreserved(from) && AllUnreserved(to)
    ensures var ps := SearchParameters(Int(n), head, from, to);
            forall i :: 0 <= i < |ps| ==> AllUnreserved(ps[i].0) && AllUnreserved(ToText(ps[i].1))
  {
    var ps := SearchParameters(Int(n), head, from, to);
    assert ToText(Int(0)) == "0" by {
      assert NatToDecimal(0) == [DigitChar(0)];
    }
    assert ToText(Int(n)) == NatToDecimal(n);
    DigitsUnreserved(n);
    SearchKeysUnreserved();
    HeadKeysUnreserved();
    assert AllUnreserved("0");
  }

  lemma ConstantPiecesPlain()
    ensures "Tx_State" + "=" + "0" == "Tx_State=0" && "Tx_District" + "=" + "0" == "Tx_District=0"
    ensures "Tx_Market" + "=" + "0" == "Tx_Market=0" && "Tx_Trend" + "=" + "0" == "Tx_Trend=0"
  {
  }

  lemma UnselectedPiecesPlain()
    ensures "Tx_StateHead" + "=" + Unselected == "Tx_StateHead=--Select--"
    ensures "Tx_DistrictHead" + "=" + Unselected == "Tx_DistrictHead=--Select--"
    ensures "Tx_MarketHead" + "=" + Unselected == "Tx_MarketHead=--Select--"
  {
  }

  lemma SearchPiecesPlain(n: nat, head: string, from: string, to: string)
    ensures PlainPairs(SearchParameters(Int(n), head, from, to)) == PlainSearchPieces(n, head, from, to)
  {
    var ps := SearchParameters(Int(n), head, from, to);
    assert ToText(Int(0)) == "0" by {
      assert NatToDecimal(0) == [DigitChar(0)];
    }
    assert ToText(Int(n)) == NatToDecimal(n);
    ConstantPiecesPlain();
    UnselectedPiecesPlain();
    var plain, pieces := PlainPairs(ps), PlainSearchPieces(n, head, from, to);
    forall i | 0 <= i < 13 ensures plain[i] == pieces[i] {
      if i == 0 || i == 4 || i == 5 || i == 6 || i == 7 || i == 9 {
        assert plain[i] == ps[i].0 + "=" + ToText(ps[i].1);
      }
    }
  }

  /**
   * When the label and the dates need no escaping (letters, digits, `-`,
   * `.`, `_`, `~`), the URL is the search page, `?`, and the thirteen
   * `key=value` pieces joined by `&`, every value written as given.
   */
  lemma GetUrlUnreserved(n: nat, head: string, from: string, to: string)
    requires AllUnreserved(head) && AllUnreserved(from) && AllUnreserved(to)
    ensures GetUrl(Int(n), head, from, to) == BaseUrl + "?" + Join(PlainSearchPieces(n, head, from, to), '&')
  {
    var ps := SearchParameters(Int(n), head, from, to);
    SearchParametersUnreserved(n, head, from, to);
    EncodePairsPlain(ps);
    SearchPiecesPlain(n, head, from, to);
    BaseUrlHasNoQuery();
    BuildUrlParts(BaseUrl, ps);
  }

  // ---------------------------------------------------------------------
  // The output path

  /**
   * `os.path.join(a, b)` on POSIX: an absolute `b` replaces `a`; otherwise
   * the result is `a`, then `b`, with one `/` between them unless `a` is
   * empty or already ends with one.
   */
  function PathJoin(a: string, b: string): (r: string)
    ensures |b| > 0 && b[0] == '/' ==> r == b
    ensures (|b| == 0 || b[0] != '/') ==>
              |r| == |a| + |b| + (if a == [] || a[|a| - 1] == '/' then 0 else 1)
              && r[..|a|] == a && r[|r| - |b|..] == b
    ensures (|b| == 0 || b[0] != '/') && a != [] && a[|a| - 1] != '/' ==> r[|a|] == '/'
  {
    if |b| > 0 && b[0] == '/' then b
    else if a == [] || a[|a| - 1] == '/' then a + b
    else a + "/" + b
  }

  const ScrapedDataDir: string := "./data/scraped_data"

  /** `Agri_Data_<head>_<from>_<to>.csv`, with the hyphens taken out of both dates. */
  function DatedFileName(head: string, from: string, to: string): (r: string)
    ensures |r| >= |head| + 16
    ensures r[..10] == "Agri_Data_" && r[10..10 + |head|] == head && r[|r| - 4..] == ".csv"
    ensures '-' !in r[10 + |head|..]
  {
    var dates := "_" + RemoveChar(from, '-') + "_" + RemoveChar(to, '-') + ".csv";
    assert '-' !in dates;
    var r := "Agri_Data_" + head + dates;
    assert r[10 + |head|..] == dates;
    r
  }

  /**
   * Dates written `<day>-<month>-<year>` appear in the file name as
   * `<day><month><year>`, the range's start first.
   */
  lemma DatedFileNameDates(head: string, d1: string, m1: string, y1: string, d2: string, m2: string, y2: string)
    requires '-' !in d1 && '-' !in m1 && '-' !in y1 && '-' !in d2 && '-' !in m2 && '-' !in y2
    ensures DatedFileName(head, d1 + "-" + m1 + "-" + y1, d2 + "-" + m2 + "-" + y2)
         == "Agri_Data_" + head + ("_" + (d1 + m1 + y1) + "_" + (d2 + m2 + y2) + ".csv")
  {
    RemoveCharDate(d1, m1, y1);
    RemoveCharDate(d2, m2, y2);
  }

  /** The file `save_as_csv` appends to for a commodity label and a date range. */
  function DatedPath(head: string, from: string, to: string): (r: string)
    ensures |r| >= |DatedFileName(head, from, to)| && r[|r| - |DatedFileName(head, from, to)|..] == DatedFileName(head, from, to)
    ensures (head == [] || head[0] != '/') ==> |r| >= |ScrapedDataDir| && r[..|ScrapedDataDir|] == ScrapedDataDir
  {
    PathJoin(PathJoin(ScrapedDataDir, head), DatedFileName(head, from, to))
  }

  /**
   * For a label that neither starts nor ends with `/`, the file is
   * `./data/scraped_data/<head>/<file name>`: it lies in a directory named
   * after the label.
   */
  lemma DatedPathShape(head: string, from: string, to: string)
    requires head != [] && head[0] != '/' && head[|head| - 1] != '/'
    ensures DatedPath(head, from, to) == ScrapedDataDir + "/" + head + "/" + DatedFileName(head, from, to)
  {
    assert ScrapedDataDir[|ScrapedDataDir| - 1] == 'a';
    var dir := PathJoin(ScrapedDataDir, head);
    assert dir == ScrapedDataDir + "/" + head;
    assert dir[|dir| - 1] == head[|head| - 1];
    var name := DatedFileName(head, from, to);
    assert name[0] == 'A';
    assert PathJoin(dir, name) == dir + "/" + name;
  }

  /** The January 2020 file name for wheat. */
  lemma DatedFileNameExample()
    ensures DatedFileName("Wheat", "01-Jan-2020", "31-Jan-2020") == "Agri_Data_Wheat_01Jan2020_31Jan2020.csv"
  {
    WheatJanuaryPieces();
    WheatJanuaryName();
  }

  lemma WheatJanuaryPieces()
    ensures DatedFileName("Wheat", "01-Jan-2020", "31-Jan-2020")
         == "Agri_Data_" + "Wheat" + ("_" + "01Jan2020" + "_" + "31Jan2020" + ".csv")
  {
    RemoveCharDateExample();
    RemoveCharDateExampleEnd();
  }

  lemma WheatJanuaryName()
    ensures "Agri_Data_" + "Wheat" + ("_" + "01Jan2020" + "_" + "31Jan2020" + ".csv")
         == "Agri_Data_Wheat_01Jan2020_31Jan2020.csv"
  {
  }

  /** Two labels without `/` never share a file, whatever the dates. */
  lemma DatedPathSeparatesCommodities(h1: string, h2: string, f1: string, t1: string, f2: string, t2: string)
    requires h1 != [] && '/' !in h1 && h2 != [] && '/' !in h2
    requires DatedPath(h1, f1, t1) == DatedPath(h2, f2, t2)
    ensures h1 == h2
  {
    DatedPathShape(h1, f1, t1);
    DatedPathShape(h2, f2, t2);
    LabelBeforeSlash(ScrapedDataDir + "/", h1, DatedFileName(h1, f1, t1), h2, DatedFileName(h2, f2, t2));
  }

  /** A `/`-free label that ends at the first `/` after a common prefix is fixed by the text. */
  lemma LabelBeforeSlash(pre: string, h1: string, n1: string, h2: string, n2: string)
    requires '/' !in h1 && '/' !in h2
    requires pre + h1 + "/" + n1 == pre + h2 + "/" + n2
    ensures h1 == h2
  {
    var p := pre + h1 + "/" + n1;
    var k := |pre|;
    assert p[k + |h1|] == '/';
    assert p == pre + h2 + "/" + n2;
    assert p[k + |h2|] == '/';
    assert forall x :: k <= x < k + |h1| ==> p[x] == h1[x - k];
    assert forall x :: k <= x < k + |h2| ==> p[x] == h2[x - k];
    assert |h1| == |h2|;
    assert h1 == p[k..k + |h1|] && h2 == p[k..k + |h2|];
  }

  // ---------------------------------------------------------------------
  // save_as_csv and main

  /** `save_as_csv(soup, CommodityHead, date_from, date_to)`: every table of the page to the unit's file. */
  method SaveAsCsv(fs: FileSystem, doc: Document, head: string, from: string, to: string, accepts: ShapeRule)
    returns (completed: bool)
    modifies fs
    ensures SaveOutcome(fs.files, completed)
         == SaveTables(old(fs.files), DatedPath(head, from, to), AllTables(doc.nodes), accepts)
  {
    var tables := AllTables(doc.nodes);
    completed := WriteTables(fs, DatedPath(head, from, to), tables, accepts);
  }

  /** The unit of work for one commodity in one date range. */
  function DatedUnit(d: DateRange, c: Commodity): (u: Unit)
    ensures u.head == c.head && u.url == GetUrl(c.code, c.head, d.from, d.to) && u.path == DatedPath(c.head, d.from, d.to)
  {
    Unit(c.head, GetUrl(c.code, c.head, d.from, d.to), DatedPath(c.head, d.from, d.to))
  }

  /**
   * `main` without the CSV loading and the timing: for each date range, for
   * each commodity, build the URL, fetch it, and save the page, catching
   * every exception at the unit.  The reports are the messages it prints.
   */
  method RunScraper(fs: FileSystem, dates: seq<DateRange>, commodities: seq<Commodity>,
              fetch: Fetcher, accepts: ShapeRule)
    returns (reports: seq<Report>)
    modifies fs
    ensures RunState(fs.files, reports)
         == Run(RunState(old(fs.files), []), GridUnits(dates, commodities, DatedUnit), fetch, accepts)
  {
    reports := RunGrid(fs, dates, commodities, DatedUnit, fetch, accepts);
  }
}
