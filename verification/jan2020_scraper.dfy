/**
 * The copy of the scraper fixed to January 2020: `src/agrimarket/scraper.py`.
 * Its `get_url` builds the same thirteen-parameter search as the dated copy
 * with both dates fixed, and every table of a commodity goes to one file
 * named after the commodity.  Its `main` is a single loop over the
 * commodity list.
 */
module Jan2020Scraper {
  import opened Wrappers
  import opened Text
  import opened FormEncoding
  import opened Query
  import opened TableExtractor
  import opened CsvStore
  import opened Orchestrator
  import DatedScraper

  const JanuaryFrom: string := "01-Jan-2020"
  const JanuaryTo: string := "31-Jan-2020"

  /** `get_url(Commodity, CommodityHead)`: the search for January 2020. */
  function GetUrl(code: Value, head: string): (r: string)
    ensures DatedScraper.IsSearchUrl(r)
  {
    DatedScraper.GetUrl(code, head, JanuaryFrom, JanuaryTo)
  }

  /**
   * The query decodes to the thirteen parameters with both date pairs fixed
   * to the first and last day of January 2020, whatever the commodity.
   */
  lemma GetUrlFixedDates(code: Value, head: string)
    ensures var parts := Split(GetUrl(code, head), '?');
            |parts| == 2 && parts[0] == DatedScraper.BaseUrl
            && ParseQuery(parts[1]) == Some(DatedScraper.SearchTexts(code, head, "01-Jan-2020", "31-Jan-2020"))
  {
    DatedScraper.GetUrlReadsBack(code, head, JanuaryFrom, JanuaryTo);
  }

  lemma JanuaryDatesUnreserved()
    ensures AllUnreserved(JanuaryFrom) && AllUnreserved(JanuaryTo)
  {
  }

  lemma FixedPiecesPlain()
    ensures "DateFrom=" + JanuaryFrom == "DateFrom=01-Jan-2020" && "DateTo=" + JanuaryTo == "DateTo=31-Jan-2020"
    ensures "Fr_Date=" + JanuaryFrom == "Fr_Date=01-Jan-2020" && "To_Date=" + JanuaryTo == "To_Date=31-Jan-2020"
  {
  }

  /**
   * For a label that needs no escaping, the URL is the search page, `?`,
   * and these thirteen pieces joined by `&`.
   */
  lemma GetUrlPlain(n: nat, head: string)
    requires AllUnreserved(head)
    ensures GetUrl(Int(n), head)
         == "https://agmarknet.gov.in/SearchCmmMkt.aspx" + "?"
            + Join(["Tx_Commodity=" + NatToDecimal(n), "Tx_State=0", "Tx_District=0", "Tx_Market=0",
                    "DateFrom=01-Jan-2020", "DateTo=31-Jan-2020", "Fr_Date=01-Jan-2020", "To_Date=31-Jan-2020",
                    "Tx_Trend=0", "Tx_CommodityHead=" + head, "Tx_StateHead=--Select--",
                    "Tx_DistrictHead=--Select--", "Tx_MarketHead=--Select--"], '&')
  {
    JanuaryDatesUnreserved();
    DatedScraper.GetUrlUnreserved(n, head, JanuaryFrom, JanuaryTo);
    FixedPiecesPlain();
  }

  lemma WheatPieces()
    ensures AllUnreserved("Wheat")
    ensures "Tx_Commodity=" + NatToDecimal(1) == "Tx_Commodity=1"
    ensures "Tx_CommodityHead=" + "Wheat" == "Tx_CommodityHead=Wheat"
  {
    assert NatToDecimal(1) == "1";
  }

  /** The URL for commodity 1, Wheat. */
  lemma GetUrlWheat()
    ensures GetUrl(Int(1), "Wheat")
         == "https://agmarknet.gov.in/SearchCmmMkt.aspx" + "?"
            + Join(["Tx_Commodity=1", "Tx_State=0", "Tx_District=0", "Tx_Market=0",
                    "DateFrom=01-Jan-2020", "DateTo=31-Jan-2020", "Fr_Date=01-Jan-2020", "To_Date=31-Jan-2020",
                    "Tx_Trend=0", "Tx_CommodityHead=Wheat", "Tx_StateHead=--Select--",
                    "Tx_DistrictHead=--Select--", "Tx_MarketHead=--Select--"], '&')
  {
    WheatPieces();
    GetUrlPlain(1, "Wheat");
  }

  lemma RicePieces()
    ensures AllUnreserved("Rice")
    ensures "Tx_Commodity=" + NatToDecimal(2) == "Tx_Commodity=2"
    ensures "Tx_CommodityHead=" + "Rice" == "Tx_CommodityHead=Rice"
  {
    assert NatToDecimal(2) == "2";
  }

  /** The URL for commodity 2, Rice. */
  lemma GetUrlRice()
    ensures GetUrl(Int(2), "Rice")
         == "https://agmarknet.gov.in/SearchCmmMkt.aspx" + "?"
            + Join(["Tx_Commodity=2", "Tx_State=0", "Tx_District=0", "Tx_Market=0",
                    "DateFrom=01-Jan-2020", "DateTo=31-Jan-2020", "Fr_Date=01-Jan-2020", "To_Date=31-Jan-2020",
                    "Tx_Trend=0", "Tx_CommodityHead=Rice", "Tx_StateHead=--Select--",
                    "Tx_DistrictHead=--Select--", "Tx_MarketHead=--Select--"], '&')
  {
    RicePieces();
    GetUrlPlain(2, "Rice");
  }

  lemma JowarPieces()
    ensures AllUnreserved("Jowar")
    ensures "Tx_Commodity=" + NatToDecimal(3) == "Tx_Commodity=3"
    ensures "Tx_CommodityHead=" + "Jowar" == "Tx_CommodityHead=Jowar"
  {
    assert NatToDecimal(3) == "3";
  }

  /** The URL for commodity 3, Jowar. */
  lemma GetUrlJowar()
    ensures GetUrl(Int(3), "Jowar")
         == "https://agmarknet.gov.in/SearchCmmMkt.aspx" + "?"
            + Join(["Tx_Commodity=3", "Tx_State=0", "Tx_District=0", "Tx_Market=0",
                    "DateFrom=01-Jan-2020", "DateTo=31-Jan-2020", "Fr_Date=01-Jan-2020", "To_Date=31-Jan-2020",
                    "Tx_Trend=0", "Tx_CommodityHead=Jowar", "Tx_StateHead=--Select--",
                    "Tx_DistrictHead=--Select--", "Tx_MarketHead=--Select--"], '&')
  {
    JowarPieces();
    GetUrlPlain(3, "Jowar");
  }

  // ---------------------------------------------------------------------
  // The output path

  /** The one file all tables of a commodity go to. */
  function JanuaryPath(head: string): (p: string)
    ensures |p| == |head| + 30
    ensures p[..17] == "./data/Agri_Data_" && p[|p| - 13..] == "_Jan_2020.csv"
    ensures p[17..17 + |head|] == head
  {
    "./data/Agri_Data_" + head + "_Jan_2020.csv"
  }

  /** Different commodity labels never share a file. */
  lemma JanuaryPathSeparatesCommodities(h1: string, h2: string)
    requires JanuaryPath(h1) == JanuaryPath(h2)
    ensures h1 == h2
  {
    var p := JanuaryPath(h1);
    assert h1 == p[17..|p| - 13];
    assert h2 == JanuaryPath(h2)[17..|p| - 13];
  }

  // ---------------------------------------------------------------------
  // save_as_csv and main

  /** `save_as_csv(soup, CommodityHead)`: every table of the page to the commodity's file. */
  method SaveAsCsv(fs: FileSystem, doc: Document, head: string, accepts: ShapeRule)
    returns (completed: bool)
    modifies fs
    ensures SaveOutcome(fs.files, completed) == SaveTables(old(fs.files), JanuaryPath(head), AllTables(doc.nodes), accepts)
  {
    var tables := AllTables(doc.nodes);
    completed := WriteTables(fs, JanuaryPath(head), tables, accepts);
  }

  /** The unit of work for one commodity row. */
  function JanuaryUnit(c: DatedScraper.Commodity): (u: Unit)
    ensures u.head == c.head && u.url == GetUrl(c.code, c.head) && u.path == JanuaryPath(c.head)
  {
    Unit(c.head, GetUrl(c.code, c.head), JanuaryPath(c.head))
  }

  /**
   * `main` without the CSV loading and the timing: for each commodity row,
   * in order, build the URL, fetch it, and save the page, catching every
   * exception at the row.  The reports are the messages it prints.
   */
  method RunScraper(fs: FileSystem, commodities: seq<DatedScraper.Commodity>, fetch: Fetcher, accepts: ShapeRule)
    returns (reports: seq<Report>)
    modifies fs
    ensures RunState(fs.files, reports)
         == Run(RunState(old(fs.files), []), UnitsOf(commodities, JanuaryUnit), fetch, accepts)
  {
    reports := RunEach(fs, commodities, JanuaryUnit, [], fetch, accepts);
  }
}
