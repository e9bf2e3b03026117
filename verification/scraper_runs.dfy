/**
 * What a whole run of each copy's `main` prints and in which order, stated
 * with that copy's own URL and file name.
 */
module ScraperRuns {
  import opened Query
  import opened CsvStore
  import opened Orchestrator
  import opened DatedScraper
  import Jan2020Scraper

  /**
   * The January copy asks for each row's URL once, in row order, and prints
   * one report per row: report `n` names the label of row `n` and the URL
   * built from that row, and says how that row ended from the answer to its
   * own request alone.
   */
  lemma JanuaryReports(files: map<Path, seq<Line>>, commodities: seq<Commodity>,
                       fetch: Fetcher, accepts: ShapeRule, n: nat)
    requires n < |commodities|
    ensures var log := Run(RunState(files, []), UnitsOf(commodities, Jan2020Scraper.JanuaryUnit), fetch, accepts).log;
            |log| == |commodities|
            && log[n].head == commodities[n].head
            && log[n].url == Jan2020Scraper.GetUrl(commodities[n].code, commodities[n].head)
            && log[n].status == StatusOf(fetch(n, Jan2020Scraper.GetUrl(commodities[n].code, commodities[n].head)))
  {
    RunEachReportAt(files, commodities, Jan2020Scraper.JanuaryUnit, fetch, accepts, n);
  }

  /**
   * The dated copy runs date range by date range, and within one every
   * commodity in list order: unit `RowStart(i, |commodities|) + j`, that is
   * `i * |commodities| + j`, fetches commodity `j` for date range `i` and
   * writes to that pair's file.
   */
  lemma DatedUnitAt(dates: seq<DateRange>, commodities: seq<Commodity>, i: nat, j: nat)
    requires i < |dates| && j < |commodities|
    ensures var units := GridUnits(dates, commodities, DatedUnit);
            var k := RowStart(i, |commodities|) + j;
            k < |units| && units[k].head == commodities[j].head
            && units[k].path == DatedPath(commodities[j].head, dates[i].from, dates[i].to)
            && units[k].url == GetUrl(commodities[j].code, commodities[j].head, dates[i].from, dates[i].to)
  {
    GridUnitsAt(dates, commodities, DatedUnit, i, j);
  }

  /**
   * Two commodity rows with different labels, each answered with a page
   * holding one table: the January copy saves both, in row order, and the
   * run leaves exactly two new files, one per commodity, each holding the
   * table's header line once and then its data rows.
   */
  lemma JanuaryTwoCommodities(files: map<Path, seq<Line>>, c1: Commodity, c2: Commodity,
                              fetch: Fetcher, accepts: ShapeRule, t: TableExtractor.Table)
    requires c1.head != c2.head
    requires Jan2020Scraper.JanuaryPath(c1.head) !in files && Jan2020Scraper.JanuaryPath(c2.head) !in files
    requires OneTablePage(fetch, 0, Jan2020Scraper.GetUrl(c1.code, c1.head), accepts, t)
    requires OneTablePage(fetch, 1, Jan2020Scraper.GetUrl(c2.code, c2.head), accepts, t)
    ensures Run(RunState(files, []), UnitsOf([c1, c2], Jan2020Scraper.JanuaryUnit), fetch, accepts)
         == RunState(files[Jan2020Scraper.JanuaryPath(c1.head) := TableLines(TableExtractor.Headers(t).value, TableExtractor.Rows(t), true)]
                          [Jan2020Scraper.JanuaryPath(c2.head) := TableLines(TableExtractor.Headers(t).value, TableExtractor.Rows(t), true)],
                     [Report(c1.head, Jan2020Scraper.GetUrl(c1.code, c1.head), Saved),
                      Report(c2.head, Jan2020Scraper.GetUrl(c2.code, c2.head), Saved)])
  {
    if Jan2020Scraper.JanuaryPath(c1.head) == Jan2020Scraper.JanuaryPath(c2.head) {
      Jan2020Scraper.JanuaryPathSeparatesCommodities(c1.head, c2.head);
    }
    TwoOneTableElements(files, c1, c2, Jan2020Scraper.JanuaryUnit, fetch, accepts, t);
  }

  /**
   * The same for the dated copy over one date range: two commodities whose
   * labels differ and hold no `/` get one new file each under their own
   * directory, each with the header line once and then the data rows.
   */
  lemma DatedTwoCommodities(files: map<Path, seq<Line>>, d: DateRange, c1: Commodity, c2: Commodity,
                            fetch: Fetcher, accepts: ShapeRule, t: TableExtractor.Table)
    requires c1.head != c2.head
    requires c1.head != [] && '/' !in c1.head && c2.head != [] && '/' !in c2.head
    requires DatedPath(c1.head, d.from, d.to) !in files && DatedPath(c2.head, d.from, d.to) !in files
    requires OneTablePage(fetch, 0, GetUrl(c1.code, c1.head, d.from, d.to), accepts, t)
    requires OneTablePage(fetch, 1, GetUrl(c2.code, c2.head, d.from, d.to), accepts, t)
    ensures Run(RunState(files, []), GridUnits([d], [c1, c2], DatedUnit), fetch, accepts)
         == RunState(files[DatedPath(c1.head, d.from, d.to) := TableLines(TableExtractor.Headers(t).value, TableExtractor.Rows(t), true)]
                          [DatedPath(c2.head, d.from, d.to) := TableLines(TableExtractor.Headers(t).value, TableExtractor.Rows(t), true)],
                     [Report(c1.head, GetUrl(c1.code, c1.head, d.from, d.to), Saved),
                      Report(c2.head, GetUrl(c2.code, c2.head, d.from, d.to), Saved)])
  {
    if DatedPath(c1.head, d.from, d.to) == DatedPath(c2.head, d.from, d.to) {
      DatedPathSeparatesCommodities(c1.head, c2.head, d.from, d.to, d.from, d.to);
    }
    TwoOneTableRow(files, d, c1, c2, DatedUnit, fetch, accepts, t);
  }
}
