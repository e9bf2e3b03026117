# AgriMarket scraper, modelled in Dafny

AgriMarket downloads commodity price tables from the Agmarknet portal
(`https://agmarknet.gov.in/SearchCmmMkt.aspx`) and appends them to CSV files.
The repository holds two copies of the scraper:

- `agrimarket/scraper.py`: the dated copy. Its `get_url` takes a commodity
  code, a commodity label and a date range. Its `main` loops over every
  date range and, inside that, over every commodity. Each table goes to
  `./data/scraped_data/<label>/Agri_Data_<label>_<from>_<to>.csv`, with the
  hyphens removed from the dates.
- `src/agrimarket/scraper.py`: the copy fixed to January 2020. Its `get_url`
  takes only the code and the label. Its `main` is one loop over the
  commodities. Each table goes to `./data/Agri_Data_<label>_Jan_2020.csv`.

Both copies share the same steps:
- `get_url` form-encodes thirteen search parameters (`urlencode`) and puts
  `?` between the page and the query.
- `get_all_tables`, `get_table_headers` and `get_table_rows` read the tables
  of a parsed page.
- `save_as_csv` opens the output file in append mode for every table. It
  writes the header line only while the file is empty. It skips a table
  that pandas cannot turn into a DataFrame.
- `main` catches every error at the unit of work (one commodity, or one
  commodity in one date range), reports it, and goes on with the next unit.

The modules:

| module | what it holds |
|---|---|
| `Wrappers` | `Option` |
| `Text` | `join`/`split`, `strip`, `replace(c, '')`, `str` of integers, with their inverses |
| `FormEncoding` | `quote_plus`: UTF-8, then percent-encoding with `+` for space, and a strict decoder as its partner |
| `Query` | `urlencode` over an ordered parameter list, `"?".join`, and a query parser as partner |
| `TableExtractor` | the parsed page, and the three extraction functions (functions, plus the loop methods proved equal to them) |
| `CsvStore` | the files as a map from path to lines; `FileSystem` (a class whose `files` field the append methods update); `save_as_csv`'s loop as the `WriteTables` method and the `SaveTables` function it is proved equal to |
| `Orchestrator` | one unit of `main` (`Attempt`, `Step`), the whole run (`Run`), the single and the nested loops as methods, and their properties |
| `DatedScraper` | the dated copy: its URL, its output path, its `save_as_csv` and `main` |
| `Jan2020Scraper` | the January 2020 copy: the same, with the dates fixed, plus the test vectors of `get_url` |
| `ScraperRuns` | whole-run facts stated with each copy's own URL and path |

Points where the code behaves in a way that is easy to miss, and what the
model does about each:
- **A table without any `tr`.** `get_table_headers` calls `find_all` on
  `None` and raises AttributeError. That call sits outside the `try`, and
  the `try` only catches ValueError. So that call of `save_as_csv` stops at
  the table: earlier tables stay written, and later tables of the page are
  not written. `main` then reports the unit through its catch-all `except`.
  The model does the same: `SaveTables` returns `completed == false`, and
  the unit's status is `ProcessingError`.
- **Rows that do not fit the headers.** `pd.DataFrame(rows, columns=headers)`
  raises ValueError only when the widest row is not exactly as wide as the
  header list. That case is the parameter `ShapeRule`. A rejected table is
  skipped whole, and the loop goes on with the next table. In an accepted
  table, pandas fills the missing cells of a shorter row with NaN, and
  `to_csv` writes them as empty cells. The model pads such rows with empty
  cells (`PadRow`).
- **Where the headers come from.** They are the `th` cells of the first
  `tr`, whatever else that row holds. The `th` cells of later rows are
  ignored, and so are the `td` cells of the first row.
- **Order.** Both `main` functions handle one unit at a time, in input
  order, and so does the model.

## Model

| member | source | states |
|---|---|---|
| Text.Join | agrimarket/scraper.py:36 | `sep.join`: one part gives that part; parts free of the separator give exactly `n - 1` separators |
| Text.Split | agrimarket/scraper.py:36 | `split`: at least one piece, and no piece holds the separator |
| Text.SplitJoin | agrimarket/scraper.py:36 | splitting a join of separator-free parts gives the parts back |
| Text.TrimStartShape | agrimarket/scraper.py:48 | `lstrip` keeps a suffix, drops only whitespace, and leaves no whitespace at the front |
| Text.TrimEndShape | agrimarket/scraper.py:48 | `rstrip` keeps a prefix, drops only whitespace, and leaves no whitespace at the end |
| Text.Strip | agrimarket/scraper.py:48 | `strip()`: the result has no whitespace at either end, is no longer than the input, and is empty exactly when the input is all whitespace |
| Text.StripPadded | agrimarket/scraper.py:60 | trimmed text padded with whitespace on both sides strips back to exactly that text |
| Text.StripTrimmed | agrimarket/scraper.py:60 | text with no surrounding whitespace is left unchanged |
| Text.StripIdempotent | agrimarket/scraper.py:48 | stripping twice is stripping once |
| Text.RemoveChar | agrimarket/scraper.py:79-80 | `replace('-', '')`: no hyphen is left, and every other character keeps its count |
| Text.KeptCounts | agrimarket/scraper.py:79-80 | deleting front to back leaves no hyphen and every other character as often as before |
| Text.RemoveCharAppend | agrimarket/scraper.py:79-80 | removal works piece by piece, so the characters that stay keep their order |
| Text.RemoveCharAbsent | agrimarket/scraper.py:79-80 | a text without a hyphen is left unchanged |
| Text.RemoveCharSingle | agrimarket/scraper.py:79-80 | a lone hyphen disappears; any other lone character stays |
| Text.RemoveCharSeparator | agrimarket/scraper.py:79-80 | removing from `s`, a hyphen, then hyphen-free `t` gives what is kept of `s`, then `t` |
| Text.RemoveCharDate | agrimarket/scraper.py:78-80 | `<day>-<month>-<year>` with hyphen-free parts becomes `<day><month><year>` |
| Text.RemoveCharDateExample | agrimarket/scraper.py:78 | `01-Jan-2020` becomes `01Jan2020` |
| Text.RemoveCharDateExampleEnd | agrimarket/scraper.py:78-80 | `31-Jan-2020` becomes `31Jan2020` |
| Text.NatToDecimal | agrimarket/scraper.py:23-24 | `str(n)`: non-empty, all digits, and no leading zero except for 0 itself |
| Text.IntToDecimal | agrimarket/scraper.py:21 | `str(i)`: integer text, starting with `-` exactly when `i` is negative |
| Text.IntToDecimalRoundTrip | agrimarket/scraper.py:21 | reading back the decimal text of an integer gives the integer |
| FormEncoding.EncodeChar | agrimarket/scraper.py:35 | UTF-8: one to four bytes, a single byte exactly for ASCII, and that byte is the code point |
| FormEncoding.Utf8Encode | agrimarket/scraper.py:35 | `encode("utf-8")`: one to four bytes per character |
| FormEncoding.DecodeEncodedChar | agrimarket/scraper.py:35 | the UTF-8 decoder reads back exactly the character written, and consumes exactly its bytes |
| FormEncoding.Utf8RoundTrip | agrimarket/scraper.py:35 | strict UTF-8 decoding undoes UTF-8 encoding |
| FormEncoding.QuoteByte | agrimarket/scraper.py:35 | one byte becomes one to three characters, all unreserved, `+` or `%` |
| FormEncoding.QuotePlus | agrimarket/scraper.py:35 | `quote_plus`: no space, `&`, `=`, `#` or `?` in the result, which is no shorter than the input |
| FormEncoding.QuotePlusRoundTrip | agrimarket/scraper.py:35 | decoding an encoded value gives the original text |
| FormEncoding.QuotePlusUnreserved | agrimarket/scraper.py:31-33 | a value made only of unreserved characters (`--Select--`, dates, numbers) is written unchanged |
| FormEncoding.QuotePlusAppend | agrimarket/scraper.py:35 | encoding works character by character |
| FormEncoding.SymbolExampleAt | agrimarket/scraper.py:35 | `@#$` is encoded as `%40%23%24` |
| FormEncoding.SymbolExampleStar | agrimarket/scraper.py:35 | `*&^` is encoded as `%2A%26%5E` |
| FormEncoding.SpaceBecomesPlus | agrimarket/scraper.py:35 | a space between two unreserved words becomes `+` |
| FormEncoding.NonAsciiExample | agrimarket/scraper.py:35 | `é` is written as the escapes of its two UTF-8 bytes, `%C3%A9` |
| Query.ToText | agrimarket/scraper.py:20-34 | `str(v)`: a string is kept as it is; an integer's text reads back to that integer |
| Query.EncodePair | agrimarket/scraper.py:35 | one `key=value` piece: exactly one `=`, and no `&`, `#`, space or `?` |
| Query.EncodePairs | agrimarket/scraper.py:35 | one piece per parameter, in insertion order |
| Query.UrlEncode | agrimarket/scraper.py:35 | `urlencode`: no `#`, space or `?`, and exactly `n - 1` `&` for `n` parameters |
| Query.BuildUrl | agrimarket/scraper.py:36 | `"?".join([base, query])`: the base, one `?`, then the query, which holds no `?` |
| Query.BuildUrlParts | agrimarket/scraper.py:36 | for a base without `?`, the URL splits at its only `?` into the base and the query |
| Query.BuildUrlReadsBack | agrimarket/scraper.py:36 | the URL reads back into the base and every parameter's text, in order |
| Query.EncodePairsPlain | agrimarket/scraper.py:35 | keys and values that need no escaping appear in the query as written |
| Query.ParseUrlEncode | agrimarket/scraper.py:35 | parsing an encoded query gives every key with its value's text, in order; no value breaks out of its slot |
| TableExtractor.AllTables | agrimarket/scraper.py:39-41 | `find_all("table")`: only tables of the page, at most one per node, and none for a page without tables |
| TableExtractor.AllTablesAppend | agrimarket/scraper.py:39-41 | finding tables keeps document order and neither adds nor drops any |
| TableExtractor.AllTablesOfTables | agrimarket/scraper.py:39-41 | every table of a page made only of tables is found, in order |
| TableExtractor.AllTablesExample | tests/test_scraper.py:39-52 | two tables with a paragraph between them are both found, in order |
| TableExtractor.TaggedTexts | agrimarket/scraper.py:58-60 | the cell texts of one tag: at most one per cell, each stripped |
| TableExtractor.TaggedTextsAppend | agrimarket/scraper.py:58-60 | the texts of two runs of cells are the texts of each, in order |
| TableExtractor.TaggedTextsUniform | agrimarket/scraper.py:58-60 | in a row whose cells all carry the tag, entry `i` is the stripped text of cell `i` |
| TableExtractor.TaggedTextsUniformAt | agrimarket/scraper.py:58-60 | the same, for one position |
| TableExtractor.TaggedTextsNone | agrimarket/scraper.py:58 | cells with the other tag contribute nothing |
| TableExtractor.Headers | agrimarket/scraper.py:44-49 | the header texts exist exactly when the table has a `tr`; each is stripped; there is at most one per cell of the first `tr` |
| TableExtractor.Rows | agrimarket/scraper.py:52-62 | one list per `tr` after the first; list `i` is the stripped `td` texts of `tr` `i + 1`, in order; every text is stripped |
| TableExtractor.TagTexts | agrimarket/scraper.py:59-60 | the append loop over a row's cells produces exactly `TaggedTexts` |
| TableExtractor.GetTableHeaders | agrimarket/scraper.py:44-49 | the method returns `Headers`; a table without `tr` is the AttributeError case |
| TableExtractor.GetTableRows | agrimarket/scraper.py:52-62 | the nested loops return exactly `Rows`: the stripped `td` texts of each `tr` after the first |
| TableExtractor.HeadersFromFirstRowOnly | agrimarket/scraper.py:47 | the rows after the first never change the headers |
| TableExtractor.SingleRowTable | agrimarket/scraper.py:55 | a table with one `tr` has headers and no data rows |
| TableExtractor.HeaderCellsNotData | agrimarket/scraper.py:58 | a body row made only of `th` cells gives an empty data row |
| TableExtractor.HeaderRowTexts | agrimarket/scraper.py:47-48 | a `th` row built from trimmed texts gives those texts back |
| TableExtractor.DataRowTexts | agrimarket/scraper.py:58-60 | a `td` row built from trimmed texts gives those texts back |
| TableExtractor.TableReadBack | agrimarket/scraper.py:44-62 | a table built from a `th` row and `td` rows of stripped texts gives back exactly those headers and rows |
| TableExtractor.HeadersExample | tests/test_scraper.py:56-75 | three `th` cells give `["Header 1", "Header 2", "Header 3"]` |
| TableExtractor.RowsExample | tests/test_scraper.py:78-101 | three body rows of two cells give the three two-item lists, in order |
| CsvStore.RenderReadBack | agrimarket/scraper.py:94-95 | a written line reads back into its cells when no cell holds a comma |
| CsvStore.PadRow | agrimarket/scraper.py:94 | a row narrower than the headers is filled with empty cells up to their width; its own cells stay first |
| CsvStore.PadRows | agrimarket/scraper.py:94 | every row of the table is padded, in order |
| CsvStore.PadRowsFull | agrimarket/scraper.py:94 | rows already as wide as the headers are written as they are |
| CsvStore.TableLines | agrimarket/scraper.py:93-96 | one `to_csv` call: the header line exactly when the file is empty and then only first; one line per row; the data rows are the rows padded to the header width |
| CsvStore.WriteTableEffect | agrimarket/scraper.py:93-99 | one table: the file exists afterwards; no other file changes; a rejected table adds nothing; an accepted one adds its rows plus the header line if the file was empty |
| CsvStore.WriteTableWellFormed | agrimarket/scraper.py:93-96 | one table keeps a file with at most one header line, first, in that shape |
| CsvStore.SaveTables | agrimarket/scraper.py:65-100 | `save_as_csv`: no file disappears, and the file exists afterwards once the first table has a `tr` |
| CsvStore.AcceptedRows | agrimarket/scraper.py:71-99 | the rows that reach the file: every cell is stripped text or padding |
| CsvStore.SaveTablesFile | agrimarket/scraper.py:65-100 | what `save_as_csv` leaves in its file depends only on what that file held before |
| CsvStore.SaveFileRecords | agrimarket/scraper.py:71-99 | from any starting lines, the file gains exactly the padded rows of the accepted tables, in page order, up to the first table without `tr` |
| CsvStore.SaveTablesOtherPaths | agrimarket/scraper.py:65-100 | `save_as_csv` touches no file but its own |
| CsvStore.SaveTablesAppendOnly | agrimarket/scraper.py:93 | the file's old contents are a prefix of its new contents |
| CsvStore.SaveTablesExtends | agrimarket/scraper.py:65-100 | no file is removed or rewritten |
| CsvStore.SaveTablesWellFormed | agrimarket/scraper.py:94-95 | however many tables are written, the file keeps at most one header line, at the top |
| CsvStore.SaveTablesRecords | agrimarket/scraper.py:71-99 | the file gains exactly the padded rows of the accepted tables, in page order, up to the first table without `tr` |
| CsvStore.SaveTablesCompletes | agrimarket/scraper.py:73 | the call returns normally exactly when every table has a `tr` |
| CsvStore.FirstWriteHeader | agrimarket/scraper.py:94-95 | the first table written to an empty file puts its header line first |
| CsvStore.FileSystem.Open | agrimarket/scraper.py:93 | `open(path, "ab")` creates the file if needed and leaves its contents alone |
| CsvStore.FileSystem.AtStart | agrimarket/scraper.py:95 | `f.tell() == 0` holds exactly when the file is empty |
| CsvStore.FileSystem.Append | agrimarket/scraper.py:94-96 | the lines go at the end of the file, and nothing else changes |
| CsvStore.WriteOne | agrimarket/scraper.py:93-99 | opening, testing the position and appending leave the files as `WriteTable` says |
| CsvStore.WriteTables | agrimarket/scraper.py:71-99 | the loop of `save_as_csv` leaves the files and the completion flag as `SaveTables` says |
| Orchestrator.Attempt | agrimarket/scraper.py:129-139 | one unit: a fetch error exactly when the request failed, and then no file changes; otherwise saved exactly when every table of the page has a `tr` |
| Orchestrator.AttemptStatus | agrimarket/scraper.py:129-139 | how a unit ends depends on the answer to its own request alone |
| Orchestrator.Step | agrimarket/scraper.py:127-139 | one unit adds one report, for that unit's label and URL, and keeps the earlier reports |
| Orchestrator.Run | agrimarket/scraper.py:121-139 | one report per unit |
| Orchestrator.UnitsOf | src/agrimarket/scraper.py:97-98 | the single loop: element `i` gives unit `i` |
| Orchestrator.RowUnits | agrimarket/scraper.py:126-127 | the inner loop: commodity `j` gives unit `j` of the row |
| Orchestrator.GridUnits | agrimarket/scraper.py:121-127 | the nested loops make one row of units per outer element, each as long as the inner list |
| Orchestrator.GridUnitsCount | agrimarket/scraper.py:121-127 | one unit per pair: as many units as the two lists' lengths multiplied |
| Orchestrator.GridUnitsAt | agrimarket/scraper.py:121-127 | the nested loops: outer element `i` with inner element `j` is unit `i * width + j` |
| Orchestrator.RunAppend | agrimarket/scraper.py:121-139 | running two lists of units one after the other is running their concatenation |
| Orchestrator.RunSnoc | agrimarket/scraper.py:121-139 | one more unit at the end of the list is one more step after the rest of the run |
| Orchestrator.ProcessUnit | agrimarket/scraper.py:129-139 | the `try` and both `except` clauses for one unit are one `Step` of the run |
| Orchestrator.RunEach | src/agrimarket/scraper.py:97-110 | the single loop leaves the files and reports of `Run` over its units |
| Orchestrator.RunRow | agrimarket/scraper.py:126-139 | the inner loop leaves the files and reports of `Run` over its row |
| Orchestrator.RunGrid | agrimarket/scraper.py:121-139 | the nested loops leave the files and reports of `Run` over all units |
| Orchestrator.RunReports | agrimarket/scraper.py:121-139 | every unit is attempted once, in order: report `i` names unit `i`'s label and URL; it is a fetch error exactly when its own request failed, and otherwise saved exactly when every table of its own page has a `tr` |
| Orchestrator.StepReport | agrimarket/scraper.py:127-139 | one unit appends one report, with the status its own answer calls for |
| Orchestrator.RunEachReports | src/agrimarket/scraper.py:97-110 | `RunReports` for the single loop, element by element, statuses included |
| Orchestrator.RunReportAt | agrimarket/scraper.py:121-139 | report `m` of a fresh run is about unit `m`, with the status its own answer calls for |
| Orchestrator.RunEachReportAt | src/agrimarket/scraper.py:97-110 | report `n` of a fresh single-loop run is about element `n`, with the status its own answer calls for |
| Orchestrator.StepExtends | agrimarket/scraper.py:129-139 | one unit never removes or rewrites a file |
| Orchestrator.RunExtends | agrimarket/scraper.py:121-139 | a whole run never removes or rewrites a file |
| Orchestrator.StepWellFormed | agrimarket/scraper.py:133 | one unit keeps every file to at most one header line, at the top |
| Orchestrator.RunWellFormed | agrimarket/scraper.py:121-139 | a whole run keeps every file to at most one header line, at the top |
| Orchestrator.StepPathWellFormed | agrimarket/scraper.py:93-95 | one unit keeps any one well-formed file well formed |
| Orchestrator.RunPathWellFormed | agrimarket/scraper.py:121-139 | a file that starts well formed ends well formed, whatever the other files hold |
| Orchestrator.StepOtherPaths | agrimarket/scraper.py:129-139 | a unit touches no file but its own |
| Orchestrator.RunOtherPaths | agrimarket/scraper.py:121-139 | a file that no unit of the run is for keeps its lines, and exists afterwards exactly when it did before |
| Orchestrator.AttemptFile | agrimarket/scraper.py:129-134 | a unit leaves its own file as `UnitEffect` of the lines it held and its own answer |
| Orchestrator.StepOwnFile | agrimarket/scraper.py:129-134 | the reported step leaves its unit's file as `UnitEffect` of what the file held, for the answer at its own position |
| Orchestrator.UnitEffectRecords | agrimarket/scraper.py:129-134 | a unit adds to its file's data rows exactly the padded rows of its page's accepted tables; none when its request failed |
| Orchestrator.RunUnitFile | agrimarket/scraper.py:121-139 | when no other unit shares its file, unit `k` leaves that file exactly as it would on its own, from what the file held at the start |
| Orchestrator.RunUnitRecords | agrimarket/scraper.py:121-139 | when no other unit shares its file, that file gains exactly the rows of unit `k`'s own page, in order |
| Orchestrator.OneTableStep | agrimarket/scraper.py:129-134 | a unit whose page holds one accepted table, for a new file, writes the header and rows there and reports success |
| Orchestrator.TwoOneTableUnits | agrimarket/scraper.py:121-139 | two such units with different files: exactly those two files are created, and both are reported saved, in order |
| Orchestrator.TwoOneTableElements | src/agrimarket/scraper.py:97-110 | the same through the single loop |
| Orchestrator.TwoOneTableRow | agrimarket/scraper.py:126-139 | the same through the nested loops, for one outer element |
| Orchestrator.FailedFetchesWriteNothing | agrimarket/scraper.py:136-137 | when every request fails, no file changes |
| Orchestrator.FailedStepWritesNothing | agrimarket/scraper.py:130-137 | a unit whose request failed leaves every file as it was |
| DatedScraper.BaseUrlHasNoQuery | agrimarket/scraper.py:19 | the search page holds no `?` |
| DatedScraper.GetUrl | agrimarket/scraper.py:17-36 | `get_url`: the search page, one `?`, then a query with no further `?` |
| DatedScraper.GetUrlReadsBack | agrimarket/scraper.py:17-36 | the URL is the search page, one `?`, and a query that decodes to the thirteen parameters in order |
| DatedScraper.GetUrlDistinguishes | agrimarket/scraper.py:17-36 | equal URLs mean equal code text, label and dates |
| DatedScraper.SearchPiecesPlain | agrimarket/scraper.py:20-34 | the thirteen `key=value` pieces in insertion order, before escaping |
| DatedScraper.GetUrlUnreserved | agrimarket/scraper.py:17-36 | with a label and dates that need no escaping, the URL is the page, `?`, and the plain pieces joined by `&` |
| DatedScraper.PathJoin | agrimarket/scraper.py:87 | `os.path.join`: an absolute second part replaces the first; otherwise the first part, one `/` unless it is empty or already ends with one, then the second part |
| DatedScraper.DatedFileName | agrimarket/scraper.py:79-91 | the name starts with `Agri_Data_` and the label, ends in `.csv`, and has no hyphen after the label |
| DatedScraper.DatedFileNameDates | agrimarket/scraper.py:78-91 | for dates `<day>-<month>-<year>` with hyphen-free parts, the name is exactly `Agri_Data_<label>_<day><month><year>_<day><month><year>.csv`, the start date first |
| DatedScraper.DatedFileNameExample | agrimarket/scraper.py:78-91 | wheat from `01-Jan-2020` to `31-Jan-2020` is saved as `Agri_Data_Wheat_01Jan2020_31Jan2020.csv` |
| DatedScraper.DatedPath | agrimarket/scraper.py:83-91 | the path ends with the file name, and lies under `./data/scraped_data` unless the label is absolute |
| DatedScraper.DatedPathShape | agrimarket/scraper.py:83-91 | the file is `./data/scraped_data/<label>/Agri_Data_<label>_<from>_<to>.csv` |
| DatedScraper.DatedPathSeparatesCommodities | agrimarket/scraper.py:87-91 | labels without `/` never share a file, whatever the dates |
| DatedScraper.SaveAsCsv | agrimarket/scraper.py:65-100 | every table of the page, in order, to the label's and dates' file, as `SaveTables` says |
| DatedScraper.DatedUnit | agrimarket/scraper.py:126-133 | builder: packs one (date range, commodity) pair into a unit with its label, its `get_url` and its dated file; what the run does with it is stated by `ScraperRuns.DatedUnitAt` |
| DatedScraper.RunScraper | agrimarket/scraper.py:121-139 | the nested loops of `main` leave the files and reports of `Run` over the date ranges and commodities |
| Jan2020Scraper.GetUrlFixedDates | src/agrimarket/scraper.py:16-35 | the query decodes to the thirteen parameters, with all four dates fixed to January 2020 |
| Jan2020Scraper.GetUrl | src/agrimarket/scraper.py:16-35 | `get_url`: the search page, one `?`, then a query with no further `?` |
| Jan2020Scraper.GetUrlPlain | src/agrimarket/scraper.py:16-35 | with a label that needs no escaping, the URL is the page, `?`, and the plain pieces joined by `&` |
| Jan2020Scraper.GetUrlWheat | tests/test_scraper.py:17-21 | the URL for commodity 1, Wheat |
| Jan2020Scraper.GetUrlRice | tests/test_scraper.py:22-26 | the URL for commodity 2, Rice |
| Jan2020Scraper.GetUrlJowar | tests/test_scraper.py:27-31 | the URL for commodity 3, Jowar |
| Jan2020Scraper.JanuaryPath | src/agrimarket/scraper.py:77 | the file is `./data/Agri_Data_`, then the label, then `_Jan_2020.csv` |
| Jan2020Scraper.JanuaryPathSeparatesCommodities | src/agrimarket/scraper.py:77 | different labels never share a file |
| Jan2020Scraper.SaveAsCsv | src/agrimarket/scraper.py:64-84 | every table of the page, in order, to the label's file, as `SaveTables` says |
| Jan2020Scraper.JanuaryUnit | src/agrimarket/scraper.py:97-105 | builder: packs one commodity row into a unit with its label, its `get_url` and its January file; what the run does with it is stated by `ScraperRuns.JanuaryReports` |
| Jan2020Scraper.RunScraper | src/agrimarket/scraper.py:97-110 | the loop of `main` leaves the files and reports of `Run` over the commodities |
| ScraperRuns.JanuaryReports | tests/test_scraper.py:156-165 | report `n` names row `n`'s label and the URL built from that row, with the status the answer to that URL calls for |
| ScraperRuns.DatedUnitAt | agrimarket/scraper.py:121-127 | unit `i * width + j` fetches commodity `j` for date range `i` and writes to that pair's file |
| ScraperRuns.JanuaryTwoCommodities | src/agrimarket/scraper.py:97-110 | two rows with different labels, each answered with one table: two new files, each holding the header once and then the rows, both reported saved, in order |
| ScraperRuns.DatedTwoCommodities | agrimarket/scraper.py:121-139 | the same for two commodities in one date range, each under its own directory |

## Left out

- HTTP (`requests.get` and `raise_for_status`) is a parameter. It maps the
  position of the request in the run and the URL to a parsed page or a
  request failure. Time-outs, retries and response bodies are not modelled.
- HTML parsing (`BeautifulSoup(..., "html.parser")` and `get_soup`): a page
  arrives as a sequence of top-level nodes. A table is its `tr` rows, with
  `thead`/`tbody` flattened. A cell is its tag and its `.text`. Other
  elements carry no children: a table inside another element (a `div`, say),
  which `find_all("table")` finds by searching the whole tree, is given as a
  top-level node in document order. Nested tables and text outside cells are
  not modelled.
- The pandas rule for when `pd.DataFrame(rows, columns=headers)` raises
  ValueError is a parameter (`ShapeRule`). What a DataFrame accepts is not
  restated; the padding of short rows with empty cells in an accepted
  table is modelled (`CsvStore.PadRow`).
- `to_csv` quoting and escaping: a line is its cells joined by commas, so a
  cell holding a comma or a newline is not quoted. The round trip is stated
  only for cells without commas.
- `os.makedirs` and `open`: the file system is a map from path to lines,
  with no directories, and opening a file always succeeds. In the source a
  label holding `/` names a sub-directory that `save_as_csv` never creates,
  so `open` raises FileNotFoundError and `main` reports the commodity as
  failed; the January copy likewise fails when `./data` is missing. The
  model writes the file in both cases, so `ScraperRuns.JanuaryTwoCommodities`
  and `ScraperRuns.DatedTwoCommodities` describe the source only for labels
  without `/` and an existing data directory.
- `pd.read_csv` of the commodity and date lists: the model takes the rows
  as sequences. A missing or malformed input file (fatal in the source) is
  not modelled.
- `time.time` and the printed text: a report holds the label, the URL and
  how the unit ended, not the message wording or the exception text.
- `main_with_selenium` and `get_soup` in both copies: browser automation
  and pagination are not modelled.
- Parameter values other than Python `int` and `str`, such as a float code
  read by pandas: `str` of a float is not modelled.
- Jan2020Scraper.GetUrlWheat: states the expected URL as the page, `?` and the
  thirteen pieces joined by `&`, not as one literal string.
- Jan2020Scraper.GetUrlRice: states the expected URL as the page, `?` and the
  thirteen pieces joined by `&`, not as one literal string.
- Jan2020Scraper.GetUrlJowar: states the expected URL as the page, `?` and the
  thirteen pieces joined by `&`, not as one literal string.
- Orchestrator.Run: its own contract counts the reports only. Each report,
  status included, is stated by `RunReports`. A unit's own file is stated
  by `RunUnitFile` and `RunUnitRecords` only when no other unit of the run
  shares that file; two units writing one file are covered by
  `RunWellFormed` and `RunPathWellFormed`, not by their exact lines. Files
  no unit is for are stated by `RunOtherPaths`.
