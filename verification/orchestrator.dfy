/**
 * The body shared by both `main` loops: for each unit of work (one
 * commodity, and in the dated copy one date range), build the URL, fetch it
 * once, parse it and save its tables.  Every exception is caught at the unit
 * boundary, so a failing unit is reported and the loop goes on with the next.
 *
 * The HTTP layer is an oracle: given the position of the request in the run
 * and the URL, it returns either a parsed page or a request failure (any
 * `requests.exceptions.RequestException`, including the HTTPError that
 * `raise_for_status` raises).
 */
module Orchestrator {
  import opened TableExtractor
  import opened CsvStore

  datatype Response = Page(doc: Document) | RequestFailed

  /** `requests.get(url)` for the request made at a given position of the run. */
  type Fetcher = (nat, string) -> Response

  /** One iteration of `main`: what is fetched and where its tables go. */
  datatype Unit = Unit(head: string, url: string, path: Path)

  /**
   * How a unit ended: saved; caught as a `RequestException`; or caught by
   * the catch-all `except Exception` (a table without rows).
   */
  datatype Status = Saved | FetchError | ProcessingError

  /** The message `main` prints for a unit. */
  datatype Report = Report(head: string, url: string, status: Status)

  /** The files on disk and the reports printed so far. */
  datatype RunState = RunState(files: map<Path, seq<Line>>, log: seq<Report>)

  /** What one unit leaves behind: the files, and how it ended. */
  datatype Outcome = Outcome(files: map<Path, seq<Line>>, status: Status)

  /**
   * How a unit ends, read off the answer to its request alone: a fetch error
   * when the request failed; saved when every table of the page has a `tr`;
   * otherwise caught by the catch-all, since `get_table_headers` raised.
   */
  function StatusOf(r: Response): Status
  {
    match r
    case RequestFailed => FetchError
    case Page(doc) => if forall t :: t in AllTables(doc.nodes) ==> t.rows != [] then Saved else ProcessingError
  }

  /**
   * One unit, made as the request at position `index` of the run: one fetch,
   * then one save of every table of the page.
   */
  function Attempt(files: map<Path, seq<Line>>, index: nat, u: Unit, fetch: Fetcher,
                   accepts: ShapeRule): (r: Outcome)
    ensures r.status == FetchError <==> fetch(index, u.url).RequestFailed?
    ensures fetch(index, u.url).RequestFailed? ==> r.files == files
    ensures fetch(index, u.url).Page? ==>
              (r.status == Saved <==> forall t :: t in AllTables(fetch(index, u.url).doc.nodes) ==> t.rows != [])
  {
    match fetch(index, u.url)
    case RequestFailed => Outcome(files, FetchError)
    case Page(doc) =>
      var tables := AllTables(doc.nodes);
      var out := SaveTables(files, u.path, tables, accepts);
      SaveTablesCompletes(files, u.path, tables, accepts);
      assert (forall t :: t in tables ==> t.rows != []) <==> (forall i :: 0 <= i < |tables| ==> tables[i].rows != []);
      Outcome(out.files, if out.completed then Saved else ProcessingError)
  }

  /** The status `Attempt` reports is the one the answer alone calls for. */
  lemma AttemptStatus(files: map<Path, seq<Line>>, index: nat, u: Unit, fetch: Fetcher, accepts: ShapeRule)
    ensures Attempt(files, index, u, fetch, accepts).status == StatusOf(fetch(index, u.url))
  {
  }

  /** One unit, reported in the log. */
  function Step(st: RunState, u: Unit, fetch: Fetcher, accepts: ShapeRule): (r: RunState)
    ensures |r.log| == |st.log| + 1 && r.log[..|st.log|] == st.log
    ensures r.log[|st.log|].head == u.head && r.log[|st.log|].url == u.url
  {
    var o := Attempt(st.files, |st.log|, u, fetch, accepts);
    RunState(o.files, st.log + [Report(u.head, u.url, o.status)])
  }

  /** The units in order, each started from where the previous one left off. */
  function Run(st: RunState, units: seq<Unit>, fetch: Fetcher, accepts: ShapeRule): (r: RunState)
    ensures |r.log| == |st.log| + |units|
    decreases |units|
  {
    if |units| == 0 then st
    else Step(Run(st, units[..|units| - 1], fetch, accepts), units[|units| - 1], fetch, accepts)
  }

  lemma RunSnoc(st: RunState, units: seq<Unit>, u: Unit, fetch: Fetcher, accepts: ShapeRule)
    ensures Run(st, units + [u], fetch, accepts) == Step(Run(st, units, fetch, accepts), u, fetch, accepts)
  {
    assert (units + [u])[..|units|] == units;
  }

  // ---------------------------------------------------------------------
  // The order in which the loops of main visit their units

  /** One unit per element, in order: the single loop of the January copy. */
  function UnitsOf<T>(xs: seq<T>, mk: T -> Unit): (r: seq<Unit>)
    ensures |r| == |xs|
    ensures forall i :: 0 <= i < |xs| ==> r[i] == mk(xs[i])
    decreases |xs|
  {
    if |xs| == 0 then [] else UnitsOf(xs[..|xs| - 1], mk) + [mk(xs[|xs| - 1])]
  }

  lemma UnitsOfSnoc<T>(xs: seq<T>, x: T, mk: T -> Unit)
    ensures UnitsOf(xs + [x], mk) == UnitsOf(xs, mk) + [mk(x)]
  {
    assert (xs + [x])[..|xs|] == xs;
  }

  /** The inner loop of the dated copy: one unit per commodity, for a fixed date range. */
  function RowUnits<A, B>(a: A, bs: seq<B>, mk: (A, B) -> Unit): (r: seq<Unit>)
    ensures |r| == |bs|
    ensures forall j :: 0 <= j < |bs| ==> r[j] == mk(a, bs[j])
    decreases |bs|
  {
    if |bs| == 0 then [] else RowUnits(a, bs[..|bs| - 1], mk) + [mk(a, bs[|bs| - 1])]
  }

  lemma RowUnitsSnoc<A, B>(a: A, bs: seq<B>, j: nat, mk: (A, B) -> Unit)
    requires j < |bs|
    ensures RowUnits(a, bs[..j + 1], mk) == RowUnits(a, bs[..j], mk) + [mk(a, bs[j])]
  {
    assert bs[..j + 1][..j] == bs[..j];
  }

  /** The nested loops of the dated copy: the outer list outermost. */
  function GridUnits<A, B>(outer: seq<A>, inner: seq<B>, mk: (A, B) -> Unit): (r: seq<Unit>)
    ensures |r| == RowStart(|outer|, |inner|)
    decreases |outer|
  {
    if |outer| == 0 then [] else GridUnits(outer[..|outer| - 1], inner, mk) + RowUnits(outer[|outer| - 1], inner, mk)
  }

  lemma GridUnitsSnoc<A, B>(outer: seq<A>, i: nat, inner: seq<B>, mk: (A, B) -> Unit)
    requires i < |outer|
    ensures GridUnits(outer[..i + 1], inner, mk) == GridUnits(outer[..i], inner, mk) + RowUnits(outer[i], inner, mk)
  {
    assert outer[..i + 1][..i] == outer[..i];
  }

  /**
   * Where the units of outer element `i` start when every row has `width`
   * units: `i * width`, counted row by row (see `RowStartIsProduct`).
   */
  function RowStart(i: nat, width: nat): nat
  {
    if i == 0 then 0 else RowStart(i - 1, width) + width
  }

  lemma {:induction false} RowStartIsProduct(i: nat, width: nat)
    ensures RowStart(i, width) == i * width
  {
    if i > 0 {
      RowStartIsProduct(i - 1, width);
      assert (i - 1) * width + width == i * width;
    }
  }

  /** A later row starts after the whole of an earlier one. */
  lemma {:induction false} RowStartGrows(i: nat, n: nat, width: nat)
    requires i < n
    ensures RowStart(i, width) + width <= RowStart(n, width)
  {
    if i + 1 < n {
      RowStartGrows(i, n - 1, width);
    }
  }

  /** The nested loops make one unit per pair: `|outer| * |inner|` in all. */
  lemma GridUnitsCount<A, B>(outer: seq<A>, inner: seq<B>, mk: (A, B) -> Unit)
    ensures |GridUnits(outer, inner, mk)| == |outer| * |inner|
  {
    RowStartIsProduct(|outer|, |inner|);
  }

  /**
   * The nested loops visit every pair exactly once, outer element by outer
   * element: the unit at `RowStart(i, |inner|) + j` is the pair of
   * `outer[i]` and `inner[j]`.
   */
  lemma {:induction false} GridUnitsAt<A, B>(outer: seq<A>, inner: seq<B>, mk: (A, B) -> Unit, i: nat, j: nat)
    requires i < |outer| && j < |inner|
    ensures |GridUnits(outer, inner, mk)| == RowStart(|outer|, |inner|)
    ensures RowStart(i, |inner|) + j < |GridUnits(outer, inner, mk)|
    ensures GridUnits(outer, inner, mk)[RowStart(i, |inner|) + j] == mk(outer[i], inner[j])
    decreases |outer|
  {
    var n := |outer| - 1;
    if i < n {
      RowStartGrows(i, n, |inner|);
      GridUnitsAt(outer[..n], inner, mk, i, j);
      GridUnitsEarlierRow(outer, inner, mk, RowStart(i, |inner|) + j);
      assert outer[..n][i] == outer[i];
    } else {
      GridUnitsLastRow(outer, inner, mk, j);
    }
  }

  /** The units before the last outer element's row are those of the shorter grid. */
  lemma GridUnitsEarlierRow<A, B>(outer: seq<A>, inner: seq<B>, mk: (A, B) -> Unit, k: nat)
    requires |outer| > 0 && k < RowStart(|outer| - 1, |inner|)
    ensures k < |GridUnits(outer, inner, mk)|
    ensures GridUnits(outer, inner, mk)[k] == GridUnits(outer[..|outer| - 1], inner, mk)[k]
  {
    var before := GridUnits(outer[..|outer| - 1], inner, mk);
    var row := RowUnits(outer[|outer| - 1], inner, mk);
    assert (before + row)[k] == before[k];
  }

  /** The last outer element's row closes the grid. */
  lemma GridUnitsLastRow<A, B>(outer: seq<A>, inner: seq<B>, mk: (A, B) -> Unit, j: nat)
    requires |outer| > 0 && j < |inner|
    ensures RowStart(|outer| - 1, |inner|) + j < |GridUnits(outer, inner, mk)|
    ensures GridUnits(outer, inner, mk)[RowStart(|outer| - 1, |inner|) + j] == mk(outer[|outer| - 1], inner[j])
  {
    var before := GridUnits(outer[..|outer| - 1], inner, mk);
    var row := RowUnits(outer[|outer| - 1], inner, mk);
    assert (before + row)[|before| + j] == row[j];
  }

  /** Running two lists of units one after the other is running their concatenation. */
  lemma {:induction false} RunAppend(st: RunState, a: seq<Unit>, b: seq<Unit>, fetch: Fetcher, accepts: ShapeRule)
    ensures Run(st, a + b, fetch, accepts) == Run(Run(st, a, fetch, accepts), b, fetch, accepts)
    decreases |b|
  {
    if |b| == 0 {
      assert a + b == a;
    } else {
      var n := |b| - 1;
      assert (a + b)[..|a + b| - 1] == a + b[..n];
      RunAppend(st, a, b[..n], fetch, accepts);
    }
  }

  /** Entering the single loop: no unit has run yet. */
  lemma RunUnitsStart<T>(st: RunState, xs: seq<T>, mk: T -> Unit, fetch: Fetcher, accepts: ShapeRule)
    ensures Run(st, UnitsOf(xs[..0], mk), fetch, accepts) == st
    ensures Run(st, UnitsOf(xs[..|xs|], mk), fetch, accepts) == Run(st, UnitsOf(xs, mk), fetch, accepts)
  {
    assert xs[..|xs|] == xs;
  }

  /** One turn of the single loop runs the next unit. */
  lemma RunUnitsStep<T>(st: RunState, xs: seq<T>, j: nat, mk: T -> Unit, fetch: Fetcher, accepts: ShapeRule)
    requires j < |xs|
    ensures Run(st, UnitsOf(xs[..j + 1], mk), fetch, accepts)
         == Step(Run(st, UnitsOf(xs[..j], mk), fetch, accepts), mk(xs[j]), fetch, accepts)
  {
    assert xs[..j + 1] == xs[..j] + [xs[j]];
    UnitsOfSnoc(xs[..j], xs[j], mk);
    RunSnoc(st, UnitsOf(xs[..j], mk), mk(xs[j]), fetch, accepts);
  }

  /** Entering and leaving the inner loop of the nested pair. */
  lemma RunRowEnds<A, B>(st: RunState, a: A, inner: seq<B>, mk: (A, B) -> Unit, fetch: Fetcher, accepts: ShapeRule)
    ensures Run(st, RowUnits(a, inner[..0], mk), fetch, accepts) == st
    ensures Run(st, RowUnits(a, inner[..|inner|], mk), fetch, accepts) == Run(st, RowUnits(a, inner, mk), fetch, accepts)
  {
    assert inner[..|inner|] == inner;
  }

  /** One turn of the inner loop runs the next unit of the row. */
  lemma RunRowStep<A, B>(st: RunState, a: A, inner: seq<B>, j: nat, mk: (A, B) -> Unit,
                         fetch: Fetcher, accepts: ShapeRule)
    requires j < |inner|
    ensures Run(st, RowUnits(a, inner[..j + 1], mk), fetch, accepts)
         == Step(Run(st, RowUnits(a, inner[..j], mk), fetch, accepts), mk(a, inner[j]), fetch, accepts)
  {
    RowUnitsSnoc(a, inner, j, mk);
    RunSnoc(st, RowUnits(a, inner[..j], mk), mk(a, inner[j]), fetch, accepts);
  }

  /** Entering and leaving the outer loop. */
  lemma RunGridEnds<A, B>(st: RunState, outer: seq<A>, inner: seq<B>, mk: (A, B) -> Unit,
                          fetch: Fetcher, accepts: ShapeRule)
    ensures Run(st, GridUnits(outer[..0], inner, mk), fetch, accepts) == st
    ensures Run(st, GridUnits(outer[..|outer|], inner, mk), fetch, accepts) == Run(st, GridUnits(outer, inner, mk), fetch, accepts)
  {
    assert outer[..|outer|] == outer;
  }

  /** One turn of the outer loop runs the whole row of the next outer element. */
  lemma RunGridStep<A, B>(st: RunState, outer: seq<A>, i: nat, inner: seq<B>, mk: (A, B) -> Unit,
                          fetch: Fetcher, accepts: ShapeRule)
    requires i < |outer|
    ensures Run(st, GridUnits(outer[..i + 1], inner, mk), fetch, accepts)
         == Run(Run(st, GridUnits(outer[..i], inner, mk), fetch, accepts), RowUnits(outer[i], inner, mk), fetch, accepts)
  {
    GridUnitsSnoc(outer, i, inner, mk);
    RunAppend(st, GridUnits(outer[..i], inner, mk), RowUnits(outer[i], inner, mk), fetch, accepts);
  }

  /** A unit whose outcome and report match `Attempt` is one `Step` of the run. */
  lemma StepOfReport(before: RunState, u: Unit, files: map<Path, seq<Line>>, report: Report,
                     fetch: Fetcher, accepts: ShapeRule)
    requires Outcome(files, report.status) == Attempt(before.files, |before.log|, u, fetch, accepts)
    requires report.head == u.head && report.url == u.url
    ensures RunState(files, before.log + [report]) == Step(before, u, fetch, accepts)
  {
  }

  // ---------------------------------------------------------------------
  // The loops of main

  /**
   * The `try` block of `main` for one unit, with both of its `except`
   * clauses: fetch the unit's URL as the next request, save every table of
   * the page to the unit's file, and report how the unit ended.  This is one
   * `Step` of the run that has printed `log` so far.
   */
  method ProcessUnit(fs: FileSystem, log: seq<Report>, u: Unit, fetch: Fetcher, accepts: ShapeRule)
    returns (report: Report)
    modifies fs
    ensures report.head == u.head && report.url == u.url
    ensures RunState(fs.files, log + [report]) == Step(RunState(old(fs.files), log), u, fetch, accepts)
  {
    ghost var before := RunState(fs.files, log);
    var response := fetch(|log|, u.url);
    if response.RequestFailed? {
      report := Report(u.head, u.url, FetchError);
    } else {
      var completed := WriteTables(fs, u.path, AllTables(response.doc.nodes), accepts);
      report := Report(u.head, u.url, if completed then Saved else ProcessingError);
    }
    StepOfReport(before, u, fs.files, report, fetch, accepts);
  }

  /**
   * A single loop of `main`: the unit `mk` builds for each element, in list
   * order, continuing the run that has printed `log` so far.
   */
  method RunEach<T>(fs: FileSystem, xs: seq<T>, mk: T -> Unit, log: seq<Report>, fetch: Fetcher, accepts: ShapeRule)
    returns (reports: seq<Report>)
    modifies fs
    ensures RunState(fs.files, reports) == Run(RunState(old(fs.files), log), UnitsOf(xs, mk), fetch, accepts)
  {
    ghost var start := RunState(fs.files, log);
    RunUnitsStart(start, xs, mk, fetch, accepts);
    reports := log;
    var j := 0;
    while j < |xs|
      invariant 0 <= j <= |xs|
      invariant RunState(fs.files, reports) == Run(start, UnitsOf(xs[..j], mk), fetch, accepts)
    {
      var u := mk(xs[j]);
      var report := ProcessUnit(fs, reports, u, fetch, accepts);
      RunUnitsStep(start, xs, j, mk, fetch, accepts);
      reports := reports + [report];
      j := j + 1;
    }
  }

  /** The inner loop of the nested pair: every inner element, for one outer element. */
  method RunRow<A, B>(fs: FileSystem, a: A, inner: seq<B>, mk: (A, B) -> Unit, log: seq<Report>,
                      fetch: Fetcher, accepts: ShapeRule)
    returns (reports: seq<Report>)
    modifies fs
    ensures RunState(fs.files, reports) == Run(RunState(old(fs.files), log), RowUnits(a, inner, mk), fetch, accepts)
  {
    ghost var start := RunState(fs.files, log);
    RunRowEnds(start, a, inner, mk, fetch, accepts);
    reports := log;
    var j := 0;
    while j < |inner|
      invariant 0 <= j <= |inner|
      invariant RunState(fs.files, reports) == Run(start, RowUnits(a, inner[..j], mk), fetch, accepts)
    {
      var u := mk(a, inner[j]);
      var report := ProcessUnit(fs, reports, u, fetch, accepts);
      RunRowStep(start, a, inner, j, mk, fetch, accepts);
      reports := reports + [report];
      j := j + 1;
    }
  }

  /** The nested loops of `main`: for each outer element, the inner loop. */
  method RunGrid<A, B>(fs: FileSystem, outer: seq<A>, inner: seq<B>, mk: (A, B) -> Unit,
                       fetch: Fetcher, accepts: ShapeRule)
    returns (reports: seq<Report>)
    modifies fs
    ensures RunState(fs.files, reports) == Run(RunState(old(fs.files), []), GridUnits(outer, inner, mk), fetch, accepts)
  {
    ghost var start := RunState(fs.files, []);
    RunGridEnds(start, outer, inner, mk, fetch, accepts);
    reports := [];
    var i := 0;
    while i < |outer|
      invariant 0 <= i <= |outer|
      invariant RunState(fs.files, reports) == Run(start, GridUnits(outer[..i], inner, mk), fetch, accepts)
    {
      reports := RunRow(fs, outer[i], inner, mk, reports, fetch, accepts);
      RunGridStep(start, outer, i, inner, mk, fetch, accepts);
      i := i + 1;
    }
  }

  // ---------------------------------------------------------------------
  // Properties of a run

  /**
   * Every unit is attempted exactly once, in input order, whatever happens to
   * the others: the run prints one report per unit, for that unit's URL, and
   * how a unit ends depends only on the answer to its own request.
   */
  lemma {:induction false} RunReports(st: RunState, units: seq<Unit>, fetch: Fetcher, accepts: ShapeRule)
    ensures var log := Run(st, units, fetch, accepts).log;
            |log| == |st.log| + |units| && log[..|st.log|] == st.log
    ensures var log := Run(st, units, fetch, accepts).log;
            forall i :: 0 <= i < |units| ==>
              log[|st.log| + i].head == units[i].head && log[|st.log| + i].url == units[i].url
              && log[|st.log| + i].status == StatusOf(fetch(|st.log| + i, units[i].url))
    decreases |units|
  {
    if |units| > 0 {
      var n := |units| - 1;
      RunReports(st, units[..n], fetch, accepts);
      var mid := Run(st, units[..n], fetch, accepts);
      assert Run(st, units, fetch, accepts) == Step(mid, units[n], fetch, accepts);
      StepReport(mid, units[n], fetch, accepts);
      var log := Run(st, units, fetch, accepts).log;
      assert log[..|st.log|] == mid.log[..|st.log|];
      forall i | 0 <= i < |units|
        ensures log[|st.log| + i].head == units[i].head && log[|st.log| + i].url == units[i].url
        ensures log[|st.log| + i].status == StatusOf(fetch(|st.log| + i, units[i].url))
      {
        var k := |st.log| + i;
        if i < n {
          assert units[..n][i] == units[i];
          assert mid.log[k].head == units[i].head && mid.log[k].url == units[i].url;
          assert mid.log[k].status == StatusOf(fetch(k, units[i].url));
          assert log[k] == mid.log[k];
        } else {
          assert k == |mid.log| && i == n;
        }
      }
    }
  }

  /** One step appends exactly one report, for its unit, with the status its own answer calls for. */
  lemma StepReport(st: RunState, u: Unit, fetch: Fetcher, accepts: ShapeRule)
    ensures var log := Step(st, u, fetch, accepts).log;
            log[..|st.log|] == st.log && log[|st.log|].head == u.head && log[|st.log|].url == u.url
            && log[|st.log|].status == StatusOf(fetch(|st.log|, u.url))
  {
    AttemptStatus(st.files, |st.log|, u, fetch, accepts);
  }

  /** `RunReports` for the single loop: report `n` is about element `n`. */
  lemma RunEachReports<T>(st: RunState, xs: seq<T>, mk: T -> Unit, fetch: Fetcher, accepts: ShapeRule)
    ensures var log := Run(st, UnitsOf(xs, mk), fetch, accepts).log;
            |log| == |st.log| + |xs| && log[..|st.log|] == st.log
            && forall n :: 0 <= n < |xs| ==>
                 log[|st.log| + n].head == mk(xs[n]).head && log[|st.log| + n].url == mk(xs[n]).url
                 && log[|st.log| + n].status == StatusOf(fetch(|st.log| + n, mk(xs[n]).url))
  {
    RunReports(st, UnitsOf(xs, mk), fetch, accepts);
  }

  /** `RunReports` at one position of a fresh run: report `m` is about unit `m`. */
  lemma RunReportAt(files: map<Path, seq<Line>>, units: seq<Unit>, fetch: Fetcher, accepts: ShapeRule, m: nat)
    requires m < |units|
    ensures var log := Run(RunState(files, []), units, fetch, accepts).log;
            |log| == |units| && log[m].head == units[m].head && log[m].url == units[m].url
            && log[m].status == StatusOf(fetch(m, units[m].url))
  {
    var st := RunState(files, []);
    RunReports(st, units, fetch, accepts);
    assert |st.log| + m == m;
  }

  /** `RunEachReports` at one row of a fresh run: report `n` is about element `n`. */
  lemma RunEachReportAt<T>(files: map<Path, seq<Line>>, xs: seq<T>, mk: T -> Unit,
                           fetch: Fetcher, accepts: ShapeRule, n: nat)
    requires n < |xs|
    ensures var log := Run(RunState(files, []), UnitsOf(xs, mk), fetch, accepts).log;
            |log| == |xs| && log[n].head == mk(xs[n]).head && log[n].url == mk(xs[n]).url
            && log[n].status == StatusOf(fetch(n, mk(xs[n]).url))
  {
    RunReportAt(files, UnitsOf(xs, mk), fetch, accepts, n);
  }

  lemma StepExtends(st: RunState, u: Unit, fetch: Fetcher, accepts: ShapeRule)
    ensures Extends(st.files, Step(st, u, fetch, accepts).files)
  {
    if fetch(|st.log|, u.url).Page? {
      var tables := AllTables(fetch(|st.log|, u.url).doc.nodes);
      assert Step(st, u, fetch, accepts).files == SaveTables(st.files, u.path, tables, accepts).files;
      SaveTablesExtends(st.files, u.path, tables, accepts);
    }
  }

  /** A whole run never rewrites or removes anything already on disk. */
  lemma {:induction false} RunExtends(st: RunState, units: seq<Unit>, fetch: Fetcher, accepts: ShapeRule)
    ensures Extends(st.files, Run(st, units, fetch, accepts).files)
    decreases |units|
  {
    if |units| > 0 {
      var n := |units| - 1;
      var mid := Run(st, units[..n], fetch, accepts);
      RunExtends(st, units[..n], fetch, accepts);
      StepExtends(mid, units[n], fetch, accepts);
      ExtendsTransitive(st.files, mid.files, Run(st, units, fetch, accepts).files);
    }
  }

  /** Every file holds at most one header line, at the top. */
  predicate AllWellFormed(files: map<Path, seq<Line>>)
  {
    forall p :: p in files ==> WellFormed(files[p])
  }

  lemma StepWellFormed(st: RunState, u: Unit, fetch: Fetcher, accepts: ShapeRule)
    requires AllWellFormed(st.files)
    ensures AllWellFormed(Step(st, u, fetch, accepts).files)
  {
    if fetch(|st.log|, u.url).Page? {
      var tables := AllTables(fetch(|st.log|, u.url).doc.nodes);
      var after := Step(st, u, fetch, accepts).files;
      assert after == SaveTables(st.files, u.path, tables, accepts).files;
      assert WellFormed(ContentsOf(st.files, u.path));
      SaveTablesWellFormed(st.files, u.path, tables, accepts);
      forall p | p in after ensures WellFormed(after[p]) {
        if p != u.path {
          SaveTablesOtherPaths(st.files, u.path, tables, accepts, p);
        }
      }
    }
  }

  /**
   * However many units write to the same file (the dated copy appends every
   * table of a commodity and date range to one file; the January copy every
   * table of a commodity), each file keeps at most one header line, first.
   */
  lemma {:induction false} RunWellFormed(st: RunState, units: seq<Unit>, fetch: Fetcher, accepts: ShapeRule)
    requires AllWellFormed(st.files)
    ensures AllWellFormed(Run(st, units, fetch, accepts).files)
    decreases |units|
  {
    if |units| > 0 {
      var n := |units| - 1;
      RunWellFormed(st, units[..n], fetch, accepts);
      StepWellFormed(Run(st, units[..n], fetch, accepts), units[n], fetch, accepts);
    }
  }

  // ---------------------------------------------------------------------
  // What a run leaves in each file

  /** A unit writes to no file but its own. */
  lemma StepOtherPaths(st: RunState, u: Unit, fetch: Fetcher, accepts: ShapeRule, p: Path)
    requires p != u.path
    ensures var out := Step(st, u, fetch, accepts).files;
            (p in out <==> p in st.files) && (p in out ==> out[p] == st.files[p])
  {
    if fetch(|st.log|, u.url).Page? {
      SaveTablesOtherPaths(st.files, u.path, AllTables(fetch(|st.log|, u.url).doc.nodes), accepts, p);
    }
  }

  /** A file that no unit of the run is for exists afterwards exactly when it did before, with the same lines. */
  lemma {:induction false} RunOtherPaths(st: RunState, units: seq<Unit>, fetch: Fetcher, accepts: ShapeRule, p: Path)
    requires forall i :: 0 <= i < |units| ==> units[i].path != p
    ensures var out := Run(st, units, fetch, accepts).files;
            (p in out <==> p in st.files) && (p in out ==> out[p] == st.files[p])
    decreases |units|
  {
    if |units| > 0 {
      var n := |units| - 1;
      assert forall i :: 0 <= i < n ==> units[..n][i] == units[i];
      RunOtherPaths(st, units[..n], fetch, accepts, p);
      StepOtherPaths(Run(st, units[..n], fetch, accepts), units[n], fetch, accepts, p);
    }
  }

  /**
   * What one unit does to its own file, given what that file held before and
   * the answer to its request: nothing when the request failed, otherwise
   * what `save_as_csv` writes for the page's tables.
   */
  function UnitEffect(before: seq<Line>, answer: Response, accepts: ShapeRule): seq<Line>
  {
    match answer
    case RequestFailed => before
    case Page(doc) => SaveFile(before, AllTables(doc.nodes), accepts)
  }

  /** A unit leaves its own file as `UnitEffect` of what that file held. */
  lemma AttemptFile(files: map<Path, seq<Line>>, index: nat, u: Unit, fetch: Fetcher, accepts: ShapeRule)
    ensures ContentsOf(Attempt(files, index, u, fetch, accepts).files, u.path)
         == UnitEffect(ContentsOf(files, u.path), fetch(index, u.url), accepts)
  {
    if fetch(index, u.url).Page? {
      SaveTablesFile(files, u.path, AllTables(fetch(index, u.url).doc.nodes), accepts);
    }
  }

  /** The data rows one unit adds to its file: none for a failed request, else those of the accepted tables. */
  function UnitRows(r: Response, accepts: ShapeRule): seq<seq<string>>
  {
    match r
    case RequestFailed => []
    case Page(doc) => AcceptedRows(AllTables(doc.nodes), accepts)
  }

  /** A unit appends to its file's data rows exactly the rows of its own page's accepted tables. */
  lemma UnitEffectRecords(before: seq<Line>, answer: Response, accepts: ShapeRule)
    ensures Records(UnitEffect(before, answer, accepts)) == Records(before) + UnitRows(answer, accepts)
  {
    if answer.Page? {
      SaveFileRecords(before, AllTables(answer.doc.nodes), accepts);
    } else {
      assert Records(before) + [] == Records(before);
    }
  }

  /**
   * When no other unit of the run shares its file, unit `k` leaves that file
   * exactly as it would have on its own, from what the file held when the
   * run started: the units before and after it do not touch it.
   */
  lemma {:induction false} RunUnitFile(st: RunState, units: seq<Unit>, fetch: Fetcher, accepts: ShapeRule, k: nat)
    requires k < |units|
    requires forall i :: 0 <= i < |units| && i != k ==> units[i].path != units[k].path
    ensures ContentsOf(Run(st, units, fetch, accepts).files, units[k].path)
         == UnitEffect(ContentsOf(st.files, units[k].path), fetch(|st.log| + k, units[k].url), accepts)
    decreases |units|, 1
  {
    if k == |units| - 1 {
      RunLastUnitFile(st, units, fetch, accepts);
    } else {
      RunEarlierUnitFile(st, units, fetch, accepts, k);
    }
  }

  /** `RunUnitFile` for a unit before the last: the last unit leaves its file alone. */
  lemma {:induction false} RunEarlierUnitFile(st: RunState, units: seq<Unit>, fetch: Fetcher, accepts: ShapeRule, k: nat)
    requires k < |units| - 1
    requires forall i :: 0 <= i < |units| && i != k ==> units[i].path != units[k].path
    ensures ContentsOf(Run(st, units, fetch, accepts).files, units[k].path)
         == UnitEffect(ContentsOf(st.files, units[k].path), fetch(|st.log| + k, units[k].url), accepts)
    decreases |units|, 0
  {
    var n := |units| - 1;
    assert forall i :: 0 <= i < n && i != k ==> units[..n][i].path != units[..n][k].path;
    RunUnitFile(st, units[..n], fetch, accepts, k);
    assert units[..n][k] == units[k];
    RunLastKeepsFile(st, units, fetch, accepts, units[k].path);
  }

  /** `RunUnitFile` for the last unit of the run. */
  lemma {:induction false} RunLastUnitFile(st: RunState, units: seq<Unit>, fetch: Fetcher, accepts: ShapeRule)
    requires 0 < |units|
    requires forall i :: 0 <= i < |units| - 1 ==> units[i].path != units[|units| - 1].path
    ensures ContentsOf(Run(st, units, fetch, accepts).files, units[|units| - 1].path)
         == UnitEffect(ContentsOf(st.files, units[|units| - 1].path), fetch(|st.log| + (|units| - 1), units[|units| - 1].url),
                       accepts)
  {
    RunBeforeFile(st, units, fetch, accepts, |units| - 1);
    RunLastOwnFile(st, units, fetch, accepts);
  }

  /** The last unit of a run leaves its own file as `UnitEffect` of what the units before it left there. */
  lemma {:induction false} RunLastOwnFile(st: RunState, units: seq<Unit>, fetch: Fetcher, accepts: ShapeRule)
    requires 0 < |units|
    ensures ContentsOf(Run(st, units, fetch, accepts).files, units[|units| - 1].path)
         == UnitEffect(ContentsOf(Run(st, units[..|units| - 1], fetch, accepts).files, units[|units| - 1].path),
                       fetch(|st.log| + (|units| - 1), units[|units| - 1].url), accepts)
  {
    assert |units[..|units| - 1]| == |units| - 1;
    RunLastContents(st, units, fetch, accepts, units[|units| - 1].path);
    StepOwnFile(Run(st, units[..|units| - 1], fetch, accepts), units[|units| - 1], fetch, accepts, |st.log| + (|units| - 1));
  }

  /** Any file after a run holds what the last unit's step left there. */
  lemma RunLastContents(st: RunState, units: seq<Unit>, fetch: Fetcher, accepts: ShapeRule, p: Path)
    requires 0 < |units|
    ensures ContentsOf(Run(st, units, fetch, accepts).files, p)
         == ContentsOf(Step(Run(st, units[..|units| - 1], fetch, accepts), units[|units| - 1], fetch, accepts).files, p)
  {
  }

  /** A step leaves its unit's file as `UnitEffect` of what that file held, for the request at position `index`. */
  lemma StepOwnFile(st: RunState, u: Unit, fetch: Fetcher, accepts: ShapeRule, index: nat)
    requires index == |st.log|
    ensures ContentsOf(Step(st, u, fetch, accepts).files, u.path)
         == UnitEffect(ContentsOf(st.files, u.path), fetch(index, u.url), accepts)
  {
    AttemptFile(st.files, index, u, fetch, accepts);
  }

  /** The last unit of a run leaves every other file as it was. */
  lemma {:induction false} RunLastKeepsFile(st: RunState, units: seq<Unit>, fetch: Fetcher, accepts: ShapeRule, p: Path)
    requires 0 < |units| && units[|units| - 1].path != p
    ensures ContentsOf(Run(st, units, fetch, accepts).files, p)
         == ContentsOf(Run(st, units[..|units| - 1], fetch, accepts).files, p)
  {
    StepOtherPaths(Run(st, units[..|units| - 1], fetch, accepts), units[|units| - 1], fetch, accepts, p);
  }

  /** The units before unit `k` leave its file as it was, when none of them shares it. */
  lemma {:induction false} RunBeforeFile(st: RunState, units: seq<Unit>, fetch: Fetcher, accepts: ShapeRule, k: nat)
    requires k < |units|
    requires forall i :: 0 <= i < k ==> units[i].path != units[k].path
    ensures ContentsOf(Run(st, units[..k], fetch, accepts).files, units[k].path) == ContentsOf(st.files, units[k].path)
  {
    RunOtherPaths(st, units[..k], fetch, accepts, units[k].path);
  }

  /**
   * When no other unit of the run shares its file, the file of unit `k`
   * gains exactly the data rows of its own page's accepted tables, in order.
   */
  lemma {:induction false} RunUnitRecords(st: RunState, units: seq<Unit>, fetch: Fetcher, accepts: ShapeRule, k: nat)
    requires k < |units|
    requires forall i :: 0 <= i < |units| && i != k ==> units[i].path != units[k].path
    ensures Records(ContentsOf(Run(st, units, fetch, accepts).files, units[k].path))
         == Records(ContentsOf(st.files, units[k].path)) + UnitRows(fetch(|st.log| + k, units[k].url), accepts)
  {
    RunUnitFile(st, units, fetch, accepts, k);
    UnitEffectRecords(ContentsOf(st.files, units[k].path), fetch(|st.log| + k, units[k].url), accepts);
  }

  /** One unit keeps a well-formed file well formed, whichever file it is. */
  lemma StepPathWellFormed(st: RunState, u: Unit, fetch: Fetcher, accepts: ShapeRule, p: Path)
    requires WellFormed(ContentsOf(st.files, p))
    ensures WellFormed(ContentsOf(Step(st, u, fetch, accepts).files, p))
  {
    if p != u.path {
      StepOtherPaths(st, u, fetch, accepts, p);
    } else if fetch(|st.log|, u.url).Page? {
      SaveTablesWellFormed(st.files, u.path, AllTables(fetch(|st.log|, u.url).doc.nodes), accepts);
    }
  }

  /**
   * A file that starts well formed is still well formed after the run,
   * whatever the other files hold: its header line is written once, first.
   */
  lemma {:induction false} RunPathWellFormed(st: RunState, units: seq<Unit>, fetch: Fetcher, accepts: ShapeRule, p: Path)
    requires WellFormed(ContentsOf(st.files, p))
    ensures WellFormed(ContentsOf(Run(st, units, fetch, accepts).files, p))
    decreases |units|
  {
    if |units| > 0 {
      var n := |units| - 1;
      RunPathWellFormed(st, units[..n], fetch, accepts, p);
      StepPathWellFormed(Run(st, units[..n], fetch, accepts), units[n], fetch, accepts, p);
    }
  }

  /**
   * The request at position `index` for `url` returns a page holding the
   * single table `t`, which has a `tr` and whose DataFrame can be built.
   */
  predicate OneTablePage(fetch: Fetcher, index: nat, url: string, accepts: ShapeRule, t: Table)
  {
    fetch(index, url) == Page(Document([TableNode(t)])) && t.rows != [] && accepts(Headers(t).value, Rows(t))
  }

  /**
   * One unit whose page holds a single table, written to a file that does
   * not exist yet: the unit is saved, and the run gains exactly that file,
   * holding the table's header line and then its data rows.
   */
  lemma OneTableStep(st: RunState, u: Unit, fetch: Fetcher, accepts: ShapeRule, t: Table)
    requires OneTablePage(fetch, |st.log|, u.url, accepts, t) && u.path !in st.files
    ensures Step(st, u, fetch, accepts)
         == RunState(st.files[u.path := TableLines(Headers(t).value, Rows(t), true)],
                     st.log + [Report(u.head, u.url, Saved)])
  {
    var tables := AllTables([TableNode(t)]);
    assert tables == [t] by {
      assert [TableNode(t)][1..] == [];
    }
    var headers, rows := Headers(t).value, Rows(t);
    var next := WriteTable(st.files, u.path, headers, rows, accepts);
    assert ContentsOf(st.files, u.path) == [];
    assert next == st.files[u.path := TableLines(headers, rows, true)] by {
      assert [] + TableLines(headers, rows, true) == TableLines(headers, rows, true);
    }
    assert tables[1..] == [];
    assert SaveTables(st.files, u.path, tables, accepts) == SaveOutcome(next, true);
  }

  /** A run of two units is the second unit's step after the first's. */
  lemma RunPair(st: RunState, u1: Unit, u2: Unit, fetch: Fetcher, accepts: ShapeRule)
    ensures Run(st, [u1, u2], fetch, accepts) == Step(Step(st, u1, fetch, accepts), u2, fetch, accepts)
  {
    assert Run(st, [u1], fetch, accepts) == Step(st, u1, fetch, accepts) by {
      assert [u1][..0] == [];
    }
    assert [u1, u2][..1] == [u1];
  }

  /** `OneTableStep` for the first of two units. */
  lemma RunPairFirst(files: map<Path, seq<Line>>, u1: Unit, u2: Unit, fetch: Fetcher, accepts: ShapeRule, t: Table)
    requires OneTablePage(fetch, 0, u1.url, accepts, t) && u1.path !in files
    ensures Run(RunState(files, []), [u1, u2], fetch, accepts)
         == Step(RunState(files[u1.path := TableLines(Headers(t).value, Rows(t), true)], [Report(u1.head, u1.url, Saved)]),
                 u2, fetch, accepts)
  {
    RunPair(RunState(files, []), u1, u2, fetch, accepts);
    OneTableStep(RunState(files, []), u1, fetch, accepts, t);
  }

  /** `OneTableStep` for the second of two units. */
  lemma RunPairSecond(files: map<Path, seq<Line>>, u1: Unit, u2: Unit, fetch: Fetcher, accepts: ShapeRule, t: Table)
    requires OneTablePage(fetch, 1, u2.url, accepts, t) && u1.path != u2.path && u2.path !in files
    ensures Step(RunState(files[u1.path := TableLines(Headers(t).value, Rows(t), true)], [Report(u1.head, u1.url, Saved)]),
                 u2, fetch, accepts)
         == RunState(files[u1.path := TableLines(Headers(t).value, Rows(t), true)]
                          [u2.path := TableLines(Headers(t).value, Rows(t), true)],
                     [Report(u1.head, u1.url, Saved), Report(u2.head, u2.url, Saved)])
  {
    assert [Report(u1.head, u1.url, Saved)] + [Report(u2.head, u2.url, Saved)]
        == [Report(u1.head, u1.url, Saved), Report(u2.head, u2.url, Saved)];
    OneTableStep(RunState(files[u1.path := TableLines(Headers(t).value, Rows(t), true)], [Report(u1.head, u1.url, Saved)]),
                 u2, fetch, accepts, t);
  }

  /**
   * Two units whose requests both return a page with one table, each written
   * to its own new file: both are saved, in order, and the run gains exactly
   * those two files, each holding one header line followed by the table's
   * data rows.
   */
  lemma TwoOneTableUnits(files: map<Path, seq<Line>>, u1: Unit, u2: Unit, fetch: Fetcher,
                         accepts: ShapeRule, t: Table)
    requires OneTablePage(fetch, 0, u1.url, accepts, t) && OneTablePage(fetch, 1, u2.url, accepts, t)
    requires u1.path != u2.path && u1.path !in files && u2.path !in files
    ensures Run(RunState(files, []), [u1, u2], fetch, accepts)
         == RunState(files[u1.path := TableLines(Headers(t).value, Rows(t), true)]
                          [u2.path := TableLines(Headers(t).value, Rows(t), true)],
                     [Report(u1.head, u1.url, Saved), Report(u2.head, u2.url, Saved)])
  {
    RunPairFirst(files, u1, u2, fetch, accepts, t);
    RunPairSecond(files, u1, u2, fetch, accepts, t);
  }

  /** `TwoOneTableUnits` for the single loop over two elements. */
  lemma TwoOneTableElements<T>(files: map<Path, seq<Line>>, x1: T, x2: T, mk: T -> Unit, fetch: Fetcher,
                               accepts: ShapeRule, t: Table)
    requires OneTablePage(fetch, 0, mk(x1).url, accepts, t) && OneTablePage(fetch, 1, mk(x2).url, accepts, t)
    requires mk(x1).path != mk(x2).path && mk(x1).path !in files && mk(x2).path !in files
    ensures Run(RunState(files, []), UnitsOf([x1, x2], mk), fetch, accepts)
         == RunState(files[mk(x1).path := TableLines(Headers(t).value, Rows(t), true)]
                          [mk(x2).path := TableLines(Headers(t).value, Rows(t), true)],
                     [Report(mk(x1).head, mk(x1).url, Saved), Report(mk(x2).head, mk(x2).url, Saved)])
  {
    assert UnitsOf([x1, x2], mk) == [mk(x1), mk(x2)];
    TwoOneTableUnits(files, mk(x1), mk(x2), fetch, accepts, t);
  }

  /** `TwoOneTableUnits` for the nested loops over one outer and two inner elements. */
  lemma TwoOneTableRow<A, B>(files: map<Path, seq<Line>>, a: A, b1: B, b2: B, mk: (A, B) -> Unit,
                             fetch: Fetcher, accepts: ShapeRule, t: Table)
    requires OneTablePage(fetch, 0, mk(a, b1).url, accepts, t) && OneTablePage(fetch, 1, mk(a, b2).url, accepts, t)
    requires mk(a, b1).path != mk(a, b2).path && mk(a, b1).path !in files && mk(a, b2).path !in files
    ensures Run(RunState(files, []), GridUnits([a], [b1, b2], mk), fetch, accepts)
         == RunState(files[mk(a, b1).path := TableLines(Headers(t).value, Rows(t), true)]
                          [mk(a, b2).path := TableLines(Headers(t).value, Rows(t), true)],
                     [Report(mk(a, b1).head, mk(a, b1).url, Saved), Report(mk(a, b2).head, mk(a, b2).url, Saved)])
  {
    assert GridUnits([a], [b1, b2], mk) == [mk(a, b1), mk(a, b2)] by {
      assert [a][..0] == [];
      assert RowUnits(a, [b1, b2], mk) == [mk(a, b1), mk(a, b2)];
    }
    TwoOneTableUnits(files, mk(a, b1), mk(a, b2), fetch, accepts, t);
  }

  /** A unit whose request fails leaves every file as it was. */
  lemma {:induction false} FailedFetchesWriteNothing(st: RunState, units: seq<Unit>, fetch: Fetcher, accepts: ShapeRule)
    requires forall i :: 0 <= i < |units| ==> fetch(|st.log| + i, units[i].url).RequestFailed?
    ensures Run(st, units, fetch, accepts).files == st.files
    decreases |units|
  {
    if |units| > 0 {
      assert forall i :: 0 <= i < |units| - 1 ==> units[..|units| - 1][i] == units[i];
      FailedFetchesWriteNothing(st, units[..|units| - 1], fetch, accepts);
      FailedStepWritesNothing(Run(st, units[..|units| - 1], fetch, accepts), units[|units| - 1], fetch, accepts,
                              |st.log| + (|units| - 1));
    }
  }

  /** `FailedFetchesWriteNothing` for one step, whose request is the one at position `index`. */
  lemma FailedStepWritesNothing(st: RunState, u: Unit, fetch: Fetcher, accepts: ShapeRule, index: nat)
    requires index == |st.log| && fetch(index, u.url).RequestFailed?
    ensures Step(st, u, fetch, accepts).files == st.files
  {
  }
}
