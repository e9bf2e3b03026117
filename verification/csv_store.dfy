/**
 * The CSV persister shared by both copies of `save_as_csv`: for each table of
 * the page, in order, open the output file for appending, build a pandas
 * DataFrame from the extracted headers and rows, and write it with
 * `to_csv(f, header=f.tell() == 0, index=False)`.
 *
 * The file system is a map from path to the lines of each file.  A file is
 * only ever opened in append mode, so the model gives it no other operation.
 */
module CsvStore {
  import opened Wrappers
  import opened Text
  import opened TableExtractor

  type Path = string

  /** A line of an output file: the column header line, or one data row. */
  datatype Line = HeaderLine(cells: seq<string>) | RecordLine(cells: seq<string>)

  /** The text of a line: its cells joined by commas. */
  function Render(l: Line): string
  {
    Join(l.cells, ',')
  }

  /** A rendered line reads back into the same cells when no cell holds a comma. */
  lemma RenderReadBack(l: Line)
    requires |l.cells| >= 1
    requires forall i :: 0 <= i < |l.cells| ==> ',' !in l.cells[i]
    ensures Split(Render(l), ',') == l.cells
  {
    SplitJoin(l.cells, ',');
  }

  /**
   * Whether `pd.DataFrame(rows, columns=headers)` can be built; when it
   * cannot, pandas raises ValueError.  The rule is pandas' own and is taken as
   * a parameter.
   */
  type ShapeRule = (seq<string>, seq<seq<string>>) -> bool

  /** A file that has been written only by this persister: empty, or one header line followed by data rows. */
  predicate WellFormed(lines: seq<Line>)
  {
    forall i :: 0 <= i < |lines| ==> (lines[i].HeaderLine? <==> i == 0)
  }

  /** The data rows of a file, in order. */
  function Records(lines: seq<Line>): (r: seq<seq<string>>)
    ensures |r| <= |lines|
  {
    if |lines| == 0 then []
    else Records(lines[..|lines| - 1])
         + (if lines[|lines| - 1].RecordLine? then [lines[|lines| - 1].cells] else [])
  }

  lemma {:induction false} RecordsAppend(a: seq<Line>, b: seq<Line>)
    ensures Records(a + b) == Records(a) + Records(b)
    decreases |b|
  {
    if |b| == 0 {
      assert a + b == a;
    } else {
      assert (a + b)[..|a + b| - 1] == a + b[..|b| - 1];
      RecordsAppend(a, b[..|b| - 1]);
    }
  }

  function RecordLines(rows: seq<seq<string>>): (r: seq<Line>)
    ensures |r| == |rows|
    ensures forall i :: 0 <= i < |r| ==> r[i] == RecordLine(rows[i])
  {
    seq(|rows|, i requires 0 <= i < |rows| => RecordLine(rows[i]))
  }

  lemma {:induction false} RecordsOfRecordLines(rows: seq<seq<string>>)
    ensures Records(RecordLines(rows)) == rows
    decreases |rows|
  {
    if |rows| > 0 {
      assert RecordLines(rows)[..|rows| - 1] == RecordLines(rows[..|rows| - 1]);
      RecordsOfRecordLines(rows[..|rows| - 1]);
    }
  }

  /**
   * A row narrower than the header row: pandas fills the missing columns with
   * NaN, and `to_csv` writes NaN as an empty cell.  Rows at least as wide are
   * left as they are.
   */
  function PadRow(row: seq<string>, width: nat): (r: seq<string>)
    ensures |r| == if |row| < width then width else |row|
    ensures r[..|row|] == row
    ensures forall i :: |row| <= i < |r| ==> r[i] == ""
  {
    if |row| < width then row + seq(width - |row|, _ => "") else row
  }

  /** Every row of a table padded to the width of its header row. */
  function PadRows(rows: seq<seq<string>>, width: nat): (r: seq<seq<string>>)
    ensures |r| == |rows|
    ensures forall i :: 0 <= i < |rows| ==> r[i] == PadRow(rows[i], width)
  {
    seq(|rows|, i requires 0 <= i < |rows| => PadRow(rows[i], width))
  }

  /** Padding changes nothing in a table whose rows are all as wide as its header row. */
  lemma PadRowsFull(rows: seq<seq<string>>, width: nat)
    requires forall i :: 0 <= i < |rows| ==> |rows[i]| >= width
    ensures PadRows(rows, width) == rows
  {
    forall i | 0 <= i < |rows| ensures PadRows(rows, width)[i] == rows[i] {
      assert PadRow(rows[i], width)[..|rows[i]|] == rows[i];
    }
  }

  /**
   * What one `to_csv` call appends: the header line exactly when the file is
   * still empty (`f.tell() == 0`), then one line per row, in order, padded to
   * the header's width.
   */
  function TableLines(headers: seq<string>, rows: seq<seq<string>>, fileEmpty: bool): (r: seq<Line>)
    ensures |r| == |rows| + (if fileEmpty then 1 else 0)
    ensures forall i :: 0 <= i < |r| ==> (r[i].HeaderLine? <==> fileEmpty && i == 0)
    ensures fileEmpty ==> r[0] == HeaderLine(headers)
    ensures Records(r) == PadRows(rows, |headers|)
  {
    var padded := PadRows(rows, |headers|);
    var r := (if fileEmpty then [HeaderLine(headers)] else []) + RecordLines(padded);
    assert Records(r) == padded by {
      RecordsAppend(if fileEmpty then [HeaderLine(headers)] else [], RecordLines(padded));
      RecordsOfRecordLines(padded);
      assert Records([HeaderLine(headers)]) == [] by {
        assert [HeaderLine(headers)][..0] == [];
      }
    }
    r
  }

  /** The lines of the file at `path`; a file that does not exist reads as empty. */
  function ContentsOf(files: map<Path, seq<Line>>, path: Path): seq<Line>
  {
    if path in files then files[path] else []
  }

  /**
   * One table's write: `open(path, "ab")` creates the file if needed; then
   * either the DataFrame cannot be built (ValueError, nothing is written) or
   * the table's lines are appended.
   */
  function WriteTable(files: map<Path, seq<Line>>, path: Path, headers: seq<string>,
                      rows: seq<seq<string>>, accepts: ShapeRule): map<Path, seq<Line>>
  {
    files[path := WriteLines(ContentsOf(files, path), headers, rows, accepts)]
  }

  /** The same write, seen from the one file it changes. */
  function WriteLines(cur: seq<Line>, headers: seq<string>, rows: seq<seq<string>>,
                      accepts: ShapeRule): seq<Line>
  {
    if accepts(headers, rows) then cur + TableLines(headers, rows, cur == []) else cur
  }

  /**
   * One table's write creates the file, touches no other file, only appends,
   * appends nothing when the DataFrame is rejected and otherwise one line per
   * row plus the header line when the file was empty.
   */
  lemma WriteTableEffect(files: map<Path, seq<Line>>, path: Path, headers: seq<string>,
                         rows: seq<seq<string>>, accepts: ShapeRule)
    ensures var r := WriteTable(files, path, headers, rows, accepts);
            path in r
            && (forall p :: p != path ==> (p in r <==> p in files) && (p in r ==> r[p] == files[p]))
            && ContentsOf(files, path) <= ContentsOf(r, path)
            && (!accepts(headers, rows) ==> ContentsOf(r, path) == ContentsOf(files, path))
            && (accepts(headers, rows) ==>
                  |ContentsOf(r, path)| == |ContentsOf(files, path)| + |rows| + (if ContentsOf(files, path) == [] then 1 else 0))
  {
  }

  /** What a call of `save_as_csv` leaves behind: the files, and whether it returned normally. */
  datatype SaveOutcome = SaveOutcome(files: map<Path, seq<Line>>, completed: bool)

  /**
   * The loop of `save_as_csv` over the tables of a page, all written to one
   * path.  A table the DataFrame rejects is skipped and the loop goes on.  A
   * table without any `tr` makes `get_table_headers` raise AttributeError,
   * which the loop does not catch: the call stops there, with the earlier
   * tables already written.
   */
  function SaveTables(files: map<Path, seq<Line>>, path: Path, tables: seq<Table>,
                      accepts: ShapeRule): (r: SaveOutcome)
    ensures files.Keys <= r.files.Keys
    ensures |tables| > 0 && tables[0].rows != [] ==> path in r.files
    decreases |tables|
  {
    if |tables| == 0 then SaveOutcome(files, true)
    else match Headers(tables[0])
      case None => SaveOutcome(files, false)
      case Some(headers) =>
        SaveTables(WriteTable(files, path, headers, Rows(tables[0]), accepts), path, tables[1..], accepts)
  }

  /** `save_as_csv` seen from the one file it writes: the lines that file ends with. */
  function SaveFile(cur: seq<Line>, tables: seq<Table>, accepts: ShapeRule): seq<Line>
    decreases |tables|
  {
    if |tables| == 0 then cur
    else match Headers(tables[0])
      case None => cur
      case Some(headers) => SaveFile(WriteLines(cur, headers, Rows(tables[0]), accepts), tables[1..], accepts)
  }

  /**
   * The data rows that reach the file: those of every accepted table before
   * the first table without rows, each padded to its table's header width.
   */
  function AcceptedRows(tables: seq<Table>, accepts: ShapeRule): (r: seq<seq<string>>)
    ensures forall i, j :: 0 <= i < |r| && 0 <= j < |r[i]| ==> Trimmed(r[i][j])
    decreases |tables|
  {
    if |tables| == 0 then []
    else match Headers(tables[0])
      case None => []
      case Some(headers) =>
        (if accepts(headers, Rows(tables[0])) then PadRows(Rows(tables[0]), |headers|) else [])
        + AcceptedRows(tables[1..], accepts)
  }

  // ---------------------------------------------------------------------
  // Properties of save_as_csv

  /** Only the file at `path` is touched. */
  lemma {:induction false} SaveTablesOtherPaths(files: map<Path, seq<Line>>, path: Path,
                                                 tables: seq<Table>, accepts: ShapeRule, p: Path)
    requires p != path
    ensures var out := SaveTables(files, path, tables, accepts).files;
            (p in out <==> p in files) && (p in out ==> out[p] == files[p])
    decreases |tables|
  {
    if |tables| > 0 && Headers(tables[0]).Some? {
      var next := WriteTable(files, path, Headers(tables[0]).value, Rows(tables[0]), accepts);
      WriteTableEffect(files, path, Headers(tables[0]).value, Rows(tables[0]), accepts);
      SaveTablesOtherPaths(next, path, tables[1..], accepts, p);
    }
  }

  /**
   * What `save_as_csv` leaves in its file depends only on what that file held
   * before: it is `SaveFile` of those lines.
   */
  lemma {:induction false} SaveTablesFile(files: map<Path, seq<Line>>, path: Path, tables: seq<Table>,
                                           accepts: ShapeRule)
    ensures ContentsOf(SaveTables(files, path, tables, accepts).files, path)
         == SaveFile(ContentsOf(files, path), tables, accepts)
    decreases |tables|
  {
    if |tables| > 0 && Headers(tables[0]).Some? {
      var next := WriteTable(files, path, Headers(tables[0]).value, Rows(tables[0]), accepts);
      assert ContentsOf(next, path) == WriteLines(ContentsOf(files, path), Headers(tables[0]).value, Rows(tables[0]), accepts);
      SaveTablesFile(next, path, tables[1..], accepts);
    }
  }

  /** Writes only append: what the file held before is a prefix of what it holds after. */
  lemma {:induction false} SaveTablesAppendOnly(files: map<Path, seq<Line>>, path: Path,
                                                 tables: seq<Table>, accepts: ShapeRule)
    ensures ContentsOf(files, path) <= ContentsOf(SaveTables(files, path, tables, accepts).files, path)
    decreases |tables|
  {
    if |tables| > 0 && Headers(tables[0]).Some? {
      var next := WriteTable(files, path, Headers(tables[0]).value, Rows(tables[0]), accepts);
      WriteTableEffect(files, path, Headers(tables[0]).value, Rows(tables[0]), accepts);
      SaveTablesAppendOnly(next, path, tables[1..], accepts);
    }
  }

  /** Every file that existed before still exists, and only ever gets lines appended. */
  predicate Extends(before: map<Path, seq<Line>>, after: map<Path, seq<Line>>)
  {
    forall p :: p in before ==> p in after && before[p] <= after[p]
  }

  lemma ExtendsTransitive(a: map<Path, seq<Line>>, b: map<Path, seq<Line>>, c: map<Path, seq<Line>>)
    requires Extends(a, b) && Extends(b, c)
    ensures Extends(a, c)
  {
    forall p | p in a ensures p in c && a[p] <= c[p] {
      assert c[p][..|a[p]|] == c[p][..|b[p]|][..|a[p]|];
    }
  }

  /** Saving a page never rewrites or removes anything already on disk. */
  lemma {:induction false} SaveTablesExtends(files: map<Path, seq<Line>>, path: Path,
                                              tables: seq<Table>, accepts: ShapeRule)
    ensures Extends(files, SaveTables(files, path, tables, accepts).files)
    decreases |tables|
  {
    if |tables| > 0 && Headers(tables[0]).Some? {
      var next := WriteTable(files, path, Headers(tables[0]).value, Rows(tables[0]), accepts);
      WriteTableEffect(files, path, Headers(tables[0]).value, Rows(tables[0]), accepts);
      assert Extends(files, next) by {
        forall p | p in files ensures p in next && files[p] <= next[p] {
          if p == path { assert files[p] == ContentsOf(files, path); }
        }
      }
      SaveTablesExtends(next, path, tables[1..], accepts);
      ExtendsTransitive(files, next, SaveTables(files, path, tables, accepts).files);
    }
  }

  /** A header line is appended only to an empty file, so a well-formed file stays well formed. */
  lemma WriteTableWellFormed(files: map<Path, seq<Line>>, path: Path, headers: seq<string>,
                             rows: seq<seq<string>>, accepts: ShapeRule)
    requires WellFormed(ContentsOf(files, path))
    ensures WellFormed(ContentsOf(WriteTable(files, path, headers, rows, accepts), path))
  {
    var cur := ContentsOf(files, path);
    if accepts(headers, rows) {
      var added := TableLines(headers, rows, cur == []);
      var after := cur + added;
      forall i | 0 <= i < |after| ensures after[i].HeaderLine? <==> i == 0 {
        if i >= |cur| { assert after[i] == added[i - |cur|]; }
      }
    }
  }

  /**
   * However many tables are written to a file, it holds at most one header
   * line, and that line comes first.
   */
  lemma {:induction false} SaveTablesWellFormed(files: map<Path, seq<Line>>, path: Path,
                                                 tables: seq<Table>, accepts: ShapeRule)
    requires WellFormed(ContentsOf(files, path))
    ensures WellFormed(ContentsOf(SaveTables(files, path, tables, accepts).files, path))
    decreases |tables|
  {
    if |tables| > 0 && Headers(tables[0]).Some? {
      WriteTableWellFormed(files, path, Headers(tables[0]).value, Rows(tables[0]), accepts);
      var next := WriteTable(files, path, Headers(tables[0]).value, Rows(tables[0]), accepts);
      SaveTablesWellFormed(next, path, tables[1..], accepts);
    }
  }

  /** Regrouping three appended sequences, stated apart so that the proofs calling it stay small. */
  lemma AppendAssociative<T>(a: seq<T>, b: seq<T>, c: seq<T>)
    ensures (a + b) + c == a + (b + c)
  {
  }

  /**
   * The data rows the file gains are exactly the rows of the accepted tables,
   * tables in document order and rows in table order; rejected tables add
   * nothing and do not stop the tables after them.
   */
  lemma {:induction false} SaveFileRecords(cur: seq<Line>, tables: seq<Table>, accepts: ShapeRule)
    ensures Records(SaveFile(cur, tables, accepts)) == Records(cur) + AcceptedRows(tables, accepts)
    decreases |tables|
  {
    if |tables| > 0 && Headers(tables[0]).Some? {
      var headers, rows := Headers(tables[0]).value, Rows(tables[0]);
      var next := WriteLines(cur, headers, rows, accepts);
      var gained: seq<seq<string>> := if accepts(headers, rows) then PadRows(rows, |headers|) else [];
      assert Records(next) == Records(cur) + gained by {
        if accepts(headers, rows) {
          RecordsAppend(cur, TableLines(headers, rows, cur == []));
        }
      }
      var later := AcceptedRows(tables[1..], accepts);
      assert AcceptedRows(tables, accepts) == gained + later;
      SaveFileRecords(next, tables[1..], accepts);
      AppendAssociative(Records(cur), gained, later);
    } else {
      assert AcceptedRows(tables, accepts) == [];
    }
  }

  /** `SaveFileRecords` for the file at `path` among all the files. */
  lemma SaveTablesRecords(files: map<Path, seq<Line>>, path: Path, tables: seq<Table>, accepts: ShapeRule)
    ensures Records(ContentsOf(SaveTables(files, path, tables, accepts).files, path))
         == Records(ContentsOf(files, path)) + AcceptedRows(tables, accepts)
  {
    SaveTablesFile(files, path, tables, accepts);
    SaveFileRecords(ContentsOf(files, path), tables, accepts);
  }

  /** The call returns normally exactly when every table of the page has a `tr`. */
  lemma {:induction false} SaveTablesCompletes(files: map<Path, seq<Line>>, path: Path,
                                                tables: seq<Table>, accepts: ShapeRule)
    ensures SaveTables(files, path, tables, accepts).completed
        <==> forall i :: 0 <= i < |tables| ==> tables[i].rows != []
    decreases |tables|
  {
    if |tables| > 0 && Headers(tables[0]).Some? {
      var next := WriteTable(files, path, Headers(tables[0]).value, Rows(tables[0]), accepts);
      SaveTablesCompletes(next, path, tables[1..], accepts);
      assert forall i :: 1 <= i < |tables| ==> tables[i] == tables[1..][i - 1];
    }
  }

  /** The first table written to an empty file puts its header line at the top of the file. */
  lemma FirstWriteHeader(files: map<Path, seq<Line>>, path: Path, t: Table, accepts: ShapeRule)
    requires ContentsOf(files, path) == []
    requires Headers(t).Some? && accepts(Headers(t).value, Rows(t))
    ensures var after := ContentsOf(SaveTables(files, path, [t], accepts).files, path);
            |after| == 1 + |Rows(t)| && after[0] == HeaderLine(Headers(t).value)
  {
    assert [t][1..] == [];
  }

  // ---------------------------------------------------------------------
  // The file system and the loop of save_as_csv

  /** The files on disk. */
  class FileSystem {
    var files: map<Path, seq<Line>>

    constructor (initial: map<Path, seq<Line>>)
      ensures files == initial
    {
      files := initial;
    }

    function Contents(path: Path): seq<Line>
      reads this
    {
      ContentsOf(files, path)
    }

    /** `open(path, "ab")`: the file exists afterwards, with its contents unchanged. */
    method Open(path: Path)
      modifies this
      ensures files == old(files)[path := old(Contents(path))]
    {
      files := files[path := Contents(path)];
    }

    /** `f.tell() == 0` on a file just opened for appending: whether it is empty. */
    method AtStart(path: Path) returns (empty: bool)
      ensures empty <==> Contents(path) == []
    {
      empty := Contents(path) == [];
    }

    /** Appends lines at the end of the file. */
    method Append(path: Path, lines: seq<Line>)
      modifies this
      ensures files == old(files)[path := old(Contents(path)) + lines]
    {
      files := files[path := Contents(path) + lines];
    }
  }

  /**
   * One table with rows: open the file, and when the DataFrame can be built,
   * write it, with the header line only if the file is still empty.
   */
  method WriteOne(fs: FileSystem, path: Path, headers: seq<string>, rows: seq<seq<string>>,
                  accepts: ShapeRule)
    modifies fs
    ensures fs.files == WriteTable(old(fs.files), path, headers, rows, accepts)
  {
    fs.Open(path);
    if accepts(headers, rows) {
      var empty := fs.AtStart(path);
      fs.Append(path, TableLines(headers, rows, empty));
    }
  }

  /**
   * The loop of `save_as_csv`: every table of the page, in order, to the file
   * at `path`.  Returns false when a table without rows raised out of the loop.
   */
  method WriteTables(fs: FileSystem, path: Path, tables: seq<Table>, accepts: ShapeRule)
    returns (completed: bool)
    modifies fs
    ensures SaveOutcome(fs.files, completed) == SaveTables(old(fs.files), path, tables, accepts)
  {
    var i := 0;
    while i < |tables|
      invariant 0 <= i <= |tables|
      invariant SaveTables(fs.files, path, tables[i..], accepts) == SaveTables(old(fs.files), path, tables, accepts)
    {
      var t := tables[i];
      assert tables[i..][0] == t && tables[i..][1..] == tables[i + 1..];
      var headers := GetTableHeaders(t);
      if headers.None? {
        // AttributeError from get_table_headers: not a ValueError, so it leaves the loop
        return false;
      }
      var rows := GetTableRows(t);
      WriteOne(fs, path, headers.value, rows, accepts);
      i := i + 1;
    }
    assert tables[i..] == [];
    return true;
  }
}
