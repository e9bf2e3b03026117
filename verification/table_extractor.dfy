/**
 * The table extractor shared by both copies of the scraper:
 * `get_all_tables`, `get_table_headers` and `get_table_rows`.
 *
 * A page arrives already parsed.  Its body is a sequence of nodes, some of
 * them tables; a table is its sequence of `tr` rows (any `thead`/`tbody`
 * wrappers are flattened away) and a row is its sequence of `th`/`td` cells,
 * each with its text content.
 */
module TableExtractor {
  import opened Wrappers
  import opened Text

  datatype Tag = Th | Td
  datatype Cell = Cell(tag: Tag, text: string)
  datatype Tr = Tr(cells: seq<Cell>)
  datatype Table = Table(rows: seq<Tr>)
  /** A node directly under the document: a table, or any other element (a `p`, a `div`, ...). */
  datatype Node = TableNode(table: Table) | OtherNode(name: string)
  datatype Document = Document(nodes: seq<Node>)

  // ---------------------------------------------------------------------
  // get_all_tables

  /** `soup.find_all("table")`: the tables of the page in document order. */
  function AllTables(nodes: seq<Node>): (r: seq<Table>)
    ensures |r| <= |nodes|
    ensures forall t :: t in r ==> TableNode(t) in nodes
    ensures (forall i :: 0 <= i < |nodes| ==> nodes[i].OtherNode?) ==> r == []
  {
    if |nodes| == 0 then []
    else
      var rest := AllTables(nodes[1..]);
      assert forall t :: t in rest ==> TableNode(t) in nodes[1..];
      match nodes[0]
      case TableNode(t) => [t] + rest
      case OtherNode(_) => rest
  }

  /** Finding tables distributes over concatenation: order is kept and nothing is added or lost. */
  lemma {:induction false} AllTablesAppend(a: seq<Node>, b: seq<Node>)
    ensures AllTables(a + b) == AllTables(a) + AllTables(b)
    decreases |a|
  {
    if |a| == 0 {
      assert a + b == b;
    } else {
      assert (a + b)[0] == a[0] && (a + b)[1..] == a[1..] + b;
      AllTablesAppend(a[1..], b);
    }
  }

  /** Every node of a page made only of tables is found, in order. */
  lemma {:induction false} AllTablesOfTables(nodes: seq<Node>)
    requires forall i :: 0 <= i < |nodes| ==> nodes[i].TableNode?
    ensures |AllTables(nodes)| == |nodes|
    ensures forall i :: 0 <= i < |nodes| ==> AllTables(nodes)[i] == nodes[i].table
    decreases |nodes|
  {
    if |nodes| > 0 {
      AllTablesOfTables(nodes[1..]);
    }
  }

  /** Two tables with a paragraph between them: both tables are found, in order. */
  lemma AllTablesExample(t1: Table, t2: Table)
    ensures AllTables([TableNode(t1), OtherNode("p"), TableNode(t2)]) == [t1, t2]
  {
    var nodes := [TableNode(t1), OtherNode("p"), TableNode(t2)];
    assert nodes[1..][1..] == [TableNode(t2)];
    assert AllTables([TableNode(t2)]) == [t2] by { assert [TableNode(t2)][1..] == []; }
    assert AllTables(nodes[1..]) == [t2];
  }

  // ---------------------------------------------------------------------
  // Cell texts

  /**
   * `[c.text.strip() for c in tr.find_all(tag)]`: the stripped texts of the
   * cells with the given tag, in order, one per such cell.
   */
  function TaggedTexts(cells: seq<Cell>, tag: Tag): (r: seq<string>)
    ensures |r| <= |cells|
    ensures forall i :: 0 <= i < |r| ==> Trimmed(r[i])
    decreases |cells|
  {
    if |cells| == 0 then []
    else
      var init, last := cells[..|cells| - 1], cells[|cells| - 1];
      TaggedTexts(init, tag) + (if last.tag == tag then [Strip(last.text)] else [])
  }

  lemma {:induction false} TaggedTextsAppend(a: seq<Cell>, b: seq<Cell>, tag: Tag)
    ensures TaggedTexts(a + b, tag) == TaggedTexts(a, tag) + TaggedTexts(b, tag)
    decreases |b|
  {
    if |b| == 0 {
      assert a + b == a;
    } else {
      assert (a + b)[..|a + b| - 1] == a + b[..|b| - 1];
      TaggedTextsAppend(a, b[..|b| - 1], tag);
    }
  }

  lemma {:induction false} TaggedTextsUniformLength(cells: seq<Cell>, tag: Tag)
    requires forall i :: 0 <= i < |cells| ==> cells[i].tag == tag
    ensures |TaggedTexts(cells, tag)| == |cells|
    decreases |cells|
  {
    if |cells| > 0 {
      TaggedTextsUniformLength(cells[..|cells| - 1], tag);
    }
  }

  lemma {:induction false} TaggedTextsUniformAt(cells: seq<Cell>, tag: Tag, i: nat)
    requires forall k :: 0 <= k < |cells| ==> cells[k].tag == tag
    requires i < |cells|
    ensures |TaggedTexts(cells, tag)| == |cells|
    ensures TaggedTexts(cells, tag)[i] == Strip(cells[i].text)
    decreases |cells|
  {
    var n := |cells| - 1;
    var init := cells[..n];
    TaggedTextsUniformLength(init, tag);
    if i < n {
      TaggedTextsUniformAt(init, tag, i);
      assert init[i] == cells[i];
    }
  }

  /** In a row whose cells all carry the tag, entry `i` is the stripped text of cell `i`. */
  lemma TaggedTextsUniform(cells: seq<Cell>, tag: Tag)
    requires forall i :: 0 <= i < |cells| ==> cells[i].tag == tag
    ensures |TaggedTexts(cells, tag)| == |cells|
    ensures forall i :: 0 <= i < |cells| ==> TaggedTexts(cells, tag)[i] == Strip(cells[i].text)
  {
    TaggedTextsUniformLength(cells, tag);
    forall i | 0 <= i < |cells| ensures TaggedTexts(cells, tag)[i] == Strip(cells[i].text) {
      TaggedTextsUniformAt(cells, tag, i);
    }
  }

  /** Cells with the other tag contribute nothing. */
  lemma {:induction false} TaggedTextsNone(cells: seq<Cell>, tag: Tag)
    requires forall i :: 0 <= i < |cells| ==> cells[i].tag != tag
    ensures TaggedTexts(cells, tag) == []
    decreases |cells|
  {
    if |cells| > 0 {
      TaggedTextsNone(cells[..|cells| - 1], tag);
    }
  }

  // ---------------------------------------------------------------------
  // get_table_headers and get_table_rows

  /**
   * What `get_table_headers` returns: the stripped `th` texts of the first
   * `tr`.  None stands for the AttributeError it raises on a table without
   * any `tr` (`table.find("tr")` is None).
   */
  function Headers(t: Table): (r: Option<seq<string>>)
    ensures r.None? <==> t.rows == []
    ensures r.Some? ==> |r.value| <= |t.rows[0].cells|
    ensures r.Some? ==> forall i :: 0 <= i < |r.value| ==> Trimmed(r.value[i])
  {
    if |t.rows| == 0 then None else Some(TaggedTexts(t.rows[0].cells, Th))
  }

  /**
   * What `get_table_rows` returns: one list per `tr` after the first, holding
   * the stripped `td` texts of that row.  Rows may differ in length.
   */
  function Rows(t: Table): (r: seq<seq<string>>)
    ensures |r| == if |t.rows| == 0 then 0 else |t.rows| - 1
    ensures forall i :: 0 <= i < |r| ==> |r[i]| <= |t.rows[i + 1].cells|
    ensures forall i, j :: 0 <= i < |r| && 0 <= j < |r[i]| ==> Trimmed(r[i][j])
    ensures forall i :: 0 <= i < |r| ==> r[i] == TaggedTexts(t.rows[i + 1].cells, Td)
  {
    if |t.rows| == 0 then []
    else seq(|t.rows| - 1, i requires 0 <= i < |t.rows| - 1 => TaggedTexts(t.rows[i + 1].cells, Td))
  }

  /**
   * The append loop over the cells of one `tr` that both extractors run:
   * the stripped text of every cell with the tag, in order.
   */
  method TagTexts(cells: seq<Cell>, tag: Tag) returns (texts: seq<string>)
    ensures texts == TaggedTexts(cells, tag)
  {
    texts := [];
    var i := 0;
    while i < |cells|
      invariant 0 <= i <= |cells|
      invariant texts == TaggedTexts(cells[..i], tag)
    {
      assert cells[..i + 1][..i] == cells[..i];
      if cells[i].tag == tag {
        texts := texts + [Strip(cells[i].text)];
      }
      i := i + 1;
    }
    assert cells[..i] == cells;
  }

  /** `get_table_headers(table)`. */
  method GetTableHeaders(t: Table) returns (headers: Option<seq<string>>)
    ensures headers == Headers(t)
  {
    if |t.rows| == 0 {
      // table.find("tr") is None, and calling find_all on it raises
      return None;
    }
    var hs := TagTexts(t.rows[0].cells, Th);
    return Some(hs);
  }

  /** `get_table_rows(table)`. */
  method GetTableRows(t: Table) returns (rows: seq<seq<string>>)
    ensures rows == Rows(t)
  {
    rows := [];
    if |t.rows| == 0 {
      return;
    }
    var k := 1;
    while k < |t.rows|
      invariant 1 <= k <= |t.rows|
      invariant |rows| == k - 1
      invariant forall i :: 0 <= i < k - 1 ==> rows[i] == TaggedTexts(t.rows[i + 1].cells, Td)
    {
      var cells := TagTexts(t.rows[k].cells, Td);
      rows := rows + [cells];
      k := k + 1;
    }
  }

  // ---------------------------------------------------------------------
  // Properties

  /** Only the first row feeds the headers: the rows after it never change them. */
  lemma HeadersFromFirstRowOnly(first: Tr, rest1: seq<Tr>, rest2: seq<Tr>)
    ensures Headers(Table([first] + rest1)) == Headers(Table([first] + rest2))
    ensures Headers(Table([first] + rest1)).Some?
  {
  }

  /** A table with a single `tr` has headers but no data rows. */
  lemma SingleRowTable(first: Tr)
    ensures Rows(Table([first])) == []
    ensures Headers(Table([first])) == Some(TaggedTexts(first.cells, Th))
  {
  }

  /** Header cells in the body rows never show up in the data rows. */
  lemma HeaderCellsNotData(t: Table, i: nat)
    requires 0 < i < |t.rows|
    requires forall k :: 0 <= k < |t.rows[i].cells| ==> t.rows[i].cells[k].tag == Th
    ensures Rows(t)[i - 1] == []
  {
    TaggedTextsNone(t.rows[i].cells, Td);
  }

  function HeaderRow(texts: seq<string>): (r: Tr)
    ensures |r.cells| == |texts|
    ensures forall i :: 0 <= i < |texts| ==> r.cells[i] == Cell(Th, texts[i])
  {
    Tr(seq(|texts|, i requires 0 <= i < |texts| => Cell(Th, texts[i])))
  }

  function DataRow(texts: seq<string>): (r: Tr)
    ensures |r.cells| == |texts|
    ensures forall i :: 0 <= i < |texts| ==> r.cells[i] == Cell(Td, texts[i])
  {
    Tr(seq(|texts|, i requires 0 <= i < |texts| => Cell(Td, texts[i])))
  }

  /** A row built from trimmed texts gives those texts back. */
  lemma HeaderRowTexts(texts: seq<string>)
    requires forall i :: 0 <= i < |texts| ==> Trimmed(texts[i])
    ensures TaggedTexts(HeaderRow(texts).cells, Th) == texts
  {
    var cells := HeaderRow(texts).cells;
    TaggedTextsUniform(cells, Th);
    var r := TaggedTexts(cells, Th);
    forall i | 0 <= i < |texts| ensures r[i] == texts[i] {
      StripTrimmed(texts[i]);
    }
  }

  lemma DataRowTexts(texts: seq<string>)
    requires forall i :: 0 <= i < |texts| ==> Trimmed(texts[i])
    ensures TaggedTexts(DataRow(texts).cells, Td) == texts
  {
    var cells := DataRow(texts).cells;
    TaggedTextsUniform(cells, Td);
    var r := TaggedTexts(cells, Td);
    forall i | 0 <= i < |texts| ensures r[i] == texts[i] {
      StripTrimmed(texts[i]);
    }
  }

  /** A header row of three `th` cells gives the three header texts, in order. */
  lemma HeadersExample(body: seq<Tr>)
    ensures Headers(Table([HeaderRow(["Header 1", "Header 2", "Header 3"])] + body))
         == Some(["Header 1", "Header 2", "Header 3"])
  {
    HeaderRowTexts(["Header 1", "Header 2", "Header 3"]);
  }

  /** One `td` row per list of texts. */
  function DataRows(rows: seq<seq<string>>): (r: seq<Tr>)
    ensures |r| == |rows|
    ensures forall i :: 0 <= i < |rows| ==> r[i] == DataRow(rows[i])
  {
    seq(|rows|, i requires 0 <= i < |rows| => DataRow(rows[i]))
  }

  /**
   * A table made of a `th` row and then `td` rows, all of trimmed texts,
   * gives back exactly those headers and those rows: `get_table_headers`
   * and `get_table_rows` read back what the table was built from.
   */
  lemma TableReadBack(headers: seq<string>, rows: seq<seq<string>>)
    requires forall j :: 0 <= j < |headers| ==> Trimmed(headers[j])
    requires forall i, j :: 0 <= i < |rows| && 0 <= j < |rows[i]| ==> Trimmed(rows[i][j])
    ensures Headers(Table([HeaderRow(headers)] + DataRows(rows))) == Some(headers)
    ensures Rows(Table([HeaderRow(headers)] + DataRows(rows))) == rows
  {
    var t := Table([HeaderRow(headers)] + DataRows(rows));
    HeaderRowTexts(headers);
    forall i | 0 <= i < |rows| ensures Rows(t)[i] == rows[i] {
      assert t.rows[i + 1] == DataRow(rows[i]);
      DataRowTexts(rows[i]);
    }
  }

  /** Three body rows of two `td` cells each give three two-item lists, in order. */
  lemma RowsExample()
    ensures Rows(Table([HeaderRow(["Header 1", "Header 2"]),
                        DataRow(["Data 1a", "Data 1b"]),
                        DataRow(["Data 2a", "Data 2b"]),
                        DataRow(["Data 3a", "Data 3b"])]))
         == [["Data 1a", "Data 1b"], ["Data 2a", "Data 2b"], ["Data 3a", "Data 3b"]]
  {
    var rows := [["Data 1a", "Data 1b"], ["Data 2a", "Data 2b"], ["Data 3a", "Data 3b"]];
    assert [HeaderRow(["Header 1", "Header 2"]), DataRow(rows[0]), DataRow(rows[1]), DataRow(rows[2])]
        == [HeaderRow(["Header 1", "Header 2"])] + DataRows(rows);
    TableReadBack(["Header 1", "Header 2"], rows);
  }
}
