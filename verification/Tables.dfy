// Parquet files as row sequences, and the concatenating writer (retikon_core/compaction/io.py).

module Tables {

  datatype Value = Null | Cell(content: string)

  type Row = map<string, Value>

  datatype TableData = TableData(columns: set<string>, rows: seq<Row>)

  // Every row has exactly the columns of its file.
  type Table = t: TableData | forall r | r in t.rows :: r.Keys == t.columns
    witness TableData({}, [])

  // The columns of all sources together.
  function UnifySchema(tables: seq<Table>): (schema: set<string>)
    ensures forall t | t in tables :: t.columns <= schema
  {
    if tables == [] then {} else UnifySchema(tables[..|tables| - 1]) + tables[|tables| - 1].columns
  }

  lemma {:induction false} SchemaIsUnion(tables: seq<Table>)
    ensures forall c :: c in UnifySchema(tables) <==> exists t :: t in tables && c in t.columns
  {
    if tables != [] {
      var m := |tables| - 1;
      assert tables == tables[..m] + [tables[m]];
      SchemaIsUnion(tables[..m]);
    }
  }

  // Missing columns are filled with nulls.
  function AlignRow(row: Row, schema: set<string>): Row {
    map c | c in schema :: if c in row then row[c] else Null
  }

  function AlignTable(t: Table, schema: set<string>): Table {
    TableData(schema, seq(|t.rows|, i requires 0 <= i < |t.rows| => AlignRow(t.rows[i], schema)))
  }

  // Rows of the aligned sources, one source after the other.
  function AlignedRows(tables: seq<Table>, schema: set<string>): seq<Row> {
    if tables == [] then []
    else AlignedRows(tables[..|tables| - 1], schema) + AlignTable(tables[|tables| - 1], schema).rows
  }

  lemma {:induction false} AlignedRowsFit(tables: seq<Table>, schema: set<string>)
    ensures forall r | r in AlignedRows(tables, schema) :: r.Keys == schema
  {
    if tables != [] {
      AlignedRowsFit(tables[..|tables| - 1], schema);
    }
  }

  function Concatenated(tables: seq<Table>): Table {
    var schema := UnifySchema(tables);
    AlignedRowsFit(tables, schema);
    TableData(schema, AlignedRows(tables, schema))
  }

  method WriteTables(tables: seq<Table>, schema: set<string>) returns (out: Table, rows: nat)
    requires schema == UnifySchema(tables)
    ensures out == Concatenated(tables) && rows == |out.rows|
    ensures forall c :: c in out.columns <==> exists t :: t in tables && c in t.columns
  {
    var written: seq<Row> := [];
    rows := 0;
    for k := 0 to |tables|
      invariant written == AlignedRows(tables[..k], schema) && rows == |written|
    {
      var table := AlignTable(tables[k], schema);
      assert tables[..k + 1][..k] == tables[..k];
      written := written + table.rows;
      rows := rows + |table.rows|;
    }
    assert tables[..|tables|] == tables;
    AlignedRowsFit(tables, schema);
    SchemaIsUnion(tables);
    out := TableData(schema, written);
  }

  // ---------------------------------------------------------------- what a row holds

  // A row without its null cells: what padding does not change.
  function Facts(row: Row): Row {
    map c | c in row && row[c] != Null :: row[c]
  }

  function Content(t: Table): (s: seq<Row>)
    ensures |s| == |t.rows|
  {
    seq(|t.rows|, i requires 0 <= i < |t.rows| => Facts(t.rows[i]))
  }

  function Contents(tables: seq<Table>): seq<Row> {
    if tables == [] then [] else Contents(tables[..|tables| - 1]) + Content(tables[|tables| - 1])
  }

  lemma AlignKeepsFacts(row: Row, schema: set<string>)
    requires row.Keys <= schema
    ensures Facts(AlignRow(row, schema)) == Facts(row)
  {
  }

  lemma AlignKeepsContent(t: Table, schema: set<string>)
    requires t.columns <= schema
    ensures Content(AlignTable(t, schema)) == Content(t)
  {
    forall i | 0 <= i < |t.rows|
      ensures Facts(AlignRow(t.rows[i], schema)) == Facts(t.rows[i])
    {
      assert t.rows[i] in t.rows;
      AlignKeepsFacts(t.rows[i], schema);
    }
  }

  lemma {:induction false} AlignedRowsContent(tables: seq<Table>, schema: set<string>)
    requires forall t | t in tables :: t.columns <= schema
    ensures |AlignedRows(tables, schema)| == |Contents(tables)|
    ensures forall i | 0 <= i < |Contents(tables)| :: Facts(AlignedRows(tables, schema)[i]) == Contents(tables)[i]
  {
    if tables != [] {
      var m := |tables| - 1;
      AlignedRowsContent(tables[..m], schema);
      AlignKeepsContent(tables[m], schema);
      var last := AlignTable(tables[m], schema);
      assert forall i | 0 <= i < |last.rows| :: Facts(last.rows[i]) == Content(last)[i];
    }
  }

  // Concatenation loses nothing, adds nothing and keeps the order.
  lemma ConcatenatedContent(tables: seq<Table>)
    ensures Content(Concatenated(tables)) == Contents(tables)
  {
    AlignedRowsContent(tables, UnifySchema(tables));
  }

  ghost predicate Block(s: seq<Row>, t: seq<Row>) {
    exists a, b :: t == a + s + b
  }

  lemma BlockTrans(r: seq<Row>, s: seq<Row>, t: seq<Row>)
    requires Block(r, s) && Block(s, t)
    ensures Block(r, t)
  {
    var a, b :| s == a + r + b;
    var c, d :| t == c + s + d;
    assert t == (c + a) + r + (b + d);
  }

  // Every source is a contiguous block of the concatenation.
  lemma {:induction false} SourceIsBlock(tables: seq<Table>, k: nat)
    requires k < |tables|
    ensures Block(Content(tables[k]), Contents(tables))
  {
    var m := |tables| - 1;
    if k == m {
      assert Contents(tables) == Contents(tables[..m]) + Content(tables[m]) + [];
    } else {
      SourceIsBlock(tables[..m], k);
      var a, b :| Contents(tables[..m]) == a + Content(tables[k]) + b;
      assert Contents(tables) == a + Content(tables[k]) + (b + Content(tables[m]));
    }
  }

  // ---------------------------------------------------------------- where a row comes from

  datatype Origin = Origin(source: nat, row: nat)

  function Total(lengths: seq<nat>): nat {
    if lengths == [] then 0 else Total(lengths[..|lengths| - 1]) + lengths[|lengths| - 1]
  }

  // The source and the row in it that ends up at position i of a concatenation.
  function Locate(lengths: seq<nat>, i: nat): (o: Origin)
    requires i < Total(lengths)
    ensures o.source < |lengths| && o.row < lengths[o.source]
  {
    var m := |lengths| - 1;
    var before := Total(lengths[..m]);
    if i < before then Locate(lengths[..m], i) else Origin(m, i - before)
  }

  function Lengths(tables: seq<Table>): seq<nat> {
    seq(|tables|, k requires 0 <= k < |tables| => |tables[k].rows|)
  }

  lemma {:induction false} AlignedRowOrigin(tables: seq<Table>, schema: set<string>, i: nat)
    requires i < |AlignedRows(tables, schema)|
    ensures |AlignedRows(tables, schema)| == Total(Lengths(tables))
    ensures var o := Locate(Lengths(tables), i);
      AlignedRows(tables, schema)[i] == AlignRow(tables[o.source].rows[o.row], schema)
  {
    var m := |tables| - 1;
    AlignedRowsLength(tables, schema);
    AlignedRowsLength(tables[..m], schema);
    assert Lengths(tables)[..m] == Lengths(tables[..m]);
    if i < |AlignedRows(tables[..m], schema)| {
      AlignedRowOrigin(tables[..m], schema, i);
    }
  }

  lemma {:induction false} AlignedRowsLength(tables: seq<Table>, schema: set<string>)
    ensures |AlignedRows(tables, schema)| == Total(Lengths(tables))
  {
    if tables != [] {
      var m := |tables| - 1;
      AlignedRowsLength(tables[..m], schema);
      assert Lengths(tables)[..m] == Lengths(tables[..m]);
    }
  }

  ghost predicate SameOrigins(a: seq<nat>, b: seq<nat>) {
    Total(a) == Total(b) && forall i: nat | i < Total(a) :: Locate(a, i) == Locate(b, i)
  }

  lemma DifferentOrigins(a: seq<nat>, b: seq<nat>)
    requires |a| == |b| > 0 && Total(a) == Total(b)
    requires Total(a[..|a| - 1]) < Total(b[..|b| - 1])
    ensures !SameOrigins(a, b)
  {
    var i := Total(a[..|a| - 1]);
    assert Locate(a, i).source == |a| - 1 && Locate(b, i).source < |b| - 1;
  }

  // Two files written from the same groups line up row by row exactly when every group has the
  // same number of rows in both kinds.
  lemma {:induction false} AlignedExactlyWhenCountsAgree(a: seq<nat>, b: seq<nat>)
    requires |a| == |b|
    ensures SameOrigins(a, b) <==> a == b
  {
    if SameOrigins(a, b) && a != [] {
      var m := |a| - 1;
      if Total(a[..m]) < Total(b[..m]) {
        DifferentOrigins(a, b);
      } else if Total(b[..m]) < Total(a[..m]) {
        DifferentOrigins(b, a);
      } else {
        assert forall i: nat | i < Total(a[..m]) ::
          Locate(a, i) == Locate(a[..m], i) && Locate(b, i) == Locate(b[..m], i);
        AlignedExactlyWhenCountsAgree(a[..m], b[..m]);
        assert a == a[..m] + [a[m]] && b == b[..m] + [b[m]];
      }
    }
  }
}
