/** Turning the rows of a finished Athena query into records
    (AnalyticsService._parse_athena_results). The first row names the
    columns; every later row becomes a map from column name to cell text. */
module AthenaResults {
  import opened Base

  /** One cell of a result row; Athena leaves VarCharValue out for a NULL. */
  datatype Cell = Cell(varChar: Option<string>)

  type Row = seq<Cell>

  /** One parsed data row. */
  type Record = map<string, string>

  /** str() of the KeyError raised by a header cell without VarCharValue. */
  const MissingVarCharValue := "'VarCharValue'"

  /** str() of the IndexError raised by a data row longer than the header. */
  const IndexOutOfRange := "list index out of range"

  /** A cell's text, with "" standing for an absent VarCharValue. */
  function CellText(c: Cell): string {
    match c.varChar
    case Some(t) => t
    case None => ""
  }

  /** The column names, read from the header row one cell after another;
      the first cell without VarCharValue raises. */
  function HeaderNames(header: Row): (r: Result<seq<string>>)
    ensures r.Ok? <==> forall i :: 0 <= i < |header| ==> header[i].varChar.Some?
    ensures r.Ok? ==> |r.value| == |header|
    ensures r.Ok? ==> forall i :: 0 <= i < |header| ==> r.value[i] == header[i].varChar.value
    ensures r.Err? ==> r.message == MissingVarCharValue
  {
    if header == [] then Ok([])
    else match header[0].varChar
      case None => Err(MissingVarCharValue)
      case Some(name) =>
        match HeaderNames(header[1..])
        case Err(m) => Err(m)
        case Ok(rest) => Ok([name] + rest)
  }

  /** The record built by assigning the cells of `row` to their columns in
      order, so that a repeated column name keeps its last cell. */
  function RowMap(columns: seq<string>, row: Row): Record
    requires |row| <= |columns|
    decreases |row|
  {
    if row == [] then map[]
    else RowMap(columns, row[..|row| - 1])[columns[|row| - 1] := CellText(row[|row| - 1])]
  }

  /** A record has exactly the columns its row reaches. */
  lemma {:induction false} RowMapKeys(columns: seq<string>, row: Row)
    requires |row| <= |columns|
    ensures RowMap(columns, row).Keys == set i | 0 <= i < |row| :: columns[i]
  {
    if row != [] {
      var init := row[..|row| - 1];
      RowMapKeys(columns, init);
      assert (set i | 0 <= i < |row| :: columns[i])
          == (set i | 0 <= i < |init| :: columns[i]) + {columns[|row| - 1]};
    }
  }

  /** Cell i lands under columns[i] unless a later cell of the same row
      has the same column name. */
  lemma {:induction false} RowMapAt(columns: seq<string>, row: Row, i: nat)
    requires |row| <= |columns| && i < |row|
    requires forall j :: i < j < |row| ==> columns[j] != columns[i]
    ensures columns[i] in RowMap(columns, row)
    ensures RowMap(columns, row)[columns[i]] == CellText(row[i])
  {
    if i < |row| - 1 {
      var init := row[..|row| - 1];
      RowMapAt(columns, init, i);
    }
  }

  predicate FitsHeader(columns: seq<string>, rows: seq<Row>) {
    forall k :: 1 <= k < |rows| ==> |rows[k]| <= |columns|
  }

  /** What parsing answers for the rows of a result set: no rows give no
      records; otherwise one record per row after the header, unless the
      header lacks a name or a data row outruns it. */
  function ParsedRows(rows: seq<Row>): (r: Result<seq<Record>>)
    ensures rows == [] ==> r == Ok([])
    ensures r.Ok? && rows != [] ==> |r.value| == |rows| - 1
    ensures rows != [] ==>
      (r.Ok? <==> HeaderNames(rows[0]).Ok? && FitsHeader(HeaderNames(rows[0]).value, rows))
    ensures rows != [] && HeaderNames(rows[0]).Err? ==> r == Err(MissingVarCharValue)
    ensures rows != [] && HeaderNames(rows[0]).Ok? && !FitsHeader(HeaderNames(rows[0]).value, rows)
      ==> r == Err(IndexOutOfRange)
  {
    if rows == [] then Ok([])
    else match HeaderNames(rows[0])
      case Err(m) => Err(m)
      case Ok(columns) =>
        if FitsHeader(columns, rows) then
          Ok(seq(|rows| - 1, k requires 0 <= k < |rows| - 1 => RowMap(columns, rows[k + 1])))
        else Err(IndexOutOfRange)
  }

  /** A result set with only a header row parses to no records. */
  lemma HeaderOnlyGivesNoRecords(header: Row)
    requires forall i :: 0 <= i < |header| ==> header[i].varChar.Some?
    ensures ParsedRows([header]) == Ok([])
  {
  }

  /** Record k is data row k + 1, cell by cell: columns[i] maps to the text
      of cell i (or "" for a NULL) when no later cell repeats the name, and
      the record has no other keys. */
  lemma ParsedRecordAt(rows: seq<Row>, k: nat, i: nat)
    requires ParsedRows(rows).Ok? && rows != []
    requires k < |rows| - 1 && i < |rows[k + 1]|
    requires forall j :: i < j < |rows[k + 1]| ==>
      rows[0][j].varChar.value != rows[0][i].varChar.value
    ensures var record := ParsedRows(rows).value[k];
      && rows[0][i].varChar.Some?
      && record.Keys == (set j | 0 <= j < |rows[k + 1]| :: rows[0][j].varChar.value)
      && record[rows[0][i].varChar.value] == CellText(rows[k + 1][i])
  {
    var columns := HeaderNames(rows[0]).value;
    assert ParsedRows(rows).value[k] == RowMap(columns, rows[k + 1]);
    RowMapKeys(columns, rows[k + 1]);
    RowMapAt(columns, rows[k + 1], i);
    assert (set j | 0 <= j < |rows[k + 1]| :: columns[j])
        == (set j | 0 <= j < |rows[k + 1]| :: rows[0][j].varChar.value);
  }

  /** The parsing loop: the header is read first, then each data row is
      turned into a record cell by cell and appended. */
  method ParseAthenaResults(rows: seq<Row>) returns (r: Result<seq<Record>>)
    ensures r == ParsedRows(rows)
  {
    if |rows| == 0 {
      return Ok([]);
    }
    var header := HeaderNames(rows[0]);
    if header.Err? {
      return Err(header.message);
    }
    var columns := header.value;
    var data: seq<Record> := [];
    var k := 1;
    while k < |rows|
      invariant 1 <= k <= |rows|
      invariant forall t :: 1 <= t < k ==> |rows[t]| <= |columns|
      invariant |data| == k - 1
      invariant forall t :: 0 <= t < k - 1 ==> data[t] == RowMap(columns, rows[t + 1])
    {
      var row := rows[k];
      var rowData: Record := map[];
      var i := 0;
      while i < |row|
        invariant 0 <= i <= |row| && i <= |columns|
        invariant rowData == RowMap(columns, row[..i])
      {
        if i >= |columns| {
          return Err(IndexOutOfRange);
        }
        assert row[..i + 1][..i] == row[..i];
        rowData := rowData[columns[i] := CellText(row[i])];
        i := i + 1;
      }
      assert row[..i] == row;
      data := data + [rowData];
      k := k + 1;
    }
    assert FitsHeader(columns, rows);
    assert data == seq(|rows| - 1, t requires 0 <= t < |rows| - 1 => RowMap(columns, rows[t + 1]));
    return Ok(data);
  }
}
