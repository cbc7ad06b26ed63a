/**
 * Per-column classification and coercion. Each column's cells, taken from
 * every record, are classified once; then every record is rewritten column
 * by column: an empty cell becomes null, a non-empty cell of a FLOAT column
 * becomes the number parsed from its comma-replaced text, and any other
 * non-empty cell keeps its text.
 */
module Coercer {
  import opened Cells
  import opened Classifier

  /** Every record has a value under `column`. */
  predicate HasColumn(records: seq<Record>, column: string)
  {
    forall j | 0 <= j < |records| :: column in records[j]
  }

  /** Every record has a value under every column name. */
  predicate HasColumns(records: seq<Record>, names: seq<string>)
  {
    forall n | n in names :: HasColumn(records, n)
  }

  /** `[row[column] for row in dicts_to_bq]` */
  function ColumnValues(records: seq<Record>, column: string): (col: seq<string>)
    requires HasColumn(records, column)
    ensures |col| == |records|
    ensures forall j | 0 <= j < |records| :: col[j] == RawText(records[j][column])
  {
    if records == [] then []
    else [RawText(records[0][column])] + ColumnValues(records[1..], column)
  }

  /** `column_types` as a map: each column name to the type of that column's values. */
  function ColumnTypes(isFloat: string -> bool, names: seq<string>, records: seq<Record>): (types: map<string, ColumnType>)
    requires HasColumns(records, names)
    ensures types.Keys == set n | n in names
  {
    map n | n in names :: SequenceType(isFloat, ColumnValues(records, n))
  }

  /** The loop that fills `column_types`. */
  method ClassifyColumns(isFloat: string -> bool, names: seq<string>, records: seq<Record>)
    returns (types: map<string, ColumnType>)
    requires HasColumns(records, names)
    ensures types.Keys == set n | n in names
    ensures forall n | n in names :: types[n] == SequenceType(isFloat, ColumnValues(records, n))
    ensures types == ColumnTypes(isFloat, names, records)
  {
    types := map[];
    var i := 0;
    while i < |names|
      invariant 0 <= i <= |names|
      invariant HasColumns(records, names[..i])
      invariant types == ColumnTypes(isFloat, names[..i], records)
    {
      var column := names[i];
      var sequence := ColumnValues(records, column);
      ColumnTypesStep(isFloat, names, records, i);
      types := types[column := SequenceType(isFloat, sequence)];
      i := i + 1;
    }
    assert names[..i] == names;
  }

  /** Classifying one more column adds its entry to the map. */
  lemma ColumnTypesStep(isFloat: string -> bool, names: seq<string>, records: seq<Record>, i: nat)
    requires i < |names| && HasColumns(records, names)
    ensures HasColumns(records, names[..i]) && HasColumns(records, names[..i + 1])
    ensures ColumnTypes(isFloat, names[..i + 1], records)
            == ColumnTypes(isFloat, names[..i], records)[names[i] := SequenceType(isFloat, ColumnValues(records, names[i]))]
  {
    assert names[..i + 1] == names[..i] + [names[i]];
    assert forall n | n in names[..i + 1] :: n in names;
  }

  /**
   * One pass of the coercion loop over one cell of a column of type `t`.
   * Python truthiness decides: an empty (or already null) cell becomes null.
   */
  function CoerceCell(c: Cell, t: ColumnType): (r: Cell)
    // whatever the type, a false cell becomes null and a true one stays true
    ensures Truthy(c) <==> r != Null
    // FLOAT: the parsed literal is the cell's text with ',' turned into '.'
    ensures t == FLOAT && Truthy(c) ==> r == Num(ReplaceComma(RawText(c)))
    // STRING and DATE: a non-empty cell keeps its text unchanged
    ensures t != FLOAT && Truthy(c) ==> r == c
  {
    if t == FLOAT then
      if Truthy(c) then Num(ReplaceComma(RawText(c))) else Null
    else
      if Truthy(c) then c else Null
  }

  /** A second pass over a STRING or DATE column changes nothing. */
  lemma CoerceCellIdempotent(c: Cell, t: ColumnType)
    requires t != FLOAT
    ensures CoerceCell(CoerceCell(c, t), t) == CoerceCell(c, t)
  {
  }

  /**
   * Each FLOAT column name occurs once in the header. A repeated FLOAT
   * column makes the source's second pass call `.replace` on a float,
   * which raises.
   */
  predicate FloatColumnsDistinct(names: seq<string>, types: map<string, ColumnType>)
    requires forall n | n in names :: n in types
  {
    forall i, j | 0 <= i < j < |names| && names[i] == names[j] :: types[names[i]] != FLOAT
  }

  /** The cell under key `k` of a record after every column has had its pass. */
  function Coerced(rec: Record, k: string, names: seq<string>, types: map<string, ColumnType>): (c: Cell)
    requires k in rec && forall n | n in names :: n in types
    // keys outside the header (`sheet_name`) keep their value
    ensures k !in names ==> c == rec[k]
    // header columns: empty cells become null, the others stay non-null
    ensures k in names ==> (c != Null <==> Truthy(rec[k]))
    ensures k in names && types[k] == FLOAT && Truthy(rec[k]) ==> c.Num?
  {
    if k in names then CoerceCell(rec[k], types[k]) else rec[k]
  }

  /** A record after every column has had its pass. */
  function CoerceRecord(rec: Record, names: seq<string>, types: map<string, ColumnType>): (r: Record)
    requires forall n | n in names :: n in types
    ensures r.Keys == rec.Keys
  {
    map k | k in rec :: Coerced(rec, k, names, types)
  }

  /** `dicts_to_bq` after the coercion loops. */
  function CoerceAll(records: seq<Record>, names: seq<string>, types: map<string, ColumnType>): (rows: seq<Record>)
    requires forall n | n in names :: n in types
    ensures |rows| == |records|
    ensures forall j | 0 <= j < |records| :: rows[j].Keys == records[j].Keys
  {
    if records == [] then [] else [CoerceRecord(records[0], names, types)] + CoerceAll(records[1..], names, types)
  }

  lemma {:induction false} CoerceAllAt(records: seq<Record>, names: seq<string>, types: map<string, ColumnType>)
    requires forall n | n in names :: n in types
    ensures forall j | 0 <= j < |records| :: CoerceAll(records, names, types)[j] == CoerceRecord(records[j], names, types)
    decreases |records|
  {
    if records != [] {
      CoerceAllAt(records[1..], names, types);
    }
  }

  /** Rows that agree with the coercion cell by cell are the coerced records. */
  lemma CoercedRows(rows: seq<Record>, records: seq<Record>, names: seq<string>, types: map<string, ColumnType>)
    requires forall n | n in names :: n in types
    requires |rows| == |records|
    requires forall j | 0 <= j < |rows| :: rows[j].Keys == records[j].Keys
    requires forall j, k | 0 <= j < |rows| && k in rows[j] :: rows[j][k] == Coerced(records[j], k, names, types)
    ensures rows == CoerceAll(records, names, types)
  {
    CoerceAllAt(records, names, types);
    forall j | 0 <= j < |rows|
      ensures rows[j] == CoerceAll(records, names, types)[j]
    {
      assert rows[j] == CoerceRecord(records[j], names, types);
    }
  }

  /** The inner loop: one column's pass over every record. */
  method CoerceColumn(column: string, t: ColumnType, rows: seq<Record>) returns (out: seq<Record>)
    requires HasColumn(rows, column)
    ensures |out| == |rows|
    ensures forall q | 0 <= q < |rows| :: out[q] == rows[q][column := CoerceCell(rows[q][column], t)]
  {
    out := rows;
    var j := 0;
    while j < |out|
      invariant 0 <= j <= |out| == |rows|
      invariant forall q | 0 <= q < j :: out[q] == rows[q][column := CoerceCell(rows[q][column], t)]
      invariant forall q | j <= q < |rows| :: out[q] == rows[q]
    {
      var row := out[j];
      if t == FLOAT {
        if Truthy(row[column]) {
          row := row[column := Num(ReplaceComma(RawText(row[column])))];
        } else {
          row := row[column := Null];
        }
      } else {
        if !Truthy(row[column]) {
          row := row[column := Null];
        }
      }
      assert row == rows[j][column := CoerceCell(rows[j][column], t)];
      out := out[j := row];
      j := j + 1;
    }
  }

  /** The outer loop: every column of the header has its pass, in header order. */
  method CoerceColumns(names: seq<string>, types: map<string, ColumnType>, records: seq<Record>)
    returns (rows: seq<Record>)
    requires HasColumns(records, names)
    requires forall n | n in names :: n in types
    requires FloatColumnsDistinct(names, types)
    // no record is added, removed or re-keyed
    ensures |rows| == |records|
    ensures forall j | 0 <= j < |rows| :: rows[j].Keys == records[j].Keys
    // each column's cells are coerced once by the column's type; other keys are untouched
    ensures forall j, k | 0 <= j < |rows| && k in rows[j] :: rows[j][k] == Coerced(records[j], k, names, types)
    ensures rows == CoerceAll(records, names, types)
  {
    rows := records;
    var i := 0;
    while i < |names|
      invariant 0 <= i <= |names|
      invariant |rows| == |records|
      invariant forall j | 0 <= j < |rows| :: rows[j].Keys == records[j].Keys
      invariant forall j, k | 0 <= j < |rows| && k in rows[j] ::
                  rows[j][k] == Coerced(records[j], k, names[..i], types)
    {
      var column := names[i];
      var t := types[column];
      assert HasColumn(records, column);
      assert names[..i + 1] == names[..i] + [column];
      assert t == FLOAT ==> column !in names[..i];
      var next := CoerceColumn(column, t, rows);
      forall j, k | 0 <= j < |next| && k in next[j]
        ensures next[j][k] == Coerced(records[j], k, names[..i + 1], types)
      {
        if k == column && column in names[..i] {
          CoerceCellIdempotent(records[j][k], t);
        }
      }
      rows := next;
      i := i + 1;
    }
    assert names[..i] == names;
    CoercedRows(rows, records, names, types);
  }

  /**
   * Classification makes the FLOAT coercion safe: in a column classified
   * FLOAT, every cell that coercion parses is a literal the parser accepts.
   */
  lemma FloatColumnsParse(isFloat: string -> bool, records: seq<Record>, column: string, j: nat)
    requires HasColumn(records, column)
    requires SequenceType(isFloat, ColumnValues(records, column)) == FLOAT
    requires j < |records| && records[j][column].Text? && records[j][column].text != ""
    ensures CoerceCell(records[j][column], FLOAT).Num?
    ensures isFloat(CoerceCell(records[j][column], FLOAT).literal)
  {
    var col := ColumnValues(records, column);
    assert col[j] == RawText(records[j][column]);
  }
}
