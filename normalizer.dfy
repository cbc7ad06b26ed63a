/**
 * The row normalizer. Every data row of every selected sheet (each sheet's
 * own first row is its header and is skipped) becomes a record keyed by the
 * sanitized column names plus `sheet_name`. A row whose length differs from
 * the header's is dropped; the sixth such row in one sheet stops reading
 * that sheet, and the count starts again at the next sheet.
 */
module Normalizer {
  import opened Cells

  /** Malformed rows a sheet may have before the rest of it is skipped. */
  const MaxMalformedRows: nat := 5

  /** A sheet as read: its title and its rows, header row first. */
  datatype Sheet = Sheet(name: string, values: seq<seq<string>>)

  /** `values[1:]`: the rows under the header (none when the sheet is empty). */
  function DataRows(values: seq<seq<string>>): (rows: seq<seq<string>>)
    ensures |values| > 0 ==> rows == values[1..]
    ensures |values| == 0 ==> rows == []
  {
    if |values| == 0 then [] else values[1..]
  }

  /** The keys of every record built for `names`. */
  function RecordKeys(names: seq<string>): set<string>
  {
    (set n | n in names) + {SheetNameKey}
  }

  /** `{column_name: '' for column_name in column_names}` with `sheet_name` then set. */
  function BlankRecord(names: seq<string>, sheetName: string): (r: Record)
    ensures r.Keys == RecordKeys(names)
  {
    (map n | n in names :: Text(""))[SheetNameKey := Text(sheetName)]
  }

  /**
   * Assigning `row[i]` to `names[i]` for each i in turn, on top of `rec`:
   * the keys become those of `rec` plus the names.
   */
  function Assign(rec: Record, names: seq<string>, row: seq<string>): (r: Record)
    requires |row| == |names|
    ensures r.Keys == rec.Keys + (set n | n in names)
    decreases |names|
  {
    if names == [] then rec
    else
      var n := |names| - 1;
      assert names == names[..n] + [names[n]];
      assert (set x | x in names) == (set x | x in names[..n]) + {names[n]};
      Assign(rec, names[..n], row[..n])[names[n] := Text(row[n])]
  }

  /** The record a well-formed row becomes. */
  function RowRecord(names: seq<string>, sheetName: string, row: seq<string>): (r: Record)
    requires |row| == |names|
    ensures r.Keys == RecordKeys(names)
  {
    Assign(BlankRecord(names, sheetName), names, row)
  }

  /** The position of the last occurrence of `k` in `names`. */
  function LastIndex(names: seq<string>, k: string): (i: nat)
    requires k in names
    ensures i < |names| && names[i] == k
    ensures forall j | i < j < |names| :: names[j] != k
  {
    if names[|names| - 1] == k then |names| - 1 else LastIndex(names[..|names| - 1], k)
  }

  /** A key that is not a name keeps its value. */
  lemma {:induction false} AssignKeepsOthers(rec: Record, names: seq<string>, row: seq<string>, k: string)
    requires |row| == |names| && k in rec && k !in names
    ensures k in Assign(rec, names, row) && Assign(rec, names, row)[k] == rec[k]
    decreases |names|
  {
    if names != [] {
      var n := |names| - 1;
      assert k != names[n] && k !in names[..n];
      AssignKeepsOthers(rec, names[..n], row[..n], k);
    }
  }

  /** A name holds the cell of its LAST position: a later duplicate overwrites an earlier one. */
  lemma {:induction false} AssignLastWins(rec: Record, names: seq<string>, row: seq<string>, k: string)
    requires |row| == |names| && k in names
    ensures k in Assign(rec, names, row) && Assign(rec, names, row)[k] == Text(row[LastIndex(names, k)])
    decreases |names|
  {
    var n := |names| - 1;
    if names[n] != k {
      assert k in names[..n];
      AssignLastWins(rec, names[..n], row[..n], k);
    }
  }

  /**
   * A kept row's record has exactly the column names and `sheet_name` as
   * keys; column i holds `row[i]` unless a later column has the same name;
   * `sheet_name` holds the sheet's title unless a column is itself called
   * `sheet_name`.
   */
  lemma RowRecordShape(names: seq<string>, sheetName: string, row: seq<string>)
    requires |row| == |names|
    ensures RowRecord(names, sheetName, row).Keys == RecordKeys(names)
    ensures forall i | 0 <= i < |names| && (forall j | i < j < |names| :: names[j] != names[i]) ::
              RowRecord(names, sheetName, row)[names[i]] == Text(row[i])
    ensures SheetNameKey !in names ==> RowRecord(names, sheetName, row)[SheetNameKey] == Text(sheetName)
  {
    var blank := BlankRecord(names, sheetName);
    forall i | 0 <= i < |names| && (forall j | i < j < |names| :: names[j] != names[i])
      ensures RowRecord(names, sheetName, row)[names[i]] == Text(row[i])
    {
      AssignLastWins(blank, names, row, names[i]);
      assert LastIndex(names, names[i]) == i;
    }
    if SheetNameKey !in names {
      AssignKeepsOthers(blank, names, row, SheetNameKey);
    }
  }

  /**
   * The records one sheet yields, read as the source's loop reads it: `bad`
   * malformed rows have been seen so far in this sheet.
   */
  function SheetRecords(names: seq<string>, sheetName: string, rows: seq<seq<string>>, bad: nat): (r: seq<Record>)
    // what is kept is a prefix of the well-formed rows' records, at most one per row
    ensures r <= WellFormedRecords(names, sheetName, rows)
    ensures |r| <= |rows|
    // every record has the column names and `sheet_name` as its keys
    ensures forall j | 0 <= j < |r| :: r[j].Keys == RecordKeys(names)
    decreases |rows|
  {
    if rows == [] then []
    else if |rows[0]| != |names| then
      if bad + 1 > MaxMalformedRows then [] else SheetRecords(names, sheetName, rows[1..], bad + 1)
    else [RowRecord(names, sheetName, rows[0])] + SheetRecords(names, sheetName, rows[1..], bad)
  }

  /** The number of rows whose length differs from the header's. */
  function Malformed(names: seq<string>, rows: seq<seq<string>>): nat
  {
    if rows == [] then 0
    else (if |rows[0]| != |names| then 1 else 0) + Malformed(names, rows[1..])
  }

  /** Reference reading without the breaker: every well-formed row's record, in order. */
  function WellFormedRecords(names: seq<string>, sheetName: string, rows: seq<seq<string>>): seq<Record>
  {
    if rows == [] then []
    else (if |rows[0]| != |names| then [] else [RowRecord(names, sheetName, rows[0])])
         + WellFormedRecords(names, sheetName, rows[1..])
  }

  /**
   * While at most five malformed rows have been seen, they are skipped and
   * every well-formed row, also those after them, is kept.
   */
  lemma {:induction false} SheetRecordsBelowLimit(names: seq<string>, sheetName: string, rows: seq<seq<string>>, bad: nat)
    requires bad + Malformed(names, rows) <= MaxMalformedRows
    ensures SheetRecords(names, sheetName, rows, bad) == WellFormedRecords(names, sheetName, rows)
    decreases |rows|
  {
    if rows != [] {
      if |rows[0]| != |names| {
        assert Malformed(names, rows) == 1 + Malformed(names, rows[1..]);
        SheetRecordsBelowLimit(names, sheetName, rows[1..], bad + 1);
        assert SheetRecords(names, sheetName, rows, bad) == SheetRecords(names, sheetName, rows[1..], bad + 1);
        assert WellFormedRecords(names, sheetName, rows) == WellFormedRecords(names, sheetName, rows[1..]);
      } else {
        SheetRecordsBelowLimit(names, sheetName, rows[1..], bad);
      }
    }
  }

  /**
   * The sixth malformed row stops the sheet: when row k is malformed and
   * five malformed rows precede it, nothing from row k on is kept.
   */
  lemma {:induction false} SheetRecordsStopAtSixth(names: seq<string>, sheetName: string, rows: seq<seq<string>>, bad: nat, k: nat)
    requires k < |rows| && |rows[k]| != |names|
    requires bad + Malformed(names, rows[..k]) == MaxMalformedRows
    ensures SheetRecords(names, sheetName, rows, bad) == WellFormedRecords(names, sheetName, rows[..k])
    decreases k
  {
    if k == 0 {
      assert rows[..k] == [];
      assert bad == MaxMalformedRows;
    } else {
      var prefix := rows[..k];
      assert prefix[0] == rows[0] && prefix[1..] == rows[1..][..k - 1];
      if |rows[0]| != |names| {
        assert Malformed(names, prefix) == 1 + Malformed(names, rows[1..][..k - 1]);
        SheetRecordsStopAtSixth(names, sheetName, rows[1..], bad + 1, k - 1);
        assert WellFormedRecords(names, sheetName, prefix) == WellFormedRecords(names, sheetName, rows[1..][..k - 1]);
      } else {
        assert Malformed(names, prefix) == Malformed(names, rows[1..][..k - 1]);
        SheetRecordsStopAtSixth(names, sheetName, rows[1..], bad, k - 1);
      }
    }
  }

  /** The records one sheet yields, its counter of malformed rows starting at zero. */
  function SheetYield(names: seq<string>, sheet: Sheet): seq<Record>
  {
    SheetRecords(names, sheet.name, DataRows(sheet.values), 0)
  }

  lemma KeyedConcat(a: seq<Record>, b: seq<Record>, keys: set<string>)
    requires forall j | 0 <= j < |a| :: a[j].Keys == keys
    requires forall j | 0 <= j < |b| :: b[j].Keys == keys
    ensures forall j | 0 <= j < |a + b| :: (a + b)[j].Keys == keys
  {
  }

  /** The records all sheets yield, sheet after sheet, each keyed by the column names and `sheet_name`. */
  function AllRecords(names: seq<string>, sheets: seq<Sheet>): (r: seq<Record>)
    ensures forall j | 0 <= j < |r| :: r[j].Keys == RecordKeys(names)
    decreases |sheets|
  {
    if sheets == [] then []
    else
      var first, rest := SheetYield(names, sheets[0]), AllRecords(names, sheets[1..]);
      KeyedConcat(first, rest, RecordKeys(names));
      first + rest
  }

  /** Normalizing one more sheet appends that sheet's records */
  lemma AllRecordsSnoc(names: seq<string>, sheets: seq<Sheet>, s: nat)
    requires s < |sheets|
    ensures AllRecords(names, sheets[..s + 1]) == AllRecords(names, sheets[..s]) + SheetYield(names, sheets[s])
  {
    AllRecordsAppend(names, sheets[..s], [sheets[s]]);
    assert sheets[..s + 1] == sheets[..s] + [sheets[s]];
    assert [sheets[s]][1..] == [];
  }

  /** Sheets do not affect each other: the records of `a + b` are those of `a` then those of `b`. */
  lemma {:induction false} AllRecordsAppend(names: seq<string>, a: seq<Sheet>, b: seq<Sheet>)
    ensures AllRecords(names, a + b) == AllRecords(names, a) + AllRecords(names, b)
    decreases |a|
  {
    if a == [] {
      assert a + b == b;
    } else {
      assert (a + b)[0] == a[0] && (a + b)[1..] == a[1..] + b;
      AllRecordsAppend(names, a[1..], b);
    }
  }

  /** Building one record: the dict comprehension, then `row_to_add[column_names[i]] = row[i]`. */
  method BuildRecord(names: seq<string>, sheetName: string, row: seq<string>) returns (rec: Record)
    requires |row| == |names|
    ensures rec == RowRecord(names, sheetName, row)
  {
    rec := BlankRecord(names, sheetName);
    var i := 0;
    while i < |row|
      invariant 0 <= i <= |row|
      invariant rec == Assign(BlankRecord(names, sheetName), names[..i], row[..i])
    {
      assert names[..i + 1][..i] == names[..i] && row[..i + 1][..i] == row[..i];
      rec := rec[names[i] := Text(row[i])];
      i := i + 1;
    }
    assert names[..i] == names && row[..i] == row;
  }

  /** The inner loop over one sheet's rows, with its `wrong_format` counter and `break`. */
  method NormalizeSheet(names: seq<string>, sheetName: string, rows: seq<seq<string>>) returns (added: seq<Record>)
    ensures added == SheetRecords(names, sheetName, rows, 0)
  {
    added := [];
    var wrongFormat: nat := 0;
    var i := 0;
    while i < |rows|
      invariant 0 <= i <= |rows| && wrongFormat <= MaxMalformedRows
      invariant added + SheetRecords(names, sheetName, rows[i..], wrongFormat) == SheetRecords(names, sheetName, rows, 0)
    {
      var row := rows[i];
      assert rows[i..][1..] == rows[i + 1..];
      if |row| != |names| {
        wrongFormat := wrongFormat + 1;
        if wrongFormat > MaxMalformedRows {
          break;
        } else {
          i := i + 1;
          continue;
        }
      }
      var rowToAdd := BuildRecord(names, sheetName, row);
      added := added + [rowToAdd];
      i := i + 1;
    }
    assert i == |rows| ==> rows[i..] == [];
  }

  /** The loop over `sheet_names` that fills `dicts_to_bq`. */
  method NormalizeSheets(names: seq<string>, sheets: seq<Sheet>) returns (records: seq<Record>)
    ensures records == AllRecords(names, sheets)
  {
    records := [];
    var s := 0;
    while s < |sheets|
      invariant 0 <= s <= |sheets|
      invariant records == AllRecords(names, sheets[..s])
    {
      var added := NormalizeSheet(names, sheets[s].name, DataRows(sheets[s].values));
      AllRecordsSnoc(names, sheets, s);
      records := records + added;
      s := s + 1;
    }
    assert sheets[..s] == sheets;
  }
}
