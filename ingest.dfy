/**
 * One run of the loader, from trigger attributes to the table definition
 * and the batches handed to the warehouse: resolve the table id, select the
 * sheets, read and sanitize the header of the first selected sheet, turn
 * every sheet's rows into records, classify and coerce each column, build
 * the schema and cut the records into batches.
 *
 * The spreadsheet reads are the map `fetched` from range name to the rows
 * the values API returns; the warehouse calls (dataset and table checks,
 * drop, create, insert) are not modelled, the batches are what the
 * inserts would receive.
 */
module Ingest {
  import opened Cells
  import opened Sanitizer
  import opened Normalizer
  import opened Coercer
  import opened Schema
  import opened Batching
  import opened Selection

  datatype IngestError =
    | SelectionFailed(cause: SelectError)   // `sheet_names.remove` raised ValueError
    | NoSheetSelected                       // `sheet_names[0]` raised IndexError
    | UnknownRange(range: string)           // the values API rejected a sheet name
    | HeaderMissing(sheet: string)          // `['values'][0]` on a sheet with no rows
    | RepeatedFloatColumn(column: string)   // second coercion pass called `.replace` on a float

  datatype Load = Load(tableId: string, schema: seq<Field>, batches: seq<seq<Record>>)

  /** The header after the in-place sanitizing loop. */
  function SanitizeAll(header: seq<string>): (names: seq<string>)
    ensures |names| == |header|
    ensures forall i | 0 <= i < |header| :: names[i] == Sanitize(header[i])
  {
    if header == [] then []
    else
      var rest := SanitizeAll(header[1..]);
      assert forall i | 1 <= i < |header| :: header[i] == header[1..][i - 1];
      [Sanitize(header[0])] + rest
  }

  /** Position q holds the first selected name the values API does not know. */
  predicate FirstUnknown(sheetNames: seq<string>, fetched: map<string, seq<seq<string>>>, q: nat)
  {
    q < |sheetNames| && sheetNames[q] !in fetched && forall p | 0 <= p < q :: sheetNames[p] in fetched
  }

  /** Some sheet is selected, every selected sheet can be read, and the first has a header row. */
  predicate Readable(sheetNames: seq<string>, fetched: map<string, seq<seq<string>>>)
  {
    && |sheetNames| > 0
    && (forall n | n in sheetNames :: n in fetched)
    && |fetched[sheetNames[0]]| > 0
  }

  /** The sheets as read, in selection order. */
  function SheetsOf(sheetNames: seq<string>, fetched: map<string, seq<seq<string>>>): (sheets: seq<Sheet>)
    requires forall n | n in sheetNames :: n in fetched
    ensures |sheets| == |sheetNames|
    ensures forall q | 0 <= q < |sheetNames| :: sheets[q] == Sheet(sheetNames[q], fetched[sheetNames[q]])
  {
    if sheetNames == [] then []
    else [Sheet(sheetNames[0], fetched[sheetNames[0]])] + SheetsOf(sheetNames[1..], fetched)
  }

  /** The column names: the first selected sheet's first row, sanitized. */
  function HeaderOf(sheetNames: seq<string>, fetched: map<string, seq<seq<string>>>): seq<string>
    requires Readable(sheetNames, fetched)
  {
    SanitizeAll(fetched[sheetNames[0]][0])
  }

  /** `column_types` for the records every selected sheet yields. */
  function RunTypes(isFloat: string -> bool, names: seq<string>, sheets: seq<Sheet>): (types: map<string, ColumnType>)
    ensures types.Keys == set n | n in names
  {
    KeyedRecordsHaveColumns(names, AllRecords(names, sheets));
    ColumnTypes(isFloat, names, AllRecords(names, sheets))
  }

  /**
   * What a successful run hands to the warehouse for header `names` and the
   * sheets read: the table definition (`sheet_name`, then one field per
   * column in header order), and batches of 1..5000 records that, joined,
   * are every record of every sheet once, in order, coerced by its
   * column's type, each keyed by the column names and `sheet_name`.
   */
  predicate LoadedAs(isFloat: string -> bool, names: seq<string>, sheets: seq<Sheet>,
                     schema: seq<Field>, batches: seq<seq<Record>>)
  {
    var types := RunTypes(isFloat, names, sheets);
    && |schema| == 1 + |names|
    && schema[0] == Field(SheetNameKey, STRING)
    && (forall i | 0 <= i < |names| :: schema[i + 1] == ColumnField(names, types, i))
    && Flatten(batches) == CoerceAll(AllRecords(names, sheets), names, types)
    && (forall k | 0 <= k < |batches| ::
          batches[k] == Slice(Flatten(batches), k * ChunkSize, (k + 1) * ChunkSize) && 0 < |batches[k]| <= ChunkSize)
    && (forall k, rec | 0 <= k < |batches| && rec in batches[k] :: rec.Keys == RecordKeys(names))
  }

  lemma KeyedRecordsHaveColumns(names: seq<string>, records: seq<Record>)
    requires forall j | 0 <= j < |records| :: records[j].Keys == RecordKeys(names)
    ensures HasColumns(records, names)
  {
  }

  lemma BatchesKeyed(names: seq<string>, rows: seq<Record>, batches: seq<seq<Record>>)
    requires forall j | 0 <= j < |rows| :: rows[j].Keys == RecordKeys(names)
    requires Flatten(batches) == rows
    ensures forall k, rec | 0 <= k < |batches| && rec in batches[k] :: rec.Keys == RecordKeys(names)
  {
    forall k: nat, rec: Record | k < |batches| && rec in batches[k] ensures rec.Keys == RecordKeys(names) {
      InFlatten(batches, k, rec);
    }
  }

  /** The first repeated FLOAT column, if any. */
  method FindRepeatedFloat(names: seq<string>, types: map<string, ColumnType>) returns (found: Option<string>)
    requires forall n | n in names :: n in types
    ensures found.None? <==> FloatColumnsDistinct(names, types)
    ensures found.Some? ==> found.value in names && types[found.value] == FLOAT
  {
    var i := 0;
    while i < |names|
      invariant 0 <= i <= |names|
      invariant forall p, q | 0 <= p < q < |names| && p < i && names[p] == names[q] :: types[names[p]] != FLOAT
    {
      if types[names[i]] == FLOAT {
        var j := i + 1;
        while j < |names|
          invariant i < j <= |names|
          invariant forall q | i < q < j :: names[q] != names[i]
        {
          if names[j] == names[i] {
            return Some(names[i]);
          }
          j := j + 1;
        }
      }
      i := i + 1;
    }
    return None;
  }

  /** The values read for each selected sheet, failing on the first name the values API does not know. */
  method FetchSheets(sheetNames: seq<string>, fetched: map<string, seq<seq<string>>>)
    returns (r: Result<seq<Sheet>, IngestError>)
    ensures r.Ok? <==> forall n | n in sheetNames :: n in fetched
    ensures r.Ok? ==> r.value == SheetsOf(sheetNames, fetched)
    ensures r.Err? ==> r.error.UnknownRange? && exists q: nat :: FirstUnknown(sheetNames, fetched, q) && sheetNames[q] == r.error.range
  {
    var sheets: seq<Sheet> := [];
    var s := 0;
    while s < |sheetNames|
      invariant 0 <= s <= |sheetNames| && |sheets| == s
      invariant forall q | 0 <= q < s :: sheetNames[q] in fetched && sheets[q] == Sheet(sheetNames[q], fetched[sheetNames[q]])
    {
      if sheetNames[s] !in fetched {
        assert FirstUnknown(sheetNames, fetched, s);
        return Err(UnknownRange(sheetNames[s]));
      }
      sheets := sheets + [Sheet(sheetNames[s], fetched[sheetNames[s]])];
      s := s + 1;
    }
    r := Ok(sheets);
  }

  /** `column_names` read into a list and sanitized in place. */
  method ReadHeader(header: seq<string>) returns (names: seq<string>)
    ensures names == SanitizeAll(header)
  {
    var columnNames := new string[|header|](i requires 0 <= i < |header| => header[i]);
    SanitizeHeaders(columnNames);
    names := columnNames[..];
  }

  /** Classification, coercion, schema and batching for the records of the selected sheets. */
  method Transform(isFloat: string -> bool, names: seq<string>, sheets: seq<Sheet>)
    returns (r: Result<(seq<Field>, seq<seq<Record>>), IngestError>)
    // the only failure is a FLOAT column named twice, and it always fails
    ensures r.Ok? <==> FloatColumnsDistinct(names, RunTypes(isFloat, names, sheets))
    ensures r.Err? ==> r.error.RepeatedFloatColumn? && r.error.column in names
                       && RunTypes(isFloat, names, sheets)[r.error.column] == FLOAT
    // schema and batches as described by LoadedAs
    ensures r.Ok? ==> LoadedAs(isFloat, names, sheets, r.value.0, r.value.1)
  {
    var records := NormalizeSheets(names, sheets);
    KeyedRecordsHaveColumns(names, records);
    var columnTypes := ClassifyColumns(isFloat, names, records);
    assert columnTypes == RunTypes(isFloat, names, sheets);
    var repeated := FindRepeatedFloat(names, columnTypes);
    if repeated.Some? {
      return Err(RepeatedFloatColumn(repeated.value));
    }
    var rows := CoerceColumns(names, columnTypes, records);
    var schema := BuildSchema(names, columnTypes);
    var batches := Chunks(rows);
    BatchesKeyed(names, rows, batches);
    r := Ok((schema, batches));
  }

  /** Reading the header and every selected sheet, then the transformation. */
  method ReadSheets(isFloat: string -> bool, sheetNames: seq<string>, fetched: map<string, seq<seq<string>>>)
    returns (r: Result<(seq<Field>, seq<seq<Record>>), IngestError>)
    requires |sheetNames| > 0
    // the header read failed: unknown range, or no rows to take row 0 from
    ensures sheetNames[0] !in fetched ==> r == Err(UnknownRange(sheetNames[0]))
    ensures sheetNames[0] in fetched && fetched[sheetNames[0]] == [] ==> r == Err(HeaderMissing(sheetNames[0]))
    // a later read failed: the first selected name the values API does not know
    ensures sheetNames[0] in fetched && fetched[sheetNames[0]] != [] && (exists n | n in sheetNames :: n !in fetched) ==>
              r.Err? && r.error.UnknownRange?
              && exists q: nat :: FirstUnknown(sheetNames, fetched, q) && sheetNames[q] == r.error.range
    // everything readable: the run fails exactly on a FLOAT column named twice
    ensures Readable(sheetNames, fetched) ==>
              var names, sheets := HeaderOf(sheetNames, fetched), SheetsOf(sheetNames, fetched);
              && (r.Ok? <==> FloatColumnsDistinct(names, RunTypes(isFloat, names, sheets)))
              && (r.Err? ==> r.error.RepeatedFloatColumn?)
    ensures r.Ok? ==> Readable(sheetNames, fetched)
                      && LoadedAs(isFloat, HeaderOf(sheetNames, fetched), SheetsOf(sheetNames, fetched), r.value.0, r.value.1)
  {
    if sheetNames[0] !in fetched {
      return Err(UnknownRange(sheetNames[0]));
    }
    var headerValues := fetched[sheetNames[0]];
    if |headerValues| == 0 {
      return Err(HeaderMissing(sheetNames[0]));
    }
    var names := ReadHeader(headerValues[0]);
    var fetchedSheets := FetchSheets(sheetNames, fetched);
    if fetchedSheets.Err? {
      return Err(fetchedSheets.error);
    }
    r := Transform(isFloat, names, fetchedSheets.value);
  }

  /** `get_spreadsheet_data` with its I/O replaced by the `fetched` reads. */
  method Ingest(isFloat: string -> bool, givenTableId: Option<string>, title: string,
                titles: seq<string>, included: Option<seq<string>>, excluded: Option<seq<string>>,
                fetched: map<string, seq<seq<string>>>)
    returns (r: Result<Load, IngestError>)
    // `sheet_names.remove` raised
    ensures Selected(titles, included, excluded).Err? ==>
              r == Err(SelectionFailed(Selected(titles, included, excluded).error))
    // `sheet_names[0]` raised
    ensures Selected(titles, included, excluded) == Ok([]) ==> r == Err(NoSheetSelected)
    // otherwise the outcome is that of reading and transforming the selected sheets
    ensures Selected(titles, included, excluded).Ok? && Selected(titles, included, excluded).value != [] ==>
              var sheetNames := Selected(titles, included, excluded).value;
              && (sheetNames[0] !in fetched ==> r == Err(UnknownRange(sheetNames[0])))
              && (sheetNames[0] in fetched && fetched[sheetNames[0]] == [] ==> r == Err(HeaderMissing(sheetNames[0])))
              && (sheetNames[0] in fetched && fetched[sheetNames[0]] != [] && (exists n | n in sheetNames :: n !in fetched) ==>
                    r.Err? && r.error.UnknownRange?
                    && exists q: nat :: FirstUnknown(sheetNames, fetched, q) && sheetNames[q] == r.error.range)
              && (Readable(sheetNames, fetched) ==>
                    var names, sheets := HeaderOf(sheetNames, fetched), SheetsOf(sheetNames, fetched);
                    && (r.Ok? <==> FloatColumnsDistinct(names, RunTypes(isFloat, names, sheets)))
                    && (r.Err? ==> r.error.RepeatedFloatColumn?))
    // success: the table id, then the table definition and the batches as described by LoadedAs
    ensures r.Ok? ==>
              && Selected(titles, included, excluded).Ok?
              && Readable(Selected(titles, included, excluded).value, fetched)
              && r.value.tableId == ResolveTableId(givenTableId, title)
              && var sheetNames := Selected(titles, included, excluded).value;
              && LoadedAs(isFloat, HeaderOf(sheetNames, fetched), SheetsOf(sheetNames, fetched),
                          r.value.schema, r.value.batches)
  {
    var tableId := ResolveTableId(givenTableId, title);
    var selection := SelectSheets(titles, included, excluded);
    if selection.Err? {
      return Err(SelectionFailed(selection.error));
    }
    var sheetNames := selection.value;
    if |sheetNames| == 0 {
      return Err(NoSheetSelected);
    }
    var transformed := ReadSheets(isFloat, sheetNames, fetched);
    if transformed.Err? {
      return Err(transformed.error);
    }
    r := Ok(Load(tableId, transformed.value.0, transformed.value.1));
  }
}
