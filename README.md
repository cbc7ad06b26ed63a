# Google Sheets to BigQuery loader: a Dafny model

This project models the data path of the `get_spreadsheet_data` cloud function
in `main.py`. The function is triggered with attributes naming a spreadsheet,
a dataset and optionally a table id, an included-sheets list and an
excluded-sheets list. It reads the spreadsheet and does the following:

1. It derives a table id from the spreadsheet title when none is given.
2. It selects the sheets: the included list, or every sheet. Each excluded
   name is then removed with `list.remove`.
3. It reads the first selected sheet's first row as the header and sanitizes
   each header cell into a column name.
4. It turns every data row of every selected sheet into a record keyed by the
   column names plus `sheet_name`. Rows whose length differs from the
   header's are dropped. After the fifth such row in a sheet, the next one
   stops reading that sheet.
5. It classifies each column as STRING, FLOAT or DATE (`get_sequence_type`).
6. It coerces the cells: empty to null, and FLOAT cells to numbers.
7. It builds the table schema. An empty column name becomes
   `dummy_name<k>`.
8. It inserts the records in batches of 5000.

Modules, in pipeline order:

| file | module | what it holds |
|---|---|---|
| cells.dfy | `Cells` | column types, cell values, records, Option/Result |
| ascii.dfy | `Ascii` | character classes, lower-casing, `str.replace`, decimal rendering and parsing |
| classifier.dfy | `Classifier` | `get_sequence_type` and its date-shape matcher |
| sanitizer.dfy | `Sanitizer` | header and table-id sanitizing, the in-place header loop |
| normalizer.dfy | `Normalizer` | rows to records, with the per-sheet limit on malformed rows |
| coercer.dfy | `Coercer` | per-column classification and coercion loops |
| schema.dfy | `Schema` | the schema loop and its `dummy_name` counter |
| batching.dfy | `Batching` | the 5000-record insert windows |
| selection.dfy | `Selection` | included/excluded sheet selection |
| ingest.dfy | `Ingest` | one run end to end, with its error outcomes |
| scenarios.dfy | `Scenarios` | worked examples on concrete inputs |

How the model treats the source:

- **Pure code and loops.** `get_sequence_type` and the comprehensions
  (`all(...)`, the character filters, `[row[column] for row in ...]`) are
  recursive functions. Every loop of `get_spreadsheet_data` is a method with
  the same loop, proved against such a function.
- **The header.** The header list is rewritten in place, so it is an
  `array<string>`.
- **Float parsing.** Python's `float()` grammar is not modelled. Every
  member that depends on it takes a parameter `isFloat: string -> bool`,
  applied to the text after `,` has been turned into `.`. A parsed cell is
  `Num(literal)`, which keeps that text rather than a binary float.
- **Spreadsheet reads.** These are the parameter `fetched`, a map from range
  name to the rows the values API returns. The warehouse calls are not
  modelled. The model produces the table id, the schema and the batches
  those calls would receive.

Behaviour of the code that the model keeps:

- **Sanitizing keeps underscores.** A space becomes `_`, and the `_` then
  passes the `isalnum() or '_'` filter. So `"Price $"` becomes
  `"price_usd"`, `"  "` becomes `"__"` and `"Order-ID #1"` becomes
  `"orderid_1"`; `Scenarios` proves each of these.
- **The table id has no `$` step.** The title `"Q1 $"` gives `"q1_"`.
- **The date test checks shape only.** It accepts `2021-02-31`.
- **A column that parses as numbers is FLOAT, even if it also looks like
  dates.**
- **The malformed-row counter is per sheet.** A sheet is stopped at its
  sixth malformed row, and rows after that are never read, including
  well-formed ones.
- **Repeated column names collapse.** A record holds the value of the last
  column with a given name. All empty names share the one key `""`, so every
  `dummy_name<k>` field gets the type classified for that key.

## Model

| member | source | states |
|---|---|---|
| Classifier.ReplaceComma | main.py:18 | `item.replace(',', '.')`: same length, no comma left, every other character unchanged |
| Classifier.AllEmpty | main.py:13 | true exactly when every item is `''` |
| Classifier.AllFloat | main.py:15-21 | true exactly when every non-empty item, commas turned to dots, parses as a float |
| Classifier.MatchesDate | main.py:12 | the date pattern on one string, field by field; a match is 8 to 10 characters, all digits or dashes |
| Classifier.AllDates | main.py:23-26 | true exactly when every non-empty item matches the date pattern |
| Classifier.SequenceType | main.py:11-26 | an all-empty column (the empty one included) is STRING. FLOAT holds exactly when some cell is non-empty and every non-empty cell parses. DATE holds exactly when some non-empty cell does not parse and every non-empty cell is date-shaped. One cell that is neither forces STRING |
| Classifier.RenderedDatesMatch | main.py:12 | every year 1000..2999, month 1..12 and day 1..31 matches, with or without zero padding of month and day |
| Classifier.MatchedDateRanges | main.py:12 | conversely, a matching string has a year in 1000..2999, a month in 1..12 and a day in 1..31 |
| Classifier.EmptyCellsDoNotMatter | main.py:11-26 | dropping the empty cells of a column never changes its type |
| Classifier.OrderDoesNotMatter | main.py:11-26 | two columns with the same cells in any order get the same type |
| Sanitizer.KeepNameChars | main.py:86-87 | the `isalnum() or '_'` filter: never longer than its input, and keeps only letters, digits and `_` |
| Ascii.Lower | main.py:87 | `str.lower`: same length, each character lower-cased |
| Ascii.Replace | main.py:86 | `str.replace` of one character: the pattern is gone when the replacement lacks it, and only original or replacement characters appear |
| Sanitizer.Sanitize | main.py:86-87 | a sanitized header holds only lower-case letters, digits and `_` |
| Sanitizer.TableIdFromTitle | main.py:50-51 | a derived table id holds only lower-case letters, digits and `_` |
| Sanitizer.SanitizeByCharacter | main.py:86-87 | the pipeline replace/filter/lower equals a per-character map: space to `_`, `$` to `usd`, alphanumeric and `_` lower-cased, all else dropped |
| Sanitizer.TableIdByCharacter | main.py:50-51 | the title pipeline equals the per-character map without the `$` rule |
| Sanitizer.SanitizeOneChar | main.py:86-87 | on one character, the four passes give space to `_`, `$` to `usd`, alphanumeric and `_` lower-cased, anything else dropped |
| Sanitizer.SanitizeAppend | main.py:86-87 | sanitizing a concatenation concatenates the sanitized parts |
| Sanitizer.SanitizeIdempotent | main.py:86-87 | sanitizing an already sanitized name changes nothing |
| Sanitizer.TableIdIsSanitizeWithoutDollar | main.py:49-51 | for a title without `$`, the table id equals the title sanitized as a header |
| Sanitizer.ResolveTableId | main.py:34 | a given non-empty table id is kept; a missing or empty one is derived from the title (lines 49-51) |
| Sanitizer.SanitizeHeaders | main.py:85-87 | the in-place loop leaves each array entry equal to its old value sanitized |
| Normalizer.DataRows | main.py:92-95 | the rows under the header, none for a sheet without values |
| Normalizer.Assign | main.py:106-107 | the assignments `row_to_add[column_names[i]] = row[i]` in order: the keys become the old keys plus the names |
| Normalizer.RowRecord | main.py:96-107 | a kept row's record has exactly the column names and `sheet_name` as keys |
| Normalizer.BlankRecord | main.py:96-97 | the blank record's keys are the column names plus `sheet_name` |
| Normalizer.RowRecordShape | main.py:96-107 | a kept row's record has exactly the column names and `sheet_name` as keys. Column i holds `row[i]` unless a later column has the same name. `sheet_name` holds the title unless a column has that name |
| Normalizer.SheetRecords | main.py:94-109 | one sheet's records with its `wrong_format` counter: always a prefix of the well-formed rows' records, at most one per row, each keyed by the column names plus `sheet_name` |
| Normalizer.SheetRecordsBelowLimit | main.py:94-104 | with at most five malformed rows, the sheet yields every well-formed row's record, in order |
| Normalizer.SheetRecordsStopAtSixth | main.py:98-102 | when row k is the sheet's sixth malformed row, exactly the records of the well-formed rows before k are kept |
| Normalizer.AllRecords | main.py:89-109 | `dicts_to_bq` after the sheet loop: every record of every sheet, each keyed by the column names plus `sheet_name` |
| Normalizer.AllRecordsAppend | main.py:89-109 | the records of two runs of sheets are the first run's records followed by the second's (the counter restarts per sheet) |
| Normalizer.BuildRecord | main.py:96-107 | the dict comprehension plus the assignment loop builds the row's record |
| Normalizer.NormalizeSheet | main.py:94-109 | the row loop with its `wrong_format` counter, `continue` and `break` yields the sheet's records |
| Normalizer.NormalizeSheets | main.py:89-109 | the loop over sheet names yields all sheets' records, sheet after sheet |
| Coercer.ColumnValues | main.py:113 | one value per record, the record's cell under the column |
| Coercer.ColumnTypes | main.py:111-114 | `column_types` as a map with exactly the column names as keys |
| Coercer.ClassifyColumns | main.py:111-114 | the type map has exactly the column names as keys, each mapped to the type of that column's values |
| Coercer.CoerceCell | main.py:117-127 | an empty cell becomes null and a non-empty one stays non-null. In a FLOAT column it becomes the number parsed from its comma-replaced text; otherwise it is unchanged |
| Coercer.CoerceCellIdempotent | main.py:124-127 | a second pass over a STRING or DATE column changes nothing |
| Coercer.Coerced | main.py:116-127 | a cell after its column's pass: keys outside the header keep their value; a header cell is null exactly when it was empty, and a number when its column is FLOAT and it was non-empty |
| Coercer.CoerceRecord | main.py:116-127 | a record after every column's pass keeps its keys |
| Coercer.CoerceAll | main.py:116-127 | `dicts_to_bq` after coercion: as many records, each with its keys |
| Coercer.CoerceColumn | main.py:117-127 | one column's pass coerces that cell of every record and changes nothing else |
| Coercer.CoerceColumns | main.py:116-127 | no record is added, dropped or re-keyed. Every column's cell is coerced once by the column's type; keys outside the header, `sheet_name` among them unless a column has that name, are untouched |
| Coercer.FloatColumnsParse | main.py:111-120 | in a column classified FLOAT, every non-empty raw cell coerces to a literal the parser accepts |
| Schema.DummyName | main.py:135 | `'dummy_name' + str(k)`: the prefix `dummy_name` followed by digits |
| Ascii.NatToString | main.py:135 | `str(k)`: a non-empty string of decimal digits |
| Ascii.NatToStringInjective | main.py:135 | different numbers render differently |
| Schema.ColumnField | main.py:131-135 | a field is never unnamed: a named column keeps its name, and the field's type is the one classified for the column's name |
| Schema.BuildSchema | main.py:129-136 | `sheet_name: STRING` first, then one field per column in order. A named column keeps its name and type; the k-th empty name is `dummy_name<k>` |
| Schema.DummyNumbering | main.py:130-136 | an empty name at position i is `dummy_name` followed by one more than the number of empty names before i |
| Schema.DummyNamesDistinct | main.py:130-136 | two empty names at different positions get different dummy names |
| Batching.Slice | main.py:147 | Python slicing `s[lo:hi]` clipped to the length; empty past the end |
| Batching.ChunkCount | main.py:143-153 | c windows of 5000 that cover n records, where c - 1 would not, means c = ceil(n / 5000) |
| Batching.Chunks | main.py:143-153 | the batches joined are the records, in order. Batch k is records[5000k : 5000(k+1)], each batch has 1..5000 records, and there are ceil(n / 5000) of them, so none for no records |
| Selection.RemoveFirst | main.py:80 | fails exactly when the name is absent; otherwise drops its first occurrence only |
| Selection.BaseSheets | main.py:72-76 | an absent or empty included list selects every sheet title; otherwise the included list |
| Selection.ExcludedSheets | main.py:78 | no names to remove when the list is absent |
| Selection.RemoveAll | main.py:78-80 | removing in turn: on success exactly one sheet leaves per excluded name, and a failure names an excluded sheet |
| Selection.RemoveAllMultiset | main.py:78-80 | removal succeeds exactly when the excluded names, counted with repeats, are among the sheets. The sheets left are then the sheets minus the excluded names, and a failure names an excluded sheet |
| Selection.RemoveAllKeepsOrder | main.py:78-80 | the sheets left keep their relative order |
| Selection.SelectSheets | main.py:72-80 | the selection loop computes the included sheets (or all titles when none are given) minus the excluded names, with the multiset, order and error properties above |
| Ingest.SanitizeAll | main.py:84-87 | the header list with each entry sanitized, same length |
| Ingest.ReadHeader | main.py:84-87 | copying the header into an array and sanitizing it in place gives the sanitized header |
| Ingest.FetchSheets | main.py:90-92 | succeeds exactly when every selected name is known to the values API, with the sheets in selection order; otherwise fails with the first unknown name. A known sheet with no values is read as having no rows |
| Ingest.FindRepeatedFloat | main.py:116-120 | finds a FLOAT column named twice exactly when there is one |
| Ingest.SheetsOf | main.py:90-92 | one sheet per selected name, in selection order, with the values read for it |
| Ingest.RunTypes | main.py:111-114 | the type map for the records of the selected sheets, keyed by the column names |
| Ingest.Transform | main.py:111-153 | fails exactly when a FLOAT column is named twice. On success (`LoadedAs`): the schema is `sheet_name: STRING` then the column's field for each header position; the batches, joined, are every sheet's records in order with each cell coerced by its column's type; batch k is window k of 5000 and holds 1..5000 records, each keyed by the column names and `sheet_name` |
| Ingest.ReadSheets | main.py:84-153 | unknown first range or no header row fail first; then the first unknown selected name fails. With everything readable, the run fails exactly on a repeated FLOAT column; on success the result is as `LoadedAs` describes |
| Ingest.Ingest | main.py:29-153 | a failed removal fails the run, and so does an empty selection. After that come the read errors in source order (unknown first range, missing header row, first unknown selected name). With everything readable, the run fails exactly on a repeated FLOAT column. On success the table id is the resolved one, and the schema and batches are as in `Transform`, for the header of the first selected sheet |
| Scenarios.SanitizePrice | main.py:85-87 | `"Price $"` sanitizes to `"price_usd"` |
| Scenarios.SanitizeSpaces | main.py:85-87 | `"  "` sanitizes to `"__"` |
| Scenarios.SanitizeOrderId | main.py:85-87 | `"Order-ID #1"` sanitizes to `"orderid_1"` |
| Scenarios.TableIdDollar | main.py:49-51 | the title `"Q1 $"` gives the table id `"q1_"` |
| Scenarios.FloatExample | main.py:13-19 | `["2020", "", "15.5"]` is FLOAT |
| Scenarios.CommaExample | main.py:18 | `["10,5", "7.0"]` is FLOAT |
| Scenarios.DateExample | main.py:23-26 | `["2021-01-15", "2021-12-31", ""]` is DATE |
| Scenarios.StringExample | main.py:23-25 | `["1", "abc", "3"]` is STRING |
| Scenarios.DateShapeExamples | main.py:12 | `2021-02-31` and `1999-1-9` match; `2021-13-01`, `3021-01-01` and `2021-01-32` do not |
| Scenarios.SchemaExample | main.py:129-136 | the header `["", "qty", ""]` gives `dummy_name1`, `qty`, `dummy_name2` |
| Scenarios.BreakerExample | main.py:94-104 | six short rows then a good row yield nothing; five short rows then a good row yield that row |

## Left out

- Google API calls are not modelled: authentication, the Sheets metadata and
  values requests, and the BigQuery dataset lookup, creation, table drop,
  table creation and `insert_rows_json`. The spreadsheet's values are a
  parameter, and the model ends with the batches the inserts would receive.
- Insert errors and logging are not modelled. Errors from
  `insert_rows_json` are only logged and do not change control flow.
- Trigger attribute parsing is not modelled: reading `event['attributes']`
  and `split('|')`. The model takes the optional table id and the optional
  included and excluded lists as already split. A missing required
  attribute (a `KeyError`) is not modelled.
- Python's float grammar is an abstract `isFloat` predicate. Examples of it
  are `inf`, `nan`, underscores, surrounding whitespace, and Unicode digits.
- Classifier.MatchesDate, Ascii.IsAlnum, Ascii.ToLower: ASCII only. Python's
  `\d`, `str.isalnum` and `str.lower` also act on non-ASCII characters, which
  the model drops or leaves unchanged.
- Classifier.MatchesDate: `$` in `re.match` also matches before a trailing
  newline, so `"2021-01-15\n"` is DATE in Python. The model rejects it.
- Coercer.CoerceColumns: requires every FLOAT column name to occur once in
  the header. With a repeated FLOAT name, the second pass calls `.replace`
  on a float and raises. `Ingest.Ingest` reports this as
  `RepeatedFloatColumn`. When every cell of such a column is empty or
  parses to `0.0`, the second pass does not raise. Instead it turns the
  zeros into null, because `0.0` is false. The model reports the error in
  that case too.
- Cells.Truthy: a parsed float is always true. The model never tests a
  parsed cell for truth, apart from the repeated-FLOAT case above.
- Records are immutable map values. `dicts_to_bq` holds dicts that the
  coercion loops mutate in place; they are fresh and never shared, so the
  model rebuilds each record instead.
- `sheet_names = included_sheets` aliases the trigger's list. The removal
  then also shrinks that list, which nothing reads afterwards.
- The header is read twice, once as `sheet_names[0]` and once in the loop.
  Both reads come from the same `fetched` map. A spreadsheet that changes
  between the two requests is not modelled.
