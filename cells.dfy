/**
 * Values shared by every stage of the sheet-to-warehouse load: the three
 * column types the warehouse table receives, the cell values a record holds
 * before and after coercion, and the small Option/Result wrappers used for
 * the source's error paths.
 */
module Cells {

  datatype Option<+T> = None | Some(value: T)

  datatype Result<+T, +E> = Ok(value: T) | Err(error: E)

  /** The column types the classifier can decide, spelled as the warehouse spells them. */
  datatype ColumnType = STRING | FLOAT | DATE

  /**
   * One record value. A cell read from the spreadsheet is `Text`; after
   * coercion an empty cell is `Null` and a cell of a FLOAT column is `Num`,
   * which keeps the literal the number was parsed from (with `,` already
   * turned into `.`) instead of a floating-point value.
   */
  datatype Cell = Null | Text(text: string) | Num(literal: string)

  /** A row keyed by column name, plus the provenance key `sheet_name`. */
  type Record = map<string, Cell>

  /** The key every record carries for the sheet it was read from. */
  const SheetNameKey: string := "sheet_name"

  /** The text a cell was read as; a null cell reads as the empty string. */
  function RawText(c: Cell): string
  {
    match c
    case Null => ""
    case Text(s) => s
    case Num(s) => s
  }

  /** Python truthiness of a cell: None and '' are false. */
  predicate Truthy(c: Cell)
  {
    match c
    case Null => false
    case Text(s) => s != ""
    // A parsed float is false only when it is 0.0; the model never tests a
    // parsed cell (see Coercer), so every parsed cell is taken as true.
    case Num(_) => true
  }
}
