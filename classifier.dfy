/**
 * The column type classifier `get_sequence_type`: a whole column of raw
 * cell strings is FLOAT when every non-empty cell parses as a float after
 * `,` becomes `.`, DATE when instead every non-empty cell has the shape
 * YYYY-M-D, and STRING otherwise (and always when every cell is empty).
 *
 * Python's `float()` is not modelled: each member takes the parser's
 * verdict as the total predicate `isFloat`, applied to the comma-replaced
 * text exactly where the source calls `float(item.replace(',', '.'))`.
 */
module Classifier {
  import opened Cells
  import opened Ascii

  /** `item.replace(',', '.')`: every comma becomes a dot, nothing else moves. */
  function ReplaceComma(s: string): (r: string)
    ensures |r| == |s| && ',' !in r
    ensures forall i | 0 <= i < |s| :: r[i] == (if s[i] == ',' then '.' else s[i])
  {
    if s == [] then [] else [if s[0] == ',' then '.' else s[0]] + ReplaceComma(s[1..])
  }

  /** Text without a comma is its own comma-replaced form. */
  lemma ReplaceCommaNoComma(s: string)
    requires ',' !in s
    ensures ReplaceComma(s) == s
  {
    var r := ReplaceComma(s);
    assert forall i | 0 <= i < |s| :: r[i] == s[i];
  }

  // ---------------------------------------------------------------------
  // The date pattern ^[12]\d{3}-(0?[1-9]|1[012])-(0?[1-9]|[12][0-9]|3[01])$

  /** `[12]\d{3}` */
  predicate YearField(y: string)
  {
    |y| == 4 && (y[0] == '1' || y[0] == '2') && IsDigit(y[1]) && IsDigit(y[2]) && IsDigit(y[3])
  }

  /** `0?[1-9]|1[012]` */
  predicate MonthField(m: string)
  {
    || (|m| == 1 && '1' <= m[0] <= '9')
    || (|m| == 2 && m[0] == '0' && '1' <= m[1] <= '9')
    || (|m| == 2 && m[0] == '1' && '0' <= m[1] <= '2')
  }

  /** `0?[1-9]|[12][0-9]|3[01]` */
  predicate DayField(d: string)
  {
    || (|d| == 1 && '1' <= d[0] <= '9')
    || (|d| == 2 && d[0] == '0' && '1' <= d[1] <= '9')
    || (|d| == 2 && (d[0] == '1' || d[0] == '2') && IsDigit(d[1]))
    || (|d| == 2 && d[0] == '3' && (d[1] == '0' || d[1] == '1'))
  }

  /**
   * Whether the whole string matches the date pattern. No field can hold a
   * `-`, so the month is the one or two characters between the first two
   * dashes and the day is everything after the second.
   */
  predicate MatchesDate(s: string)
    // a match is 8 to 10 characters, all of them digits or dashes
    ensures MatchesDate(s) ==> 8 <= |s| <= 10 && forall i | 0 <= i < |s| :: IsDigit(s[i]) || s[i] == '-'
  {
    && |s| >= 8 && YearField(s[..4]) && s[4] == '-'
    && (|| (s[6] == '-' && MonthField(s[5..6]) && DayField(s[7..]))
        || (s[7] == '-' && MonthField(s[5..7]) && DayField(s[8..])))
  }

  /** A month or day written with one digit, or with two when `padded` or when it needs two. */
  function Field2(n: nat, padded: bool): string
    requires n < 100
  {
    if n < 10 && padded then "0" + NatToString(n) else NatToString(n)
  }

  /** The date `y-m-d` as the sheet may spell it, month and day optionally zero-padded. */
  function RenderDate(y: nat, m: nat, d: nat, padMonth: bool, padDay: bool): string
    requires m < 100 && d < 100
  {
    NatToString(y) + "-" + Field2(m, padMonth) + "-" + Field2(d, padDay)
  }

  lemma NatToStringSmall(n: nat)
    requires n < 100
    ensures n < 10 ==> NatToString(n) == [DigitChar(n)]
    ensures n >= 10 ==> NatToString(n) == [DigitChar(n / 10), DigitChar(n % 10)]
  {
  }

  lemma NatToStringYear(y: nat)
    requires 1000 <= y <= 9999
    ensures NatToString(y) == [DigitChar(y / 1000), DigitChar(y / 100 % 10), DigitChar(y / 10 % 10), DigitChar(y % 10)]
  {
    assert NatToString(y / 10) == NatToString(y / 10 / 10) + [DigitChar(y / 10 % 10)];
    assert y / 10 / 10 == y / 100;
    assert NatToString(y / 100) == NatToString(y / 100 / 10) + [DigitChar(y / 100 % 10)];
    assert y / 100 / 10 == y / 1000;
  }

  lemma RenderedFields(y: nat, m: nat, d: nat, padMonth: bool, padDay: bool)
    requires 1000 <= y <= 2999 && 1 <= m <= 12 && 1 <= d <= 31
    ensures YearField(NatToString(y))
    ensures MonthField(Field2(m, padMonth)) && DayField(Field2(d, padDay))
  {
    NatToStringYear(y);
    NatToStringSmall(m);
    NatToStringSmall(d);
  }

  /** Three fields joined by dashes match, whatever the widths of month and day. */
  lemma JoinedFieldsMatch(ys: string, ms: string, ds: string)
    requires YearField(ys) && MonthField(ms) && DayField(ds)
    ensures MatchesDate(ys + "-" + ms + "-" + ds)
  {
    var s := ys + "-" + ms + "-" + ds;
    assert s[..4] == ys && s[4] == '-';
    if |ms| == 1 {
      assert s[5..6] == ms && s[6] == '-' && s[7..] == ds;
    } else {
      assert s[5..7] == ms && s[7] == '-' && s[8..] == ds;
    }
  }

  /**
   * Every calendar-looking triple with year 1000..2999, month 1..12 and day
   * 1..31 matches, whichever fields are zero-padded: the pattern checks the
   * shape only, so it also accepts days the month does not have.
   */
  lemma RenderedDatesMatch(y: nat, m: nat, d: nat, padMonth: bool, padDay: bool)
    requires 1000 <= y <= 2999 && 1 <= m <= 12 && 1 <= d <= 31
    ensures MatchesDate(RenderDate(y, m, d, padMonth, padDay))
  {
    RenderedFields(y, m, d, padMonth, padDay);
    JoinedFieldsMatch(NatToString(y), Field2(m, padMonth), Field2(d, padDay));
  }

  /** The value of a month or day field: its decimal digits, leading zero ignored. */
  lemma MonthFieldRange(m: string)
    requires MonthField(m)
    ensures 1 <= ParseDecimal(m) <= 12
  {
    if |m| == 2 {
      assert m[..1] == [m[0]];
      assert ParseDecimal([m[0]]) == ParseDecimal([]) * 10 + (m[0] as int - '0' as int);
    }
  }

  lemma DayFieldRange(d: string)
    requires DayField(d)
    ensures 1 <= ParseDecimal(d) <= 31
  {
    if |d| == 2 {
      assert d[..1] == [d[0]];
      assert ParseDecimal([d[0]]) == ParseDecimal([]) * 10 + (d[0] as int - '0' as int);
    }
  }

  lemma YearFieldRange(y: string)
    requires YearField(y)
    ensures 1000 <= ParseDecimal(y) <= 2999
  {
    var p1, p2, p3 := y[..1], y[..2], y[..3];
    assert p3[..2] == p2 && p2[..1] == p1 && p1[..0] == [];
    assert ParseDecimal(p1) == y[0] as int - '0' as int;
    assert ParseDecimal(p2) == ParseDecimal(p1) * 10 + (y[1] as int - '0' as int);
    assert ParseDecimal(p3) == ParseDecimal(p2) * 10 + (y[2] as int - '0' as int);
    assert ParseDecimal(y) == ParseDecimal(p3) * 10 + (y[3] as int - '0' as int);
  }

  /**
   * Conversely, a string that matches splits into a year in 1000..2999, a
   * month in 1..12 and a day in 1..31.
   */
  lemma MatchedDateRanges(s: string)
    requires MatchesDate(s)
    ensures 1000 <= ParseDecimal(s[..4]) <= 2999
    ensures s[6] == '-' && MonthField(s[5..6]) && DayField(s[7..]) ==>
              1 <= ParseDecimal(s[5..6]) <= 12 && 1 <= ParseDecimal(s[7..]) <= 31
    ensures s[7] == '-' && MonthField(s[5..7]) && DayField(s[8..]) ==>
              1 <= ParseDecimal(s[5..7]) <= 12 && 1 <= ParseDecimal(s[8..]) <= 31
  {
    YearFieldRange(s[..4]);
    if s[6] == '-' && MonthField(s[5..6]) && DayField(s[7..]) {
      MonthFieldRange(s[5..6]);
      DayFieldRange(s[7..]);
    }
    if s[7] == '-' && MonthField(s[5..7]) && DayField(s[8..]) {
      MonthFieldRange(s[5..7]);
      DayFieldRange(s[8..]);
    }
  }

  // ---------------------------------------------------------------------
  // The three column-wide tests, each a scan with the source's early exit

  /** `all(item == '' for item in seq)` */
  function AllEmpty(column: seq<string>): (b: bool)
    ensures b <==> forall i | 0 <= i < |column| :: column[i] == ""
  {
    if column == [] then true else column[0] == "" && AllEmpty(column[1..])
  }

  /** The first loop: no non-empty item makes `float(item.replace(',', '.'))` raise. */
  function AllFloat(isFloat: string -> bool, column: seq<string>): (b: bool)
    ensures b <==> forall i | 0 <= i < |column| :: column[i] != "" ==> isFloat(ReplaceComma(column[i]))
  {
    if column == [] then true
    else (column[0] == "" || isFloat(ReplaceComma(column[0]))) && AllFloat(isFloat, column[1..])
  }

  /** The second loop: no non-empty item fails `re.match(pattern, item)`. */
  function AllDates(column: seq<string>): (b: bool)
    ensures b <==> forall i | 0 <= i < |column| :: column[i] != "" ==> MatchesDate(column[i])
  {
    if column == [] then true
    else (column[0] == "" || MatchesDate(column[0])) && AllDates(column[1..])
  }

  /** `get_sequence_type`. */
  function SequenceType(isFloat: string -> bool, column: seq<string>): (t: ColumnType)
    // an all-empty column, the empty column included, is STRING
    ensures (forall i | 0 <= i < |column| :: column[i] == "") ==> t == STRING
    // FLOAT exactly when some cell is non-empty and every non-empty cell parses,
    // whether or not those cells also look like dates
    ensures t == FLOAT <==>
              (exists i | 0 <= i < |column| :: column[i] != "")
              && (forall i | 0 <= i < |column| :: column[i] != "" ==> isFloat(ReplaceComma(column[i])))
    // DATE exactly when some non-empty cell does not parse and every non-empty cell is date-shaped
    ensures t == DATE <==>
              (exists i | 0 <= i < |column| :: column[i] != "" && !isFloat(ReplaceComma(column[i])))
              && (forall i | 0 <= i < |column| :: column[i] != "" ==> MatchesDate(column[i]))
    // one non-empty cell that is neither a number nor date-shaped forces STRING
    ensures (exists i | 0 <= i < |column| ::
               column[i] != "" && !isFloat(ReplaceComma(column[i])) && !MatchesDate(column[i])) ==> t == STRING
  {
    if AllEmpty(column) then STRING
    else if AllFloat(isFloat, column) then FLOAT
    else if AllDates(column) then DATE
    else STRING
  }

  /** The non-empty cells of a column, in order. */
  function NonEmpty(column: seq<string>): (r: seq<string>)
    ensures forall x | x in r :: x in column && x != ""
    ensures forall x | x in column && x != "" :: x in r
  {
    if column == [] then []
    else (if column[0] == "" then [] else [column[0]]) + NonEmpty(column[1..])
  }

  /** Only the non-empty cells decide the type: dropping the empty ones changes nothing. */
  lemma EmptyCellsDoNotMatter(isFloat: string -> bool, column: seq<string>)
    ensures SequenceType(isFloat, NonEmpty(column)) == SequenceType(isFloat, column)
  {
    var ne := NonEmpty(column);
    assert forall i | 0 <= i < |ne| :: ne[i] in column && ne[i] != "";
    assert forall i | 0 <= i < |column| && column[i] != "" :: column[i] in ne;
  }

  /** The type is a property of the column's cells, not of their order (or of which sheet came first). */
  lemma OrderDoesNotMatter(isFloat: string -> bool, a: seq<string>, b: seq<string>)
    requires multiset(a) == multiset(b)
    ensures SequenceType(isFloat, a) == SequenceType(isFloat, b)
  {
    assert forall i | 0 <= i < |a| :: a[i] in multiset(b);
    assert forall i | 0 <= i < |b| :: b[i] in multiset(a);
    assert forall x | x in a :: x in b;
    assert forall x | x in b :: x in a;
  }
}
