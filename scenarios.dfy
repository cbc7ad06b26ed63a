/**
 * Concrete runs of the model: sanitized headers and table ids, column
 * classification, the dummy names of the schema and the malformed-row
 * limit, each on a small literal input, with the result the code computes.
 */
module Scenarios {
  import opened Cells
  import opened Classifier
  import opened Sanitizer
  import opened Normalizer
  import opened Schema

  /** Glues two sanitized pieces together. */
  lemma Glue(a: string, b: string, ab: string, ra: string, rb: string, rab: string)
    requires a + b == ab && ra + rb == rab
    requires SanitizeEach(a) == ra && SanitizeEach(b) == rb
    ensures SanitizeEach(ab) == rab
  {
    SanitizeEachAppend(a, b);
  }

  lemma PriceByCharacter()
    ensures SanitizeEach("Price $") == "price_usd"
  {
    SanitizeEachCons('e', "");
    SanitizeEachCons('c', "e");
    SanitizeEachCons('i', "ce");
    SanitizeEachCons('r', "ice");
    SanitizeEachCons('P', "rice");
    SanitizeEachCons('$', "");
    SanitizeEachCons(' ', "$");
    Glue("Price", " $", "Price $", "price", "_usd", "price_usd");
  }

  /** A space becomes `_` and stays; `$` becomes `usd`. */
  lemma SanitizePrice()
    ensures Sanitize("Price $") == "price_usd"
  {
    SanitizeByCharacter("Price $");
    PriceByCharacter();
  }

  /** A header of spaces is not empty once sanitized. */
  lemma SanitizeSpaces()
    ensures Sanitize("  ") == "__"
  {
    SanitizeByCharacter("  ");
  }

  lemma OrderByCharacter()
    ensures SanitizeEach("Order") == "order"
  {
    SanitizeEachCons('r', "");
    SanitizeEachCons('e', "r");
    SanitizeEachCons('d', "er");
    SanitizeEachCons('r', "der");
    SanitizeEachCons('O', "rder");
  }

  lemma IdByCharacter()
    ensures SanitizeEach("-ID #1") == "id_1"
  {
    SanitizeEachCons('1', "");
    SanitizeEachCons('#', "1");
    SanitizeEachCons(' ', "#1");
    SanitizeEachCons('D', " #1");
    SanitizeEachCons('I', "D #1");
    SanitizeEachCons('-', "ID #1");
  }

  lemma OrderIdByCharacter()
    ensures SanitizeEach("Order-ID #1") == "orderid_1"
  {
    OrderByCharacter();
    IdByCharacter();
    Glue("Order", "-ID #1", "Order-ID #1", "order", "id_1", "orderid_1");
  }

  /** Punctuation is dropped, the space still becomes `_`. */
  lemma SanitizeOrderId()
    ensures Sanitize("Order-ID #1") == "orderid_1"
  {
    SanitizeByCharacter("Order-ID #1");
    OrderIdByCharacter();
  }

  lemma TableIdCons(c: char, rest: string)
    ensures TableIdEach([c] + rest) == TableIdChar(c) + TableIdEach(rest)
  {
    assert ([c] + rest)[1..] == rest;
  }

  /** The table id drops `$` instead of spelling it out. */
  lemma TableIdDollar()
    ensures TableIdFromTitle("Q1 $") == "q1_"
  {
    TableIdCons('$', "");
    TableIdCons(' ', "$");
    TableIdCons('1', " $");
    TableIdCons('Q', "1 $");
    TableIdByCharacter("Q1 $");
  }

  /** Numbers win over dates, and blanks are ignored. */
  lemma FloatExample(isFloat: string -> bool)
    requires isFloat("2020") && isFloat("15.5")
    ensures SequenceType(isFloat, ["2020", "", "15.5"]) == FLOAT
  {
    ReplaceCommaNoComma("2020");
    ReplaceCommaNoComma("15.5");
    var column := ["2020", "", "15.5"];
    assert column[0] == "2020" && column[1] == "" && column[2] == "15.5";
    assert !AllEmpty(column) && AllFloat(isFloat, column);
  }

  /** A comma is a decimal separator. */
  lemma CommaExample(isFloat: string -> bool)
    requires isFloat("10.5") && isFloat("7.0")
    ensures SequenceType(isFloat, ["10,5", "7.0"]) == FLOAT
  {
    assert ReplaceComma("10,5") == "10.5";
    ReplaceCommaNoComma("7.0");
  }

  lemma DateExampleCells()
    ensures MatchesDate("2021-01-15") && MatchesDate("2021-12-31")
  {
    assert "2021-01-15"[..4] == "2021" && "2021-01-15"[5..7] == "01" && "2021-01-15"[8..] == "15";
    assert "2021-12-31"[..4] == "2021" && "2021-12-31"[5..7] == "12" && "2021-12-31"[8..] == "31";
  }

  lemma DateColumn(isFloat: string -> bool, a: string, b: string)
    requires a != "" && !isFloat(ReplaceComma(a)) && MatchesDate(a) && MatchesDate(b)
    ensures SequenceType(isFloat, [a, b, ""]) == DATE
  {
    var column := [a, b, ""];
    assert column[0] == a && column[1] == b && column[2] == "";
    assert !AllEmpty(column);
    assert !AllFloat(isFloat, column);
    assert AllDates(column);
  }

  lemma DateExample(isFloat: string -> bool)
    requires !isFloat("2021-01-15")
    ensures SequenceType(isFloat, ["2021-01-15", "2021-12-31", ""]) == DATE
  {
    ReplaceCommaNoComma("2021-01-15");
    DateExampleCells();
    DateColumn(isFloat, "2021-01-15", "2021-12-31");
  }

  lemma StringExample(isFloat: string -> bool)
    requires !isFloat("abc")
    ensures SequenceType(isFloat, ["1", "abc", "3"]) == STRING
  {
    ReplaceCommaNoComma("abc");
    assert !MatchesDate("abc");
  }

  /** The date test is a shape test: a day the month does not have passes, a thirteenth month does not. */
  lemma DateShapeExamples()
    ensures MatchesDate("2021-02-31")
    ensures MatchesDate("1999-1-9")
    ensures !MatchesDate("2021-13-01")
    ensures !MatchesDate("3021-01-01")
    ensures !MatchesDate("2021-01-32")
  {
    assert "2021-02-31"[..4] == "2021" && "2021-02-31"[5..7] == "02" && "2021-02-31"[8..] == "31";
    assert "1999-1-9"[..4] == "1999" && "1999-1-9"[5..6] == "1" && "1999-1-9"[7..] == "9";
    assert "2021-13-01"[5..7] == "13" && "2021-13-01"[5..6] == "1" && "2021-13-01"[7..] == "-01";
    assert "2021-01-32"[5..7] == "01" && "2021-01-32"[8..] == "32" && "2021-01-32"[6] == '1';
  }

  lemma SchemaExample(types: map<string, ColumnType>)
    requires "" in types && "qty" in types
    ensures ColumnField(["", "qty", ""], types, 0).name == "dummy_name1"
    ensures ColumnField(["", "qty", ""], types, 1) == Field("qty", types["qty"])
    ensures ColumnField(["", "qty", ""], types, 2).name == "dummy_name2"
  {
    var names := ["", "qty", ""];
    assert names[..1] == [""];
    assert names[..3] == names && names[..2] == ["", "qty"];
    assert EmptyNames(names[..1]) == 1;
    assert EmptyNames(names[..3]) == 2;
  }

  /** Six short rows stop the sheet, so the good row after them is never read. */
  lemma BreakerExample()
    ensures SheetRecords(["a", "b"], "s", [["x"], ["x"], ["x"], ["x"], ["x"], ["x"], ["1", "2"]], 0) == []
    ensures |SheetRecords(["a", "b"], "s", [["x"], ["x"], ["x"], ["x"], ["x"], ["1", "2"]], 0)| == 1
  {
  }
}
