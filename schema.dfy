/**
 * The table definition: `sheet_name: STRING` first, then one field per
 * header column in order. A column whose sanitized name is empty is given
 * the name `dummy_name<k>`, k counting the empty names met so far from 1,
 * and the type classified for the empty name.
 */
module Schema {
  import opened Cells
  import opened Ascii

  datatype Field = Field(name: string, fieldType: ColumnType)

  /** `'dummy_name' + str(k)` */
  function DummyName(k: nat): (r: string)
    ensures |r| > 10 && r[..10] == "dummy_name"
    ensures forall i | 10 <= i < |r| :: IsDigit(r[i])
  {
    "dummy_name" + NatToString(k)
  }

  /** The number of empty names in `names`. */
  function EmptyNames(names: seq<string>): (c: nat)
    ensures c <= |names|
  {
    if names == [] then 0
    else EmptyNames(names[..|names| - 1]) + (if names[|names| - 1] == "" then 1 else 0)
  }

  /**
   * The field for header position i: a named column keeps its name, an
   * unnamed one gets a dummy name, so no field is unnamed; the type is the
   * one classified for the column's (possibly empty) name.
   */
  function ColumnField(names: seq<string>, types: map<string, ColumnType>, i: nat): (f: Field)
    requires i < |names| && names[i] in types
    ensures f.name != ""
    ensures names[i] != "" ==> f.name == names[i]
    ensures f.fieldType == types[names[i]]
  {
    if names[i] != "" then Field(names[i], types[names[i]])
    else Field(DummyName(EmptyNames(names[..i + 1])), types[""])
  }

  /** The loop that appends to `schema`, with its `dummy_name` counter. */
  method BuildSchema(names: seq<string>, types: map<string, ColumnType>) returns (schema: seq<Field>)
    requires forall n | n in names :: n in types
    ensures |schema| == 1 + |names|
    ensures schema[0] == Field(SheetNameKey, STRING)
    ensures forall i | 0 <= i < |names| :: schema[i + 1] == ColumnField(names, types, i)
  {
    schema := [Field(SheetNameKey, STRING)];
    var dummyName: nat := 1;
    var i := 0;
    while i < |names|
      invariant 0 <= i <= |names| && |schema| == 1 + i
      invariant dummyName == EmptyNames(names[..i]) + 1
      invariant schema[0] == Field(SheetNameKey, STRING)
      invariant forall q | 0 <= q < i :: schema[q + 1] == ColumnField(names, types, q)
    {
      var columnName := names[i];
      assert names[..i + 1][..i] == names[..i];
      if columnName != "" {
        schema := schema + [Field(columnName, types[columnName])];
      } else {
        schema := schema + [Field(DummyName(dummyName), types[columnName])];
        dummyName := dummyName + 1;
      }
      i := i + 1;
    }
  }

  /** Counting empty names never goes down along the header. */
  lemma {:induction false} EmptyNamesMonotone(names: seq<string>, i: nat, j: nat)
    requires i <= j <= |names|
    ensures EmptyNames(names[..i]) <= EmptyNames(names[..j])
    decreases j - i
  {
    if i < j {
      EmptyNamesMonotone(names, i, j - 1);
      assert names[..j][..j - 1] == names[..j - 1];
    }
  }

  /** Two dummy names are equal only for equal counters. */
  lemma DummyNameInjective(k: nat, m: nat)
    requires DummyName(k) == DummyName(m)
    ensures k == m
  {
    var p := "dummy_name";
    assert NatToString(k) == DummyName(k)[|p|..];
    assert NatToString(m) == DummyName(m)[|p|..];
    NatToStringInjective(k, m);
  }

  /**
   * Each empty header name gets a name of its own: the dummy names of two
   * different positions differ, and none of the fields is unnamed.
   */
  lemma DummyNamesDistinct(names: seq<string>, types: map<string, ColumnType>, i: nat, j: nat)
    requires i < j < |names| && names[i] == "" && names[j] == "" && "" in types
    ensures ColumnField(names, types, i).name != ColumnField(names, types, j).name
  {
    EmptyNamesMonotone(names, i + 1, j);
    assert names[..j + 1][..j] == names[..j];
    if ColumnField(names, types, i).name == ColumnField(names, types, j).name {
      DummyNameInjective(EmptyNames(names[..i + 1]), EmptyNames(names[..j + 1]));
    }
  }

  /** The k-th empty name, counting from 1, is `dummy_name<k>`. */
  lemma {:induction false} DummyNumbering(names: seq<string>, types: map<string, ColumnType>, i: nat)
    requires i < |names| && names[i] == "" && "" in types
    ensures ColumnField(names, types, i).name == DummyName(1 + EmptyNames(names[..i]))
  {
    assert names[..i + 1][..i] == names[..i];
  }
}
