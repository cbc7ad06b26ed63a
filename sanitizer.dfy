/**
 * Identifier sanitizing. A header cell becomes a column name by: spaces to
 * `_`, `$` to `usd`, dropping every character that is neither alphanumeric
 * nor `_`, and lower-casing. The table id derived from the spreadsheet title
 * uses the same filter without the `$` step. The header list is rewritten in
 * place, one entry at a time.
 */
module Sanitizer {
  import opened Ascii
  import opened Cells

  /** A character the warehouse accepts in a sanitized name. */
  predicate IsNameChar(c: char) { IsLower(c) || IsDigit(c) || c == '_' }

  /** The comprehension's test `char.isalnum() or char == '_'`. */
  predicate Kept(c: char) { IsAlnum(c) || c == '_' }

  /** `''.join([char for char in s if char.isalnum() or char == '_'])` */
  function KeepNameChars(s: string): (r: string)
    ensures |r| <= |s|
    ensures forall i | 0 <= i < |r| :: Kept(r[i])
  {
    if s == [] then [] else (if Kept(s[0]) then [s[0]] else []) + KeepNameChars(s[1..])
  }

  lemma {:induction false} KeepNameCharsAppend(a: string, b: string)
    ensures KeepNameChars(a + b) == KeepNameChars(a) + KeepNameChars(b)
  {
    if a != [] {
      assert (a + b)[1..] == a[1..] + b;
      KeepNameCharsAppend(a[1..], b);
    } else {
      assert a + b == b;
    }
  }

  /** The header sanitizer applied to each entry of `column_names`. */
  function Sanitize(header: string): (r: string)
    ensures forall i | 0 <= i < |r| :: IsNameChar(r[i])
  {
    Lower(KeepNameChars(Replace(Replace(header, ' ', "_"), '$', "usd")))
  }

  /** The table id derived from the spreadsheet title: no `$` step. */
  function TableIdFromTitle(title: string): (r: string)
    ensures forall i | 0 <= i < |r| :: IsNameChar(r[i])
  {
    Lower(KeepNameChars(Replace(title, ' ', "_")))
  }

  /** What a single header character contributes to the sanitized name. */
  function SanitizeChar(c: char): string
  {
    if c == ' ' then "_"
    else if c == '$' then "usd"
    else if Kept(c) then [ToLower(c)]
    else ""
  }

  /** What a single title character contributes to the table id. */
  function TableIdChar(c: char): string
  {
    if c == ' ' then "_" else if Kept(c) then [ToLower(c)] else ""
  }

  /** The character-by-character reading of the sanitizer. */
  function SanitizeEach(s: string): string
  {
    if s == [] then [] else SanitizeChar(s[0]) + SanitizeEach(s[1..])
  }

  function TableIdEach(s: string): string
  {
    if s == [] then [] else TableIdChar(s[0]) + TableIdEach(s[1..])
  }

  lemma KeepOne(c: char)
    ensures KeepNameChars([c]) == if Kept(c) then [c] else []
  {
    assert [c][1..] == [];
  }

  /** On a single character, the four passes give that character's contribution. */
  lemma SanitizeOneChar(c: char)
    ensures Sanitize([c]) == SanitizeChar(c)
  {
    ReplaceOne(c, ' ', "_");
    if c == ' ' {
      ReplaceOne('_', '$', "usd");
      KeepOne('_');
      assert Lower("_") == "_";
    } else if c == '$' {
      ReplaceOne(c, '$', "usd");
      assert KeepNameChars("usd") == "usd";
      assert Lower("usd") == "usd";
    } else {
      ReplaceOne(c, '$', "usd");
      KeepOne(c);
      assert Lower([c]) == [ToLower(c)];
    }
  }

  /** Sanitizing works piecewise: the name of `a + b` is the name of `a` followed by that of `b`. */
  lemma SanitizeAppend(a: string, b: string)
    ensures Sanitize(a + b) == Sanitize(a) + Sanitize(b)
  {
    var a1, b1 := Replace(a, ' ', "_"), Replace(b, ' ', "_");
    ReplaceAppend(a, b, ' ', "_");
    var a2, b2 := Replace(a1, '$', "usd"), Replace(b1, '$', "usd");
    ReplaceAppend(a1, b1, '$', "usd");
    KeepNameCharsAppend(a2, b2);
    LowerAppend(KeepNameChars(a2), KeepNameChars(b2));
  }

  /**
   * The four whole-string passes agree with the per-character reading: each
   * space yields `_`, each `$` yields `usd`, each letter or digit yields its
   * lower-case form, `_` stays, and every other character is dropped.
   */
  lemma {:induction false} SanitizeByCharacter(header: string)
    ensures Sanitize(header) == SanitizeEach(header)
  {
    if header != [] {
      assert header == [header[0]] + header[1..];
      SanitizeAppend([header[0]], header[1..]);
      SanitizeOneChar(header[0]);
      SanitizeByCharacter(header[1..]);
    }
  }

  lemma {:induction false} TableIdByCharacter(title: string)
    ensures TableIdFromTitle(title) == TableIdEach(title)
  {
    if title != [] {
      var c, rest := title[0], title[1..];
      assert title == [c] + rest;
      var r1 := Replace([c], ' ', "_");
      ReplaceAppend([c], rest, ' ', "_");
      KeepNameCharsAppend(r1, Replace(rest, ' ', "_"));
      LowerAppend(KeepNameChars(r1), KeepNameChars(Replace(rest, ' ', "_")));
      assert Lower(KeepNameChars(r1)) == TableIdChar(c) by {
        if c == ' ' {
          assert r1 == "_";
        } else {
          assert r1 == [c];
        }
      }
      TableIdByCharacter(rest);
    }
  }

  lemma {:induction false} SanitizeEachAppend(a: string, b: string)
    ensures SanitizeEach(a + b) == SanitizeEach(a) + SanitizeEach(b)
  {
    if a != [] {
      assert (a + b)[1..] == a[1..] + b;
      SanitizeEachAppend(a[1..], b);
    } else {
      assert a + b == b;
    }
  }

  lemma SanitizeEachCons(c: char, rest: string)
    ensures SanitizeEach([c] + rest) == SanitizeChar(c) + SanitizeEach(rest)
  {
    assert ([c] + rest)[1..] == rest;
  }

  /** A string of name characters passes through the sanitizer unchanged. */
  lemma {:induction false} SanitizeKeepsNames(s: string)
    requires forall i | 0 <= i < |s| :: IsNameChar(s[i])
    ensures SanitizeEach(s) == s
  {
    if s != [] {
      assert IsNameChar(s[0]);
      assert SanitizeChar(s[0]) == [s[0]];
      SanitizeKeepsNames(s[1..]);
    }
  }

  /** Sanitizing twice is sanitizing once. */
  lemma SanitizeIdempotent(header: string)
    ensures Sanitize(Sanitize(header)) == Sanitize(header)
  {
    var r := Sanitize(header);
    SanitizeByCharacter(r);
    SanitizeKeepsNames(r);
  }

  lemma {:induction false} TableIdEachMatchesSanitize(title: string)
    requires '$' !in title
    ensures TableIdEach(title) == SanitizeEach(title)
  {
    if title != [] {
      TableIdEachMatchesSanitize(title[1..]);
    }
  }

  /** Without a `$` in the title, the table id is the title sanitized like a header. */
  lemma TableIdIsSanitizeWithoutDollar(title: string)
    requires '$' !in title
    ensures TableIdFromTitle(title) == Sanitize(title)
  {
    TableIdByCharacter(title);
    SanitizeByCharacter(title);
    TableIdEachMatchesSanitize(title);
  }

  /** `if not table_id:` a missing or empty table id is derived from the title. */
  function ResolveTableId(given: Option<string>, title: string): (r: string)
    ensures given.Some? && given.value != "" ==> r == given.value
    ensures (given.None? || given.value == "") ==> r == TableIdFromTitle(title)
  {
    if given.Some? && given.value != "" then given.value else TableIdFromTitle(title)
  }

  /** The in-place loop over `column_names`. */
  method SanitizeHeaders(names: array<string>)
    modifies names
    ensures forall i | 0 <= i < names.Length :: names[i] == Sanitize(old(names[i]))
  {
    var i := 0;
    while i < names.Length
      invariant 0 <= i <= names.Length
      invariant forall k | 0 <= k < i :: names[k] == Sanitize(old(names[k]))
      invariant forall k | i <= k < names.Length :: names[k] == old(names[k])
    {
      names[i] := Sanitize(names[i]);
      i := i + 1;
    }
  }
}
