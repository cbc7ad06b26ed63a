/**
 * Sheet selection: the included sheets when that list is given (and not
 * empty), every sheet title of the spreadsheet otherwise; then each
 * excluded name is removed with `list.remove`, which drops the first
 * occurrence and raises when the name is not (or no longer) in the list.
 */
module Selection {
  import opened Cells

  datatype SelectError = NotInList(name: string)

  /** The position of the first occurrence of `x`. */
  function FirstIndex(s: seq<string>, x: string): (i: nat)
    requires x in s
    ensures i < |s| && s[i] == x
    ensures forall j | 0 <= j < i :: s[j] != x
  {
    if s[0] == x then 0 else 1 + FirstIndex(s[1..], x)
  }

  /** `s.remove(x)`: None where Python raises ValueError. */
  function RemoveFirst(s: seq<string>, x: string): (r: Option<seq<string>>)
    ensures r.None? <==> x !in s
    ensures r.Some? ==> r.value == s[..FirstIndex(s, x)] + s[FirstIndex(s, x) + 1..]
    ensures r.Some? ==> multiset(r.value) == multiset(s) - multiset{x}
  {
    if x !in s then None
    else
      var i := FirstIndex(s, x);
      assert s == s[..i] + [x] + s[i + 1..];
      Some(s[..i] + s[i + 1..])
  }

  /** `if not included_sheets:` the sheets the selection starts from. */
  function BaseSheets(titles: seq<string>, included: Option<seq<string>>): (r: seq<string>)
    // an absent or empty list selects every sheet of the spreadsheet
    ensures included.None? || included.value == [] ==> r == titles
    ensures included.Some? && included.value != [] ==> r == included.value
  {
    if included.None? || included.value == [] then titles else included.value
  }

  /** `if excluded_sheets:` the names to remove (none when absent). */
  function ExcludedSheets(excluded: Option<seq<string>>): (r: seq<string>)
    ensures excluded.None? ==> r == []
    ensures excluded.Some? ==> r == excluded.value
  {
    if excluded.None? then [] else excluded.value
  }

  /** The names left after removing each excluded name in turn, or the first name that was missing. */
  function RemoveAll(s: seq<string>, excluded: seq<string>): (r: Result<seq<string>, SelectError>)
    // each successful removal takes out exactly one sheet
    ensures r.Ok? ==> |r.value| + |excluded| == |s|
    ensures r.Err? ==> r.error.name in excluded
    decreases |excluded|
  {
    if excluded == [] then Ok(s)
    else
      match RemoveFirst(s, excluded[0])
      case None => Err(NotInList(excluded[0]))
      case Some(t) => RemoveAll(t, excluded[1..])
  }

  /**
   * Removal succeeds exactly when every excluded name, counted with
   * multiplicity, is among the sheets; the sheets left are then the sheets
   * minus the excluded names, and a failure names an excluded sheet.
   */
  lemma {:induction false} RemoveAllMultiset(s: seq<string>, excluded: seq<string>)
    ensures RemoveAll(s, excluded).Ok? <==> multiset(excluded) <= multiset(s)
    ensures RemoveAll(s, excluded).Ok? ==> multiset(RemoveAll(s, excluded).value) == multiset(s) - multiset(excluded)
    ensures RemoveAll(s, excluded).Err? ==> RemoveAll(s, excluded).error.name in excluded
    decreases |excluded|
  {
    if excluded != [] {
      var x, rest := excluded[0], excluded[1..];
      assert excluded == [x] + rest;
      assert multiset(excluded) == multiset{x} + multiset(rest);
      if x in s {
        var t := RemoveFirst(s, x).value;
        RemoveAllMultiset(t, rest);
        assert multiset(t) == multiset(s) - multiset{x};
        assert multiset(s)[x] >= 1;
      } else {
        assert multiset(s)[x] == 0;
        assert multiset(excluded)[x] >= 1;
      }
    }
  }

  /** Removal never reorders: the sheets left keep their relative order. */
  lemma {:induction false} RemoveAllKeepsOrder(s: seq<string>, excluded: seq<string>)
    requires RemoveAll(s, excluded).Ok?
    ensures IsSubsequence(RemoveAll(s, excluded).value, s)
    decreases |excluded|
  {
    if excluded != [] {
      var t := RemoveFirst(s, excluded[0]).value;
      RemoveAllKeepsOrder(t, excluded[1..]);
      var i := FirstIndex(s, excluded[0]);
      DropOneIsSubsequence(s, i);
      SubsequenceTransitive(RemoveAll(t, excluded[1..]).value, t, s);
    } else {
      SubsequenceReflexive(s);
    }
  }

  /** `a` is `b` with some elements left out, the rest in their order. */
  predicate IsSubsequence(a: seq<string>, b: seq<string>)
    decreases |b|
  {
    if b == [] then a == []
    else (a != [] && a[0] == b[0] && IsSubsequence(a[1..], b[1..])) || IsSubsequence(a, b[1..])
  }

  lemma {:induction false} SubsequenceReflexive(a: seq<string>)
    ensures IsSubsequence(a, a)
    decreases |a|
  {
    if a != [] {
      SubsequenceReflexive(a[1..]);
    }
  }

  lemma {:induction false} DropOneIsSubsequence(s: seq<string>, i: nat)
    requires i < |s|
    ensures IsSubsequence(s[..i] + s[i + 1..], s)
    decreases i
  {
    var a := s[..i] + s[i + 1..];
    if i == 0 {
      assert a == s[1..];
      SubsequenceReflexive(s[1..]);
    } else {
      DropOneIsSubsequence(s[1..], i - 1);
      assert a[0] == s[0];
      assert a[1..] == s[1..][..i - 1] + s[1..][i..];
    }
  }

  lemma {:induction false} SubsequenceTransitive(a: seq<string>, b: seq<string>, c: seq<string>)
    requires IsSubsequence(a, b) && IsSubsequence(b, c)
    ensures IsSubsequence(a, c)
    decreases |c|
  {
    if c != [] {
      if b != [] && b[0] == c[0] && IsSubsequence(b[1..], c[1..]) {
        if a != [] && a[0] == b[0] && IsSubsequence(a[1..], b[1..]) {
          SubsequenceTransitive(a[1..], b[1..], c[1..]);
        } else {
          SubsequenceTransitive(a, b[1..], c[1..]);
        }
      } else {
        SubsequenceTransitive(a, b, c[1..]);
      }
    }
  }

  /** The selected sheet names: the base list with the excluded names removed in turn. */
  function Selected(titles: seq<string>, included: Option<seq<string>>, excluded: Option<seq<string>>): Result<seq<string>, SelectError>
  {
    RemoveAll(BaseSheets(titles, included), ExcludedSheets(excluded))
  }

  /** The selection of `sheet_names`, with its loop of `sheet_names.remove(sheet)`. */
  method SelectSheets(titles: seq<string>, included: Option<seq<string>>, excluded: Option<seq<string>>)
    returns (r: Result<seq<string>, SelectError>)
    ensures r == Selected(titles, included, excluded)
    ensures r.Ok? <==> multiset(ExcludedSheets(excluded)) <= multiset(BaseSheets(titles, included))
    ensures r.Ok? ==> multiset(r.value) == multiset(BaseSheets(titles, included)) - multiset(ExcludedSheets(excluded))
    ensures r.Ok? ==> IsSubsequence(r.value, BaseSheets(titles, included))
    ensures r.Err? ==> r.error.name in ExcludedSheets(excluded)
  {
    var sheetNames := BaseSheets(titles, included);
    var toRemove := ExcludedSheets(excluded);
    ghost var base := sheetNames;
    var i := 0;
    while i < |toRemove|
      invariant 0 <= i <= |toRemove|
      invariant RemoveAll(sheetNames, toRemove[i..]) == RemoveAll(base, toRemove)
    {
      var sheet := toRemove[i];
      assert toRemove[i..][1..] == toRemove[i + 1..];
      var removed := RemoveFirst(sheetNames, sheet);
      if removed.None? {
        r := Err(NotInList(sheet));
        assert r == RemoveAll(base, toRemove);
        RemoveAllMultiset(base, toRemove);
        return;
      }
      sheetNames := removed.value;
      i := i + 1;
    }
    assert toRemove[i..] == [];
    r := Ok(sheetNames);
    assert r == RemoveAll(base, toRemove);
    RemoveAllMultiset(base, toRemove);
    RemoveAllKeepsOrder(base, toRemove);
  }
}
