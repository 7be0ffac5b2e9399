/**
 * From spreadsheet rows to schedule records (main.py:40-61): label every row with
 * the declared column list, strip the `sequenz` column, and drop the later rows
 * whose non-empty `sequenz` repeats an earlier one.
 */
module Normalise {
  import opened Wrappers
  import opened Text
  import opened Schema

  /** What the spreadsheet reader yields: the header row (the sheet's second row)
      and the data rows below it, every cell as text. */
  datatype Sheet = Sheet(header: seq<string>, rows: seq<seq<string>>)

  /** The reader yields a table: every data row is as wide as the header. */
  predicate Rectangular(sheet: Sheet)
  {
    forall i :: 0 <= i < |sheet.rows| ==> |sheet.rows[i]| == |sheet.header|
  }

  /** A whole-run failure. */
  datatype Failure = ColumnCountMismatch(expected: nat, found: nat)

  /** A record as labelling produces it: one text cell per declared column and nothing else. */
  ghost predicate IsRow(r: Record)
  {
    (forall k :: k in r <==> k.Col?) && forall k :: k in r ==> r[k].Str?
  }

  /** A labelled record has exactly the declared columns as keys. */
  lemma RowKeys(r: Record)
    requires IsRow(r)
    ensures r.Keys == ColumnFields
  {
    FieldSets();
  }

  /** The record of one row: every column holds the cell at its position in the declared list. */
  function RowRecord(row: seq<string>): (r: Record)
    requires |row| == |Columns|
    ensures IsRow(r)
    ensures forall c :: Col(c) in r && r[Col(c)] == Str(row[ColumnIndex(c)])
  {
    ColumnsIndexed();
    FieldSets();
    map c | c in Columns :: Col(c) := Str(row[ColumnIndex(c)])
  }

  /** `df.columns = desired_columns` followed by `df.to_dict("records")` (main.py:49, main.py:63):
      a header of any other width than the declared list fails the whole run. */
  function Label(sheet: Sheet): (r: Result<seq<Record>, Failure>)
    requires Rectangular(sheet)
    ensures r.Err? <==> |sheet.header| != |Columns|
    ensures r.Err? ==> r.error == ColumnCountMismatch(|Columns|, |sheet.header|)
    ensures r.Ok? ==> |r.value| == |sheet.rows|
    ensures r.Ok? ==> forall i :: 0 <= i < |r.value| ==> IsRow(r.value[i])
    ensures r.Ok? ==> forall i, c :: 0 <= i < |r.value| ==>
      Col(c) in r.value[i] && r.value[i][Col(c)] == Str(sheet.rows[i][ColumnIndex(c)])
  {
    if |sheet.header| != |Columns| then Err(ColumnCountMismatch(|Columns|, |sheet.header|))
    else Ok(RowRecords(sheet.rows))
  }

  /** `RowRecord` of every row. */
  function RowRecords(rows: seq<seq<string>>): (rs: seq<Record>)
    requires forall i :: 0 <= i < |rows| ==> |rows[i]| == |Columns|
    ensures |rs| == |rows|
    ensures forall i :: 0 <= i < |rs| ==> rs[i] == RowRecord(rows[i])
  {
    if rows == [] then [] else [RowRecord(rows[0])] + RowRecords(rows[1..])
  }

  /** The `sequenz` cell of a record as a string, empty when it has none. */
  function SequenzOf(r: Record): string
  {
    if Col(Sequenz) in r && r[Col(Sequenz)].Str? then r[Col(Sequenz)].text else ""
  }

  /** A record after `df['sequenz'] = df['sequenz'].astype(str).str.strip()` (main.py:55). */
  function WithStrippedSequenz(r: Record): Record
  {
    r[Col(Sequenz) := Str(Strip(SequenzOf(r)))]
  }

  /** Strip the `sequenz` column of the frame in place (main.py:55). */
  method StripSequenzColumn(df: array<Record>)
    modifies df
    ensures forall i :: 0 <= i < df.Length ==> df[i] == WithStrippedSequenz(old(df[i]))
  {
    for i := 0 to df.Length
      invariant forall j :: 0 <= j < i ==> df[j] == WithStrippedSequenz(old(df[j]))
      invariant forall j :: i <= j < df.Length ==> df[j] == old(df[j])
    {
      df[i] := WithStrippedSequenz(df[i]);
    }
  }

  /** Stripping the column keeps the record shape, touches no other cell, and leaves
      a `sequenz` that is its own strip. */
  lemma StrippedSequenz(r: Record)
    ensures IsRow(r) ==> IsRow(WithStrippedSequenz(r))
    ensures forall k :: k in r && k != Col(Sequenz) ==> WithStrippedSequenz(r)[k] == r[k]
    ensures SequenzOf(WithStrippedSequenz(r)) == Strip(SequenzOf(r))
    ensures Strip(SequenzOf(WithStrippedSequenz(r))) == SequenzOf(WithStrippedSequenz(r))
  {
    FieldSets();
    StripIdempotent(SequenzOf(r));
  }

  /** The `sequenz` values of a frame, row by row. */
  function Keys(df: seq<Record>): (keys: seq<string>)
    ensures |keys| == |df|
  {
    seq(|df|, i requires 0 <= i < |df| => SequenzOf(df[i]))
  }

  /** `(df['sequenz'] != '') & df.duplicated(subset=['sequenz'], keep='first')` at row `i`:
      the key is non-empty and occurs in an earlier row. */
  predicate IsDuplicate(keys: seq<string>, i: nat)
    requires i < |keys|
  {
    keys[i] != "" && keys[i] in keys[..i]
  }

  /** `dup_mask` (main.py:57). */
  function DupMask(keys: seq<string>): (mask: seq<bool>)
    ensures |mask| == |keys|
  {
    seq(|keys|, i requires 0 <= i < |keys| => IsDuplicate(keys, i))
  }

  /** `xs[~drop]`: the elements whose mask bit is clear, in order. */
  function Select<T>(xs: seq<T>, drop: seq<bool>): seq<T>
    requires |xs| == |drop|
  {
    if xs == [] then []
    else
      var n := |xs| - 1;
      Select(xs[..n], drop[..n]) + (if drop[n] then [] else [xs[n]])
  }

  /** `int(dup_mask.sum())`: how many bits are set. */
  function CountSet(mask: seq<bool>): nat
  {
    if mask == [] then 0
    else CountSet(mask[..|mask| - 1]) + (if mask[|mask| - 1] then 1 else 0)
  }

  /** `df[~dup_mask]`: the frame without its duplicate rows (main.py:61). */
  function Deduplicated(df: seq<Record>): seq<Record>
  {
    Select(df, DupMask(Keys(df)))
  }

  /** Drop the duplicate rows and count them (main.py:57-61), tracking the keys seen so far. */
  method DropDuplicates(df: seq<Record>) returns (kept: seq<Record>, removed: nat)
    ensures kept == Deduplicated(df)
    ensures removed == CountSet(DupMask(Keys(df)))
    ensures removed == |df| - |kept|
  {
    ghost var keys := Keys(df);
    ghost var mask := DupMask(keys);
    kept, removed := [], 0;
    var seen: set<string> := {};
    for i := 0 to |df|
      invariant forall s :: s in seen <==> s != "" && s in keys[..i]
      invariant kept == Select(df[..i], mask[..i])
      invariant removed == CountSet(mask[..i])
    {
      var key := SequenzOf(df[i]);
      assert keys[..i + 1] == keys[..i] + [key];
      assert df[..i + 1][..i] == df[..i] && mask[..i + 1][..i] == mask[..i];
      assert mask[i] == (key != "" && key in seen);
      if key != "" && key in seen {
        removed := removed + 1;
      } else {
        kept := kept + [df[i]];
        if key != "" {
          seen := seen + {key};
        }
      }
    }
    assert df[..|df|] == df && mask[..|df|] == mask;
    SelectSize(df, mask);
  }

  /** Every element either is selected or is counted as dropped. */
  lemma {:induction false} SelectSize<T>(xs: seq<T>, drop: seq<bool>)
    requires |xs| == |drop|
    ensures |Select(xs, drop)| + CountSet(drop) == |xs|
  {
    if xs != [] {
      var n := |xs| - 1;
      SelectSize(xs[..n], drop[..n]);
    }
  }

  /** Every selected element is an element whose mask bit is clear. */
  lemma {:induction false} SelectFrom<T>(xs: seq<T>, drop: seq<bool>)
    requires |xs| == |drop|
    ensures forall y :: y in Select(xs, drop) ==> exists i :: 0 <= i < |xs| && !drop[i] && xs[i] == y
  {
    if xs != [] {
      var n := |xs| - 1;
      SelectFrom(xs[..n], drop[..n]);
    }
  }

  /** Every element whose mask bit is clear is selected. */
  lemma {:induction false} SelectKeeps<T>(xs: seq<T>, drop: seq<bool>, i: nat)
    requires |xs| == |drop| && i < |xs| && !drop[i]
    ensures xs[i] in Select(xs, drop)
  {
    var n := |xs| - 1;
    if i < n {
      SelectKeeps(xs[..n], drop[..n], i);
    }
  }

  /** The dropped rows of a prefix are the dropped rows of the whole frame up to there. */
  lemma DupMaskPrefix(df: seq<Record>, n: nat)
    requires n <= |df|
    ensures DupMask(Keys(df))[..n] == DupMask(Keys(df[..n]))
  {
    assert Keys(df)[..n] == Keys(df[..n]);
    forall i | 0 <= i < n
      ensures DupMask(Keys(df))[i] == DupMask(Keys(df[..n]))[i]
    {
      assert Keys(df)[..i] == Keys(df[..n])[..i];
    }
  }

  /** Deduplicating a longer frame deduplicates its prefix and then decides its last row. */
  lemma DeduplicatedSnoc(df: seq<Record>, n: nat)
    requires n < |df|
    ensures Deduplicated(df[..n + 1]) ==
      Deduplicated(df[..n]) + (if IsDuplicate(Keys(df), n) then [] else [df[n]])
  {
    var xs := df[..n + 1];
    DupMaskPrefix(df, n + 1);
    DupMaskPrefix(df, n);
    assert xs[..n] == df[..n];
    assert DupMask(Keys(xs))[..n] == DupMask(Keys(df))[..n];
  }

  /** No two records of `rs` share a non-empty `sequenz`. */
  ghost predicate DistinctKeys(rs: seq<Record>)
  {
    forall a, b :: 0 <= a < b < |rs| && SequenzOf(rs[a]) != "" ==> SequenzOf(rs[a]) != SequenzOf(rs[b])
  }

  /** No two kept records share a non-empty `sequenz`, and every kept record comes from the frame. */
  lemma {:induction false} DeduplicatedDistinctPrefix(df: seq<Record>, n: nat)
    requires n <= |df|
    ensures var kept := Deduplicated(df[..n]);
      (forall a :: 0 <= a < |kept| ==> exists j :: 0 <= j < n && df[j] == kept[a]) &&
      (forall a, b :: 0 <= a < b < |kept| && SequenzOf(kept[a]) != "" ==>
        SequenzOf(kept[a]) != SequenzOf(kept[b]))
  {
    if n > 0 {
      DeduplicatedDistinctPrefix(df, n - 1);
      DeduplicatedSnoc(df, n - 1);
      var prev := Deduplicated(df[..n - 1]);
      var kept := Deduplicated(df[..n]);
      if !IsDuplicate(Keys(df), n - 1) {
        assert kept == prev + [df[n - 1]];
        var key := SequenzOf(df[n - 1]);
        forall a | 0 <= a < |prev| && SequenzOf(prev[a]) != ""
          ensures SequenzOf(prev[a]) != key
        {
          var j :| 0 <= j < n - 1 && df[j] == prev[a];
          assert Keys(df)[j] == SequenzOf(prev[a]);
          assert Keys(df)[..n - 1][j] == Keys(df)[j];
        }
      }
    }
  }

  /** After deduplication no two records share a non-empty `sequenz` (main.py:57-61). */
  lemma DeduplicatedDistinct(df: seq<Record>)
    ensures DistinctKeys(Deduplicated(df))
  {
    DeduplicatedDistinctPrefix(df, |df|);
    assert df[..|df|] == df;
  }

  /** The first row holding a key. */
  lemma {:induction false} FirstOccurrence(keys: seq<string>, i: nat) returns (j: nat)
    requires i < |keys|
    ensures j <= i && keys[j] == keys[i] && keys[j] !in keys[..j]
    decreases i
  {
    if keys[i] in keys[..i] {
      var k :| 0 <= k < i && keys[k] == keys[i];
      j := FirstOccurrence(keys, k);
    } else {
      j := i;
    }
  }

  /** Deduplication keeps first occurrences (main.py:57, `keep='first'`): a kept record
      with a non-empty key is a row of the frame whose key occurs in no earlier row. */
  lemma DeduplicatedKeepsFirst(df: seq<Record>)
    ensures var kept := Deduplicated(df);
      forall r :: r in kept && SequenzOf(r) != "" ==>
        exists i :: 0 <= i < |df| && df[i] == r && SequenzOf(r) !in Keys(df)[..i]
  {
    var keys := Keys(df);
    var mask := DupMask(keys);
    SelectFrom(df, mask);
    forall r | r in Deduplicated(df) && SequenzOf(r) != ""
      ensures exists i :: 0 <= i < |df| && df[i] == r && SequenzOf(r) !in keys[..i]
    {
      var i :| 0 <= i < |df| && !mask[i] && df[i] == r;
      assert !IsDuplicate(keys, i);
      assert keys[i] == SequenzOf(r);
    }
  }

  /** Deduplication loses no key: every `sequenz` of the frame is the `sequenz` of some kept record. */
  lemma DeduplicatedKeepsEveryKey(df: seq<Record>)
    ensures forall i :: 0 <= i < |df| ==> SequenzOf(df[i]) in Keys(Deduplicated(df))
  {
    var keys := Keys(df);
    var mask := DupMask(keys);
    var kept := Deduplicated(df);
    forall i | 0 <= i < |df|
      ensures SequenzOf(df[i]) in Keys(kept)
    {
      var j := FirstOccurrence(keys, i);
      assert !IsDuplicate(keys, j);
      SelectKeeps(df, mask, j);
      var a :| 0 <= a < |kept| && kept[a] == df[j];
      assert Keys(kept)[a] == SequenzOf(df[i]);
    }
  }

  /** The records without a `sequenz`, in order. */
  function Unkeyed(rs: seq<Record>): seq<Record>
  {
    if rs == [] then []
    else
      var n := |rs| - 1;
      Unkeyed(rs[..n]) + (if SequenzOf(rs[n]) == "" then [rs[n]] else [])
  }

  /** Records with an empty `sequenz` are never dropped: the unkeyed records after
      deduplication are exactly those before, in the same order (main.py:57). */
  lemma {:induction false} UnkeyedKept(df: seq<Record>)
    ensures Unkeyed(Deduplicated(df)) == Unkeyed(df)
  {
    UnkeyedKeptPrefix(df, |df|);
    assert df[..|df|] == df;
  }

  lemma {:induction false} UnkeyedKeptPrefix(df: seq<Record>, n: nat)
    requires n <= |df|
    ensures Unkeyed(Deduplicated(df[..n])) == Unkeyed(df[..n])
  {
    if n > 0 {
      UnkeyedKeptPrefix(df, n - 1);
      DeduplicatedSnoc(df, n - 1);
      var prev := Deduplicated(df[..n - 1]);
      assert df[..n][..n - 1] == df[..n - 1];
      if IsDuplicate(Keys(df), n - 1) {
        assert prev + [] == prev;
      } else {
        UnkeyedSnoc(prev, df[n - 1]);
      }
    }
  }

  lemma UnkeyedSnoc(rs: seq<Record>, r: Record)
    ensures Unkeyed(rs + [r]) == Unkeyed(rs) + (if SequenzOf(r) == "" then [r] else [])
  {
    assert (rs + [r])[..|rs|] == rs;
  }

  /** Deduplication never adds rows. */
  lemma DeduplicatedSize(df: seq<Record>)
    ensures |Deduplicated(df)| <= |df|
  {
    SelectSize(df, DupMask(Keys(df)));
  }

  /** A non-empty frame never deduplicates to nothing: its first row always stays. */
  lemma DeduplicatedNonEmpty(df: seq<Record>)
    ensures |Deduplicated(df)| == 0 <==> |df| == 0
  {
    if |df| > 0 {
      SelectKeeps(df, DupMask(Keys(df)), 0);
    }
  }

  /** Deduplication only drops rows: every kept record is a row of the frame. */
  lemma DeduplicatedFrom(df: seq<Record>)
    ensures forall r :: r in Deduplicated(df) ==> r in df
  {
    SelectFrom(df, DupMask(Keys(df)));
  }
}
