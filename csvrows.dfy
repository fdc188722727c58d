/** The column layout of the monitor's CSV record and the order in which
    the host filter checks the columns. The cell test is a parameter, so
    that what is proved here about the bookkeeping holds whatever the
    grammars of the cells are. */
module CsvRows {
  const CSV_FIELDS: int := 24

  datatype ColKind = IntCol | FloatCol | TextCol

  /** The column lists in the order `_looks_like_csv` checks them. */
  const INT_COLS: seq<nat> := [3, 5, 7, 8, 11, 12, 13]
  const FLOAT_COLS: seq<nat> := [9, 10, 14, 15, 16, 17, 18, 19, 20, 21, 22]
  const TEXT_COLS: seq<nat> := [1, 2, 4, 6, 23]

  /** The outcome of `_looks_like_csv`: `IndexError` is the exception it
      raises when `fields` is below 24 and a checked column is missing. */
  datatype Verdict = Accept | Reject | IndexError

  /** The check of one list of columns: the first cell that is missing
      raises, the first that fails rejects. */
  function CheckCols(parts: seq<string>, idxs: seq<nat>, kind: ColKind, ok: (ColKind, string) -> bool): Verdict
    decreases |idxs|
  {
    if |idxs| == 0 then Accept
    else if idxs[0] >= |parts| then IndexError
    else if !ok(kind, parts[idxs[0]]) then Reject
    else CheckCols(parts, idxs[1..], kind, ok)
  }

  function AndThen(v: Verdict, w: Verdict): Verdict
  {
    if v == Accept then w else v
  }

  /** The three lists checked in turn. */
  function ListsVerdict(parts: seq<string>, ints: seq<nat>, floats: seq<nat>, texts: seq<nat>,
                        ok: (ColKind, string) -> bool): Verdict
  {
    AndThen(CheckCols(parts, ints, IntCol, ok),
            AndThen(CheckCols(parts, floats, FloatCol, ok), CheckCols(parts, texts, TextCol, ok)))
  }

  /** The checks of `_looks_like_csv` on the stripped cells, in its order. */
  function RowVerdict(parts: seq<string>, fields: int, ok: (ColKind, string) -> bool): Verdict
    requires |parts| >= 1
  {
    if |parts| != fields then Reject
    else if !ok(IntCol, parts[0]) then Reject
    else ListsVerdict(parts, INT_COLS, FLOAT_COLS, TEXT_COLS, ok)
  }

  /** The type of each of the 24 columns of `csv.cpp`. */
  function KindOf(i: nat): ColKind
  {
    if i == 0 || i == 3 || i == 5 || i == 7 || i == 8 || i == 11 || i == 12 || i == 13 then IntCol
    else if i == 9 || i == 10 || (14 <= i <= 22) then FloatCol
    else TextCol
  }

  /** Three lists that between them name every column but the first, each
      column on the list of its type. */
  predicate Layout(ints: seq<nat>, floats: seq<nat>, texts: seq<nat>)
  {
    (forall k :: 0 <= k < |ints| ==> 0 < ints[k] < CSV_FIELDS && KindOf(ints[k]) == IntCol)
    && (forall k :: 0 <= k < |floats| ==> 0 < floats[k] < CSV_FIELDS && KindOf(floats[k]) == FloatCol)
    && (forall k :: 0 <= k < |texts| ==> 0 < texts[k] < CSV_FIELDS && KindOf(texts[k]) == TextCol)
    && (forall i :: 0 < i < CSV_FIELDS && KindOf(i) == IntCol ==> i in ints)
    && (forall i :: 0 < i < CSV_FIELDS && KindOf(i) == FloatCol ==> i in floats)
    && (forall i :: 0 < i < CSV_FIELDS && KindOf(i) == TextCol ==> i in texts)
  }

  /** Every one of the 24 cells passes the test of its column's type. */
  predicate CellsOk(parts: seq<string>, ok: (ColKind, string) -> bool)
    requires |parts| == CSV_FIELDS
  {
    forall i :: 0 <= i < CSV_FIELDS ==> ok(KindOf(i), parts[i])
  }

  lemma {:induction false} CheckColsMeans(parts: seq<string>, idxs: seq<nat>, kind: ColKind, ok: (ColKind, string) -> bool)
    requires forall k :: 0 <= k < |idxs| ==> idxs[k] < |parts|
    ensures CheckCols(parts, idxs, kind, ok) != IndexError
    ensures CheckCols(parts, idxs, kind, ok) == Accept <==>
      forall k :: 0 <= k < |idxs| ==> ok(kind, parts[idxs[k]])
    decreases |idxs|
  {
    if |idxs| > 0 {
      CheckColsMeans(parts, idxs[1..], kind, ok);
      assert forall k :: 1 <= k < |idxs| ==> idxs[1..][k - 1] == idxs[k];
    }
  }

  /** Over any lists with the layout, the checks never raise on 24 cells
      and accept exactly when every cell but the first passes. */
  lemma {:induction false} ListsMeans(parts: seq<string>, ints: seq<nat>, floats: seq<nat>, texts: seq<nat>,
                                      ok: (ColKind, string) -> bool)
    requires |parts| == CSV_FIELDS && Layout(ints, floats, texts)
    ensures ListsVerdict(parts, ints, floats, texts, ok) != IndexError
    ensures ListsVerdict(parts, ints, floats, texts, ok) == Accept <==>
      forall i :: 0 < i < CSV_FIELDS ==> ok(KindOf(i), parts[i])
  {
    CheckColsMeans(parts, ints, IntCol, ok);
    CheckColsMeans(parts, floats, FloatCol, ok);
    CheckColsMeans(parts, texts, TextCol, ok);
    if ListsVerdict(parts, ints, floats, texts, ok) == Accept {
      forall i | 0 < i < CSV_FIELDS ensures ok(KindOf(i), parts[i]) {
        if KindOf(i) == IntCol {
          var k :| 0 <= k < |ints| && ints[k] == i;
        } else if KindOf(i) == FloatCol {
          var k :| 0 <= k < |floats| && floats[k] == i;
        } else {
          var k :| 0 <= k < |texts| && texts[k] == i;
        }
      }
    }
  }

  /** The lists of `_looks_like_csv` have the layout. */
  lemma ColumnsLayout()
    ensures Layout(INT_COLS, FLOAT_COLS, TEXT_COLS)
  {
    forall i | 0 < i < CSV_FIELDS
      ensures KindOf(i) == IntCol ==> i in INT_COLS
      ensures KindOf(i) == FloatCol ==> i in FLOAT_COLS
      ensures KindOf(i) == TextCol ==> i in TEXT_COLS
    {
      var k := ColPos(i);
    }
  }

  /** With the configured 24 fields the column checks never raise, and
      they accept exactly 24 cells each passing its column's test. */
  lemma {:induction false} RowVerdictMeans(parts: seq<string>, ok: (ColKind, string) -> bool)
    requires |parts| >= 1
    ensures RowVerdict(parts, CSV_FIELDS, ok) != IndexError
    ensures RowVerdict(parts, CSV_FIELDS, ok) == Accept <==> |parts| == CSV_FIELDS && CellsOk(parts, ok)
  {
    if |parts| == CSV_FIELDS {
      ColumnsLayout();
      ListsMeans(parts, INT_COLS, FLOAT_COLS, TEXT_COLS, ok);
      assert KindOf(0) == IntCol;
    }
  }

  /** With fewer than four fields, a row whose first cell passes reaches
      the first integer column, index 3, past its end: the check raises. */
  lemma {:induction false} ShortRowRaises(parts: seq<string>, fields: int, ok: (ColKind, string) -> bool)
    requires 1 <= |parts| == fields <= 3
    requires ok(IntCol, parts[0])
    ensures RowVerdict(parts, fields, ok) == IndexError
  {
    assert INT_COLS[0] == 3;
    assert CheckCols(parts, INT_COLS, IntCol, ok) == IndexError;
  }

  /** Where each column but the first stands on the list of its type. */
  function ColPos(i: nat): (k: nat)
    requires 0 < i < CSV_FIELDS
    ensures KindOf(i) == IntCol ==> k < |INT_COLS| && INT_COLS[k] == i
    ensures KindOf(i) == FloatCol ==> k < |FLOAT_COLS| && FLOAT_COLS[k] == i
    ensures KindOf(i) == TextCol ==> k < |TEXT_COLS| && TEXT_COLS[k] == i
  {
    if i == 3 then 0 else if i == 5 then 1 else if i == 7 then 2 else if i == 8 then 3
    else if i == 11 then 4 else if i == 12 then 5 else if i == 13 then 6
    else if i == 9 then 0 else if i == 10 then 1 else if 14 <= i <= 22 then i - 12
    else if i == 1 then 0 else if i == 2 then 1 else if i == 4 then 2 else if i == 6 then 3
    else 4
  }
}
