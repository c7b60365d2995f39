/**
 * The daily-bar normalisation that the US and the European sources share
 * (their `_normalize_data` bodies are the same): the date index becomes a
 * column, the Yahoo column names are lower-cased, the adjusted close replaces
 * the close, `pct_chg` and `amount` are derived, the stock code is stamped on
 * every row and the standard columns are kept in their fixed order.
 *
 * A frame is a map from column name to its cells, every column as long as the
 * index; the standard column list is a parameter.
 */
module Normalizer {
  import opened Wrappers
  import opened Numeric

  /** A frame cell: a finite number, an infinity of the given sign, a text (a date or the code) or pandas' NaN. */
  datatype Cell = Num(x: real) | Inf(positive: bool) | Text(s: string) | Missing

  /** A cell pandas computes with: a finite number or an infinity. */
  predicate IsNumber(c: Cell) {
    c.Num? || c.Inf?
  }

  /** A number above zero. */
  predicate Positive(c: Cell) {
    (c.Num? && c.x > 0.0) || (c.Inf? && c.positive)
  }

  datatype RawFrame = RawFrame(indexName: Option<string>, index: seq<Cell>, columns: map<string, seq<Cell>>)

  datatype Column = Column(name: string, cells: seq<Cell>)

  type Columns = map<string, seq<Cell>>

  predicate OfLength(m: Columns, rows: nat) {
    forall n :: n in m ==> |m[n]| == rows
  }

  /** A pandas frame: every column has one cell per index entry. */
  predicate Rectangular(f: RawFrame) {
    OfLength(f.columns, |f.index|)
  }

  function Constant(c: Cell, rows: nat): (r: seq<Cell>)
    ensures |r| == rows && forall i :: 0 <= i < rows ==> r[i] == c
  {
    seq(rows, _ => c)
  }

  // ---------------------------------------------------------------- reset_index

  /** The index is moved into the columns only when it is named `Date` or unnamed. */
  predicate ResetsIndex(f: RawFrame) {
    f.indexName == None || f.indexName == Some("Date")
  }

  /** The name `reset_index` gives the index column: its own name, else `index`, else `level_0`. */
  function IndexColumnName(f: RawFrame): string {
    if f.indexName.Some? then f.indexName.value
    else if "index" in f.columns then "level_0"
    else "index"
  }

  /** `reset_index` raises `ValueError` when the name it gives the index is already a column. */
  predicate ResetIndexRaises(f: RawFrame) {
    ResetsIndex(f) && IndexColumnName(f) in f.columns
  }

  /**
   * The frames `reset_index` refuses: a `Date` index beside a `Date` column, or
   * an unnamed index when both `index` and `level_0` are columns already.
   */
  lemma ResetIndexRaisesWhen(f: RawFrame)
    ensures ResetIndexRaises(f) <==>
      (f.indexName == Some("Date") && "Date" in f.columns)
      || (f.indexName == None && "index" in f.columns && "level_0" in f.columns)
  {
  }

  function ResetIndex(f: RawFrame): Columns {
    if ResetsIndex(f) then f.columns[IndexColumnName(f) := f.index] else f.columns
  }

  lemma ResetIndexOfLength(f: RawFrame)
    requires Rectangular(f)
    ensures OfLength(ResetIndex(f), |f.index|)
  {
  }

  // ---------------------------------------------------------------- renaming

  /** The Yahoo names and their standard replacements, in the order they are applied. */
  const Renames: seq<(string, string)> := [
    ("Date", "date"), ("Open", "open"), ("High", "high"), ("Low", "low"),
    ("Close", "close"), ("Volume", "volume"), ("Adj Close", "adj_close")]

  /** `df.rename(columns={old: new})` when `old` is a column. */
  function Rename(m: Columns, oldName: string, newName: string): Columns {
    if oldName in m then (m - {oldName})[newName := m[oldName]] else m
  }

  function RenameAll(m: Columns, rs: seq<(string, string)>): Columns
    decreases |rs|
  {
    if |rs| == 0 then m else RenameAll(Rename(m, rs[0].0, rs[0].1), rs[1..])
  }

  /** Old names are distinct, new names are distinct, and no new name is also an old one. */
  predicate RenameTable(rs: seq<(string, string)>) {
    (forall j, k :: 0 <= j < k < |rs| ==> rs[j].0 != rs[k].0 && rs[j].1 != rs[k].1)
    && (forall j, k :: 0 <= j < |rs| && 0 <= k < |rs| ==> rs[j].0 != rs[k].1)
  }

  /**
   * No column is present under both an old name and its new name: pandas would
   * then hold two columns of one name, which this model does not represent.
   */
  predicate NoClash(m: Columns, rs: seq<(string, string)>) {
    forall j :: 0 <= j < |rs| ==> !(rs[j].0 in m && rs[j].1 in m)
  }

  predicate Untouched(n: string, rs: seq<(string, string)>) {
    forall j :: 0 <= j < |rs| ==> n != rs[j].0 && n != rs[j].1
  }

  /** Names told apart by their first letters form a rename table. */
  lemma RenameTableByInitials(rs: seq<(string, string)>, olds: string, news: string)
    requires |olds| == |rs| && |news| == |rs|
    requires forall j :: 0 <= j < |rs| ==>
      |rs[j].0| > 0 && |rs[j].1| > 0 && rs[j].0[0] == olds[j] && rs[j].1[0] == news[j]
    requires forall j, k :: 0 <= j < k < |rs| ==> olds[j] != olds[k] && news[j] != news[k]
    requires forall k :: 0 <= k < |rs| ==> 'A' <= olds[k] <= 'Z' && 'a' <= news[k] <= 'z'
    ensures RenameTable(rs)
  {
    forall j, k | 0 <= j < |rs| && 0 <= k < |rs|
      ensures rs[j].0 != rs[k].1
    {
      assert rs[j].0[0] == olds[j] != news[k] == rs[k].1[0];
    }
  }

  /** The rename table is well formed: the names differ already in their first letters. */
  lemma RenamesIsRenameTable()
    ensures RenameTable(Renames)
  {
    RenameTableByInitials(Renames, "DOHLCVA", "dohlcva");
  }

  lemma {:induction false} RenameAllOfLength(m: Columns, rs: seq<(string, string)>, rows: nat)
    requires OfLength(m, rows)
    ensures OfLength(RenameAll(m, rs), rows)
    decreases |rs|
  {
    if |rs| > 0 {
      RenameAllOfLength(Rename(m, rs[0].0, rs[0].1), rs[1..], rows);
    }
  }

  /** A column named neither by an old nor by a new name passes through unchanged. */
  lemma {:induction false} RenameAllOther(m: Columns, rs: seq<(string, string)>, n: string)
    requires Untouched(n, rs)
    ensures n in RenameAll(m, rs) <==> n in m
    ensures n in m ==> RenameAll(m, rs)[n] == m[n]
    decreases |rs|
  {
    if |rs| > 0 {
      RenameAllOther(Rename(m, rs[0].0, rs[0].1), rs[1..], n);
    }
  }

  /** After renaming, a new name holds the old column if there was one, else its own former column. */
  lemma {:induction false} RenameAllLookup(m: Columns, rs: seq<(string, string)>, i: nat)
    requires RenameTable(rs) && NoClash(m, rs) && i < |rs|
    ensures rs[i].1 in RenameAll(m, rs) <==> rs[i].0 in m || rs[i].1 in m
    ensures rs[i].1 in RenameAll(m, rs) ==>
      RenameAll(m, rs)[rs[i].1] == if rs[i].0 in m then m[rs[i].0] else m[rs[i].1]
    decreases |rs|
  {
    var m1 := Rename(m, rs[0].0, rs[0].1);
    var tail := rs[1..];
    assert RenameAll(m, rs) == RenameAll(m1, tail);
    if i == 0 {
      assert Untouched(rs[0].1, tail) by {
        forall j | 0 <= j < |tail|
          ensures rs[0].1 != tail[j].0 && rs[0].1 != tail[j].1
        {
          assert tail[j] == rs[j + 1];
        }
      }
      RenameAllOther(m1, tail, rs[0].1);
    } else {
      assert rs[i] == tail[i - 1];
      assert rs[i].0 != rs[0].0 && rs[i].0 != rs[0].1 && rs[i].1 != rs[0].0 && rs[i].1 != rs[0].1;
      assert RenameTable(tail) by {
        forall j, k | 0 <= j < |tail| && 0 <= k < |tail|
          ensures tail[j].0 != tail[k].1
          ensures j < k ==> tail[j].0 != tail[k].0 && tail[j].1 != tail[k].1
        {
          assert tail[j] == rs[j + 1] && tail[k] == rs[k + 1];
        }
      }
      assert NoClash(m1, tail) by {
        forall j | 0 <= j < |tail|
          ensures !(tail[j].0 in m1 && tail[j].1 in m1)
        {
          assert tail[j] == rs[j + 1];
        }
      }
      RenameAllLookup(m1, tail, i - 1);
    }
  }

  // ---------------------------------------------------------------- derived columns

  /**
   * pandas' forward fill, which `pct_change` applies first under its default
   * `fill_method='pad'`: a missing cell takes the value of the cell above it,
   * so only a leading run of missing cells stays missing.
   */
  function ForwardFill(cells: seq<Cell>): (r: seq<Cell>)
    ensures |r| == |cells|
    ensures forall i :: 0 <= i < |cells| && !cells[i].Missing? ==> r[i] == cells[i]
    ensures forall i {:trigger cells[i]} :: 0 <= i < |cells| && cells[i].Missing? ==>
      r[i] == if i == 0 then Missing else r[i - 1]
    decreases |cells|
  {
    if |cells| == 0 then []
    else
      var n := |cells| - 1;
      var init := ForwardFill(cells[..n]);
      assert forall i :: 0 <= i < n ==> cells[..n][i] == cells[i];
      init + [if cells[n].Missing? && n > 0 then init[n - 1] else cells[n]]
  }

  /** A forward-filled cell is missing only when every cell up to it is. */
  lemma {:induction false} ForwardFillLeavesOnlyLeadingGaps(cells: seq<Cell>, i: nat)
    requires i < |cells| && ForwardFill(cells)[i].Missing?
    ensures forall j :: 0 <= j <= i ==> cells[j].Missing?
  {
    assert cells[i].Missing?;
    if i > 0 {
      ForwardFillLeavesOnlyLeadingGaps(cells, i - 1);
    }
  }

  /**
   * One `pct_chg` cell from two forward-filled neighbours: `(cur / prev - 1) * 100`
   * in floating point, NaN filled with 0 and rounded to two decimals. A zero
   * previous close gives an infinity (which `fillna` keeps) unless the close is
   * zero too (0 / 0 is NaN); a change from an infinity is a fall of 100%.
   */
  function PctCell(prev: Cell, cur: Cell): (r: Cell)
    ensures IsNumber(r)
    ensures prev.Num? && cur.Num? && prev.x != 0.0 ==>
      r.Num? && Abs(r.x - (cur.x / prev.x - 1.0) * 100.0) <= 0.005 && (r.x * 100.0).Floor as real == r.x * 100.0
    ensures prev.Num? && cur.Num? && prev.x == 0.0 ==> r == if cur.x == 0.0 then Num(0.0) else Inf(cur.x > 0.0)
    ensures r.Inf? ==> prev.Num? && IsNumber(cur) && cur != Num(0.0) && r.positive == (Positive(cur) == (prev.x >= 0.0))
    ensures !IsNumber(prev) || !IsNumber(cur) ==> r == Num(0.0)
  {
    match (prev, cur)
    case (Num(p), Num(c)) =>
      if p != 0.0 then Num(Round2((c / p - 1.0) * 100.0))
      else if c == 0.0 then Num(0.0)
      else Inf(c > 0.0)
    case (Num(p), Inf(positive)) => Inf(if p < 0.0 then !positive else positive)
    case (Inf(_), Num(_)) => Num(-100.0)
    case _ => Num(0.0)
  }

  /** An unchanged close is a change of 0, whatever the cell. */
  lemma PctCellOfUnchanged(c: Cell)
    ensures PctCell(c, c) == Num(0.0)
  {
    if c.Num? && c.x != 0.0 {
      assert c.x / c.x - 1.0 == 0.0;
      Round2OfZero();
    }
  }

  /** The `pct_chg` column of a close column: 0 in the first row, then the change from the filled close above. */
  function PctColumn(close: seq<Cell>): (r: seq<Cell>)
    ensures |r| == |close|
    ensures |close| > 0 ==> r[0] == Num(0.0)
    ensures forall i :: 0 < i < |close| ==> r[i] == PctCell(ForwardFill(close)[i - 1], ForwardFill(close)[i])
  {
    var filled := ForwardFill(close);
    seq(|close|, i requires 0 <= i < |close| => if i == 0 then Num(0.0) else PctCell(filled[i - 1], filled[i]))
  }

  /** Between two present closes, `pct_chg` is the change from the one to the other. */
  lemma PctColumnOfPresent(close: seq<Cell>, i: nat)
    requires 0 < i < |close| && !close[i - 1].Missing? && !close[i].Missing?
    ensures PctColumn(close)[i] == PctCell(close[i - 1], close[i])
  {
  }

  /** A missing close is filled from the row above, so its `pct_chg` is 0. */
  lemma PctColumnOfMissing(close: seq<Cell>, i: nat)
    requires 0 < i < |close| && close[i].Missing?
    ensures PctColumn(close)[i] == Num(0.0)
  {
    PctCellOfUnchanged(ForwardFill(close)[i]);
  }

  /**
   * After a run of missing closes, `pct_chg` compares with the last close
   * before the run.
   */
  lemma {:induction false} PctColumnAfterGap(close: seq<Cell>, j: nat, i: nat)
    requires j < i < |close| && !close[j].Missing? && !close[i].Missing?
    requires forall k :: j < k < i ==> close[k].Missing?
    ensures PctColumn(close)[i] == PctCell(close[j], close[i])
  {
    FilledThroughGap(close, j, i - 1);
  }

  lemma {:induction false} FilledThroughGap(close: seq<Cell>, j: nat, k: nat)
    requires j <= k < |close| && !close[j].Missing?
    requires forall m :: j < m <= k ==> close[m].Missing?
    ensures ForwardFill(close)[k] == close[j]
    decreases k - j
  {
    if k > j {
      FilledThroughGap(close, j, k - 1);
    }
  }

  /**
   * One `amount` cell: `volume * close` in floating point. Two finite numbers
   * multiply; an infinity times a non-zero number is an infinity whose sign is
   * the product of the signs; an infinity times zero, and anything involving a
   * non-number, is NaN.
   */
  function AmountCell(volume: Cell, close: Cell): (r: Cell)
    ensures volume.Num? && close.Num? ==> r == Num(volume.x * close.x)
    ensures r.Inf? <==> (volume.Inf? || close.Inf?) && IsNumber(volume) && IsNumber(close)
                        && volume != Num(0.0) && close != Num(0.0)
    ensures r.Inf? ==> r.positive == (Positive(volume) == Positive(close))
    ensures !r.Num? && !r.Inf? ==> r == Missing
  {
    if volume.Num? && close.Num? then Num(volume.x * close.x)
    else if !IsNumber(volume) || !IsNumber(close) || volume == Num(0.0) || close == Num(0.0) then Missing
    else Inf(Positive(volume) == Positive(close))
  }

  /** `volume * close`, row by row. */
  function Product(volume: seq<Cell>, close: seq<Cell>): (r: seq<Cell>)
    requires |volume| == |close|
    ensures |r| == |close| && forall i :: 0 <= i < |r| ==> r[i] == AmountCell(volume[i], close[i])
  {
    seq(|close|, i requires 0 <= i < |close| => AmountCell(volume[i], close[i]))
  }

  /** The frame's columns after renaming, before the derived columns are added. */
  function Renamed(f: RawFrame): Columns {
    RenameAll(ResetIndex(f), Renames)
  }

  /** `close`, replaced by `adj_close` when that column exists. */
  function WithClose(m: Columns): Columns {
    if "adj_close" in m then m["close" := m["adj_close"]] else m
  }

  /** The frame just before the standard columns are selected. */
  function Working(f: RawFrame, stockCode: string): Columns
    requires Rectangular(f)
  {
    var rows := |f.index|;
    var m0 := Renamed(f);
    ResetIndexOfLength(f);
    RenameAllOfLength(ResetIndex(f), Renames, rows);
    var m1 := WithClose(m0);
    var m2 := if "close" in m1 then m1["pct_chg" := PctColumn(m1["close"])] else m1;
    var m3 := m2["amount" := if "volume" in m2 && "close" in m2 then Product(m2["volume"], m2["close"])
                             else Constant(Num(0.0), rows)];
    m3["code" := Constant(Text(stockCode), rows)]
  }

  // ---------------------------------------------------------------- selection

  /** `df[[c for c in keep if c in df.columns]]`. */
  function Select(m: Columns, keep: seq<string>): (r: seq<Column>)
    ensures |r| <= |keep|
    ensures forall k :: 0 <= k < |r| ==> r[k].name in keep && r[k].name in m && r[k].cells == m[r[k].name]
  {
    if |keep| == 0 then []
    else
      var rest := Select(m, keep[1..]);
      assert forall n :: n in keep[1..] ==> n in keep;
      (if keep[0] in m then [Column(keep[0], m[keep[0]])] else []) + rest
  }

  /** Every wanted column that exists is selected. */
  lemma {:induction false} SelectCovers(m: Columns, keep: seq<string>, n: string)
    requires n in keep && n in m
    ensures exists k :: 0 <= k < |Select(m, keep)| && Select(m, keep)[k].name == n
    decreases |keep|
  {
    if keep[0] == n {
      assert Select(m, keep)[0].name == n;
    } else {
      assert n in keep[1..];
      SelectCovers(m, keep[1..], n);
      var rest := Select(m, keep[1..]);
      var k :| 0 <= k < |rest| && rest[k].name == n;
      var head := if keep[0] in m then [Column(keep[0], m[keep[0]])] else [];
      assert Select(m, keep) == head + rest;
      assert Select(m, keep)[|head| + k].name == n;
    }
  }

  /** Selection distributes over concatenation, so the selected columns keep the keep list's order. */
  lemma {:induction false} SelectAppend(m: Columns, k1: seq<string>, k2: seq<string>)
    ensures Select(m, k1 + k2) == Select(m, k1) + Select(m, k2)
    decreases |k1|
  {
    if |k1| > 0 {
      var head := if k1[0] in m then [Column(k1[0], m[k1[0]])] else [];
      assert (k1 + k2)[0] == k1[0];
      assert (k1 + k2)[1..] == k1[1..] + k2;
      assert Select(m, k1 + k2) == head + Select(m, k1[1..] + k2);
      assert Select(m, k1) == head + Select(m, k1[1..]);
      SelectAppend(m, k1[1..], k2);
    } else {
      assert k1 + k2 == k2;
    }
  }

  /** A frame `_normalize_data` normalises without raising, and with no column under two names. */
  predicate Normalizable(f: RawFrame) {
    Rectangular(f)
    && !ResetIndexRaises(f)
    && NoClash(ResetIndex(f), Renames)
  }

  /** `_normalize_data(df, stock_code)`, with `STANDARD_COLUMNS` as `standard`. */
  function NormalizeData(f: RawFrame, stockCode: string, standard: seq<string>): (r: seq<Column>)
    requires Normalizable(f)
    ensures |r| > 0 && r[0] == Column("code", Constant(Text(stockCode), |f.index|))
    ensures forall k :: 0 <= k < |r| ==> |r[k].cells| == |f.index|
    ensures forall k :: 0 <= k < |r| ==> r[k].name in ["code"] + standard
    ensures forall k :: 0 <= k < |r| ==>
      r[k].name in Working(f, stockCode) && r[k].cells == Working(f, stockCode)[r[k].name]
  {
    var w := Working(f, stockCode);
    assert OfLength(w, |f.index|) by {
      ResetIndexOfLength(f);
      RenameAllOfLength(ResetIndex(f), Renames, |f.index|);
    }
    Select(w, ["code"] + standard)
  }

  /** The message of the `ValueError` that `reset_index` raises on a taken name. */
  function ResetIndexError(f: RawFrame): string {
    "cannot insert " + IndexColumnName(f) + ", already exists"
  }

  /**
   * `_normalize_data` on any frame without a doubly named column: it raises
   * when `reset_index` does, and otherwise gives the normalised columns.
   */
  function NormalizeFrame(f: RawFrame, stockCode: string, standard: seq<string>): (r: Result<seq<Column>, string>)
    requires Rectangular(f) && (ResetIndexRaises(f) || NoClash(ResetIndex(f), Renames))
    ensures r.Failure? <==> ResetIndexRaises(f)
    ensures r.Failure? ==> r.error == ResetIndexError(f)
    ensures r.Success? ==> Normalizable(f) && r.value == NormalizeData(f, stockCode, standard)
  {
    if ResetIndexRaises(f) then Failure(ResetIndexError(f)) else Success(NormalizeData(f, stockCode, standard))
  }

  // ---------------------------------------------------------------- what the columns hold

  /** A standard column's source: its Yahoo name if present, else its own name. */
  function Source(m: Columns, yahoo: string, standard: string): Option<seq<Cell>> {
    if yahoo in m then Some(m[yahoo]) else if standard in m then Some(m[standard]) else None
  }

  /** The close the derived columns use: the adjusted close if there is one, else the close. */
  function EffectiveClose(f: RawFrame): Option<seq<Cell>> {
    var m := ResetIndex(f);
    var adj := Source(m, "Adj Close", "adj_close");
    if adj.Some? then adj else Source(m, "Close", "close")
  }

  lemma RenamedLookup(f: RawFrame, i: nat)
    requires Normalizable(f) && i < |Renames|
    ensures Renames[i].1 in Renamed(f) <==> Source(ResetIndex(f), Renames[i].0, Renames[i].1).Some?
    ensures Renames[i].1 in Renamed(f) ==> Renamed(f)[Renames[i].1] == Source(ResetIndex(f), Renames[i].0, Renames[i].1).value
  {
    RenamesIsRenameTable();
    RenameAllLookup(ResetIndex(f), Renames, i);
  }

  /** `close` exists exactly when some close does, and holds the adjusted close when there is one. */
  lemma NormalizedClose(f: RawFrame, stockCode: string)
    requires Normalizable(f)
    ensures "close" in Working(f, stockCode) <==> EffectiveClose(f).Some?
    ensures EffectiveClose(f).Some? ==> Working(f, stockCode)["close"] == EffectiveClose(f).value
  {
    RenamedLookup(f, 4);
    RenamedLookup(f, 6);
  }

  /** With a close, `pct_chg` starts at 0 and is the rounded percentage change of the close after that. */
  lemma NormalizedPctChg(f: RawFrame, stockCode: string)
    requires Normalizable(f) && EffectiveClose(f).Some?
    ensures "pct_chg" in Working(f, stockCode)
    ensures Working(f, stockCode)["pct_chg"] == PctColumn(EffectiveClose(f).value)
  {
    NormalizedClose(f, stockCode);
  }

  /** `amount` is volume times close when both exist, and all zeros otherwise. */
  lemma NormalizedAmount(f: RawFrame, stockCode: string)
    requires Normalizable(f)
    ensures "amount" in Working(f, stockCode)
    ensures var v := Source(ResetIndex(f), "Volume", "volume");
      var c := EffectiveClose(f);
      Working(f, stockCode)["amount"]
        == if v.Some? && c.Some? then Product(v.value, c.value) else Constant(Num(0.0), |f.index|)
  {
    NormalizedClose(f, stockCode);
    RenamedLookup(f, 5);
    ResetIndexOfLength(f);
    RenameAllOfLength(ResetIndex(f), Renames, |f.index|);
  }

  /** An index named `Date` ends up as the `date` column. */
  lemma NormalizedDate(f: RawFrame, stockCode: string)
    requires Normalizable(f) && f.indexName == Some("Date")
    ensures "date" in Working(f, stockCode) && Working(f, stockCode)["date"] == f.index
  {
    RenamedLookup(f, 0);
  }
}
