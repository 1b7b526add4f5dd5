/** Tables as the modelled code uses them: column labels, a row index and rows
    of opaque cells, with the positional and label selections and the row and
    column concatenations that the ensemble calls. */
module Frames {
  import opened Outcomes

  /** A cell is never inspected; `NaN` is what a concatenation writes where a
      block has no value. */
  datatype Cell = Value(code: int) | NaN

  /** A column label: class labels and positions are integers, renamed columns strings. */
  datatype Label = IntLabel(i: int) | StrLabel(s: string)

  datatype Frame = Frame(columns: seq<Label>, index: seq<int>, rows: seq<seq<Cell>>)

  predicate Distinct<T(==)>(s: seq<T>) {
    forall i, j | 0 <= i < j < |s| :: s[i] != s[j]
  }

  /** One index label per row, one cell per column in every row, and no column
      label twice (a table with a woodwork schema never has duplicate names). */
  predicate WellFormed(f: Frame) {
    && |f.index| == |f.rows|
    && Distinct(f.columns)
    && forall k | 0 <= k < |f.rows| :: |f.rows[k]| == |f.columns|
  }

  type Table = f: Frame | WellFormed(f) witness Frame([], [], [])

  /** A label series: integer class labels with their index. */
  datatype SeriesData = SeriesData(index: seq<int>, values: seq<int>)

  type Series = s: SeriesData | |s.index| == |s.values| witness SeriesData([], [])

  // ---------------------------------------------------------------------------
  // Positional selection (`.iloc`)
  // ---------------------------------------------------------------------------

  /** The positions `.iloc` accepts on `n` rows; a negative one counts from the end. */
  predicate InBounds(ps: seq<int>, n: nat) {
    forall k | 0 <= k < |ps| :: -(n as int) <= ps[k] < n
  }

  function Normalize(p: int, n: nat): (q: nat)
    requires -(n as int) <= p < n
    ensures q < n
  {
    if p < 0 then p + n else p
  }

  function Pick<T>(s: seq<T>, ps: seq<int>): (r: seq<T>)
    requires InBounds(ps, |s|)
    ensures |r| == |ps|
  {
    seq(|ps|, k requires 0 <= k < |ps| => s[Normalize(ps[k], |s|)])
  }

  const OutOfBounds := "positional indexers are out-of-bounds"

  /** `t.ww.iloc[ps]`. */
  function ILoc(t: Table, ps: seq<int>): (r: Result<Table>)
    ensures r.Ok? <==> InBounds(ps, |t.rows|)
    ensures r.Err? ==> r.error == IndexError(OutOfBounds)
    ensures r.Ok? ==> r.value.columns == t.columns && |r.value.rows| == |ps|
  {
    if InBounds(ps, |t.rows|) then
      Ok(Frame(t.columns, Pick(t.index, ps), Pick(t.rows, ps)))
    else
      Err(IndexError(OutOfBounds))
  }

  /** `y.ww.iloc[ps]`. */
  function ILocSeries(y: Series, ps: seq<int>): (r: Result<Series>)
    ensures r.Ok? <==> InBounds(ps, |y.values|)
    ensures r.Err? ==> r.error == IndexError(OutOfBounds)
    ensures r.Ok? ==> |r.value.values| == |ps|
  {
    if InBounds(ps, |y.values|) then
      Ok(SeriesData(Pick(y.index, ps), Pick(y.values, ps)))
    else
      Err(IndexError(OutOfBounds))
  }

  // ---------------------------------------------------------------------------
  // Label selection (`.loc`)
  // ---------------------------------------------------------------------------

  /** The positions whose index label is `l`, in order. */
  function PositionsOf(index: seq<int>, l: int): (ps: seq<int>)
    ensures forall k | 0 <= k < |ps| :: 0 <= ps[k] < |index| && index[ps[k]] == l
    decreases |index|
  {
    if index == [] then []
    else
      var n := |index| - 1;
      PositionsOf(index[..n], l) + (if index[n] == l then [n] else [])
  }

  /** The positions `.loc[labels]` selects: every row of each label, label by label. */
  function LocPositions(index: seq<int>, labels: seq<int>): (ps: seq<int>)
    ensures forall k | 0 <= k < |ps| :: 0 <= ps[k] < |index|
    decreases |labels|
  {
    if labels == [] then []
    else LocPositions(index, labels[..|labels| - 1]) + PositionsOf(index, labels[|labels| - 1])
  }

  const NotInIndex := "labels not in index"

  /** `t.loc[labels]`: raises KeyError when a label is not in the index. */
  function Loc(t: Table, labels: seq<int>): (r: Result<Table>)
    ensures r.Ok? <==> forall k | 0 <= k < |labels| :: labels[k] in t.index
    ensures r.Err? ==> r.error == KeyError(NotInIndex)
    ensures r.Ok? ==> r.value.columns == t.columns
  {
    if forall k | 0 <= k < |labels| :: labels[k] in t.index then
      var ps := LocPositions(t.index, labels);
      Ok(Frame(t.columns, Pick(t.index, ps), Pick(t.rows, ps)))
    else
      Err(KeyError(NotInIndex))
  }

  lemma {:induction false} PositionsOfAbsent(index: seq<int>, l: int)
    requires l !in index
    ensures PositionsOf(index, l) == []
    decreases |index|
  {
    if index != [] {
      PositionsOfAbsent(index[..|index| - 1], l);
    }
  }

  lemma {:induction false} PositionsOfUnique(index: seq<int>, l: int)
    requires Distinct(index) && l in index
    ensures |PositionsOf(index, l)| == 1
    decreases |index|
  {
    var n := |index| - 1;
    if index[n] == l {
      assert l !in index[..n];
      PositionsOfAbsent(index[..n], l);
    } else {
      assert l in index[..n] by {
        var j :| 0 <= j < |index| && index[j] == l;
        assert j < n && index[..n][j] == l;
      }
      PositionsOfUnique(index[..n], l);
    }
  }

  /** When every label has exactly one row, `.loc` picks that row for each label. */
  lemma {:induction false} LocPositionsOfSingles(index: seq<int>, labels: seq<int>)
    requires forall k | 0 <= k < |labels| :: |PositionsOf(index, labels[k])| == 1
    ensures |LocPositions(index, labels)| == |labels|
    ensures forall k | 0 <= k < |labels| :: LocPositions(index, labels)[k] == PositionsOf(index, labels[k])[0]
    decreases |labels|
  {
    if labels != [] {
      var n := |labels| - 1;
      var init := labels[..n];
      assert forall k | 0 <= k < n :: init[k] == labels[k];
      LocPositionsOfSingles(index, init);
    }
  }

  lemma LocPositionsUnique(index: seq<int>, labels: seq<int>)
    requires Distinct(index)
    requires forall k | 0 <= k < |labels| :: labels[k] in index
    ensures |LocPositions(index, labels)| == |labels|
    ensures forall k | 0 <= k < |labels| :: index[LocPositions(index, labels)[k]] == labels[k]
  {
    forall k | 0 <= k < |labels|
      ensures |PositionsOf(index, labels[k])| == 1
    {
      PositionsOfUnique(index, labels[k]);
    }
    LocPositionsOfSingles(index, labels);
  }

  /** On an index without repeats, `.loc[labels]` yields one row per label, in
      the labels' order, each the row carrying that label. */
  lemma LocAlignsToLabels(t: Table, labels: seq<int>)
    requires Distinct(t.index)
    requires forall k | 0 <= k < |labels| :: labels[k] in t.index
    ensures Loc(t, labels).Ok?
    ensures Loc(t, labels).value.index == labels
    ensures Loc(t, labels).value.columns == t.columns
  {
    var ps := LocPositions(t.index, labels);
    LocPositionsUnique(t.index, labels);
    assert Pick(t.index, ps) == labels;
  }

  // ---------------------------------------------------------------------------
  // Stacking row blocks (`pd.concat(ts)`)
  // ---------------------------------------------------------------------------

  const NothingToConcatenate := "No objects to concatenate"

  /** `cs` followed by the labels of `xs` it lacks, in order of first appearance. */
  function AddNew(cs: seq<Label>, xs: seq<Label>): (r: seq<Label>)
    requires Distinct(cs)
    ensures Distinct(r) && |cs| <= |r| && r[..|cs|] == cs
    ensures forall x :: x in r <==> x in cs || x in xs
    decreases |xs|
  {
    if xs == [] then cs
    else AddNew(if xs[0] in cs then cs else cs + [xs[0]], xs[1..])
  }

  /** The columns of the stacked table: the union of the blocks' columns. */
  function UnionColumns(ts: seq<Table>): (cs: seq<Label>)
    ensures Distinct(cs)
    decreases |ts|
  {
    if ts == [] then [] else AddNew(UnionColumns(ts[..|ts| - 1]), ts[|ts| - 1].columns)
  }

  function IndexOf<T(==)>(s: seq<T>, x: T): (k: nat)
    requires x in s
    ensures k < |s| && s[k] == x
  {
    if s[0] == x then 0 else 1 + IndexOf(s[1..], x)
  }

  /** A row of a block with columns `from`, laid out on the columns `to`. */
  function Relay(row: seq<Cell>, from: seq<Label>, to: seq<Label>): (r: seq<Cell>)
    requires |row| == |from|
    ensures |r| == |to|
  {
    seq(|to|, j requires 0 <= j < |to| => if to[j] in from then row[IndexOf(from, to[j])] else NaN)
  }

  function TotalRows(ts: seq<Table>): nat
    decreases |ts|
  {
    if ts == [] then 0 else TotalRows(ts[..|ts| - 1]) + |ts[|ts| - 1].rows|
  }

  function StackIndex(ts: seq<Table>): (ix: seq<int>)
    ensures |ix| == TotalRows(ts)
    decreases |ts|
  {
    if ts == [] then [] else StackIndex(ts[..|ts| - 1]) + ts[|ts| - 1].index
  }

  function StackRows(ts: seq<Table>, cs: seq<Label>): (rows: seq<seq<Cell>>)
    ensures |rows| == TotalRows(ts)
    ensures forall k | 0 <= k < |rows| :: |rows[k]| == |cs|
    decreases |ts|
  {
    if ts == [] then []
    else
      var last := ts[|ts| - 1];
      StackRows(ts[..|ts| - 1], cs)
        + seq(|last.rows|, k requires 0 <= k < |last.rows| => Relay(last.rows[k], last.columns, cs))
  }

  /** The blocks' rows one after the other, unchanged. */
  function PlainRows(ts: seq<Table>): seq<seq<Cell>>
    decreases |ts|
  {
    if ts == [] then [] else PlainRows(ts[..|ts| - 1]) + ts[|ts| - 1].rows
  }

  /** `pd.concat(ts)`: the blocks stacked in order; columns a block lacks are NaN. */
  function ConcatRows(ts: seq<Table>): (r: Result<Table>)
    ensures r.Err? <==> ts == []
    ensures r.Err? ==> r.error == ValueError(NothingToConcatenate)
    ensures r.Ok? ==> |r.value.rows| == TotalRows(ts) && r.value.index == StackIndex(ts)
  {
    if ts == [] then Err(ValueError(NothingToConcatenate))
    else
      var cs := UnionColumns(ts);
      Ok(Frame(cs, StackIndex(ts), StackRows(ts, cs)))
  }

  lemma {:induction false} AddNewKnown(cs: seq<Label>, xs: seq<Label>)
    requires Distinct(cs)
    requires forall x | x in xs :: x in cs
    ensures AddNew(cs, xs) == cs
    decreases |xs|
  {
    if xs != [] {
      AddNewKnown(cs, xs[1..]);
    }
  }

  lemma {:induction false} UnionOfEqualColumns(ts: seq<Table>, cs: seq<Label>)
    requires ts != []
    requires forall i | 0 <= i < |ts| :: ts[i].columns == cs
    ensures UnionColumns(ts) == cs
    decreases |ts|
  {
    var n := |ts| - 1;
    if n == 0 {
      assert ts[..n] == [];
      AddNewKnown([], []);
      assert AddNew([], cs) == cs by { AddNewFresh(cs); }
    } else {
      UnionOfEqualColumns(ts[..n], cs);
      AddNewKnown(cs, cs);
    }
  }

  lemma {:induction false} AddNewFresh(cs: seq<Label>)
    requires Distinct(cs)
    ensures AddNew([], cs) == cs
  {
    AddNewFreshFrom(cs, 0);
  }

  lemma {:induction false} AddNewFreshFrom(cs: seq<Label>, k: nat)
    requires Distinct(cs) && k <= |cs|
    ensures AddNew(cs[..k], cs[k..]) == cs
    decreases |cs| - k
  {
    if k == |cs| {
      assert cs[..k] == cs;
    } else {
      assert cs[k..][0] == cs[k] && cs[k..][1..] == cs[k + 1..];
      assert cs[k] !in cs[..k];
      assert cs[..k] + [cs[k]] == cs[..k + 1];
      AddNewFreshFrom(cs, k + 1);
    }
  }

  lemma RelayIdentity(row: seq<Cell>, cs: seq<Label>)
    requires |row| == |cs| && Distinct(cs)
    ensures Relay(row, cs, cs) == row
  {
    forall j | 0 <= j < |cs|
      ensures Relay(row, cs, cs)[j] == row[j]
    {
      var k := IndexOf(cs, cs[j]);
      assert k == j;
    }
  }

  lemma {:induction false} StackRowsPlain(ts: seq<Table>, cs: seq<Label>)
    requires Distinct(cs)
    requires forall i | 0 <= i < |ts| :: ts[i].columns == cs
    ensures StackRows(ts, cs) == PlainRows(ts)
    decreases |ts|
  {
    if ts != [] {
      var n := |ts| - 1;
      var last := ts[n];
      StackRowsPlain(ts[..n], cs);
      forall k | 0 <= k < |last.rows|
        ensures Relay(last.rows[k], last.columns, cs) == last.rows[k]
      {
        RelayIdentity(last.rows[k], cs);
      }
    }
  }

  /** Blocks that share their columns stack without NaN filling: the result has
      those columns and the blocks' rows and index labels in block order. */
  lemma ConcatRowsSameColumns(ts: seq<Table>, cs: seq<Label>)
    requires ts != []
    requires forall i | 0 <= i < |ts| :: ts[i].columns == cs
    ensures ConcatRows(ts).Ok?
    ensures ConcatRows(ts).value == Frame(cs, StackIndex(ts), PlainRows(ts))
  {
    UnionOfEqualColumns(ts, cs);
    assert Distinct(ts[0].columns);
    StackRowsPlain(ts, cs);
  }

  /** `pd.concat(ys)` on label series. */
  function StackValues(ys: seq<Series>): (vs: seq<int>)
    decreases |ys|
  {
    if ys == [] then [] else StackValues(ys[..|ys| - 1]) + ys[|ys| - 1].values
  }

  function StackSeriesIndex(ys: seq<Series>): (ix: seq<int>)
    ensures |ix| == |StackValues(ys)|
    decreases |ys|
  {
    if ys == [] then [] else StackSeriesIndex(ys[..|ys| - 1]) + ys[|ys| - 1].index
  }

  function ConcatSeries(ys: seq<Series>): (r: Result<Series>)
    ensures r.Err? <==> ys == []
    ensures r.Err? ==> r.error == ValueError(NothingToConcatenate)
  {
    if ys == [] then Err(ValueError(NothingToConcatenate))
    else Ok(SeriesData(StackSeriesIndex(ys), StackValues(ys)))
  }

  // ---------------------------------------------------------------------------
  // Joining column blocks (`ww.concat_columns(ts)`)
  // ---------------------------------------------------------------------------

  const DuplicateColumn := "Duplicate column has been found in more than one input object."

  function AllColumns(ts: seq<Table>): seq<Label>
    decreases |ts|
  {
    if ts == [] then [] else AllColumns(ts[..|ts| - 1]) + ts[|ts| - 1].columns
  }

  /** Row `k` of a block, or NaN throughout when the block is shorter. */
  function RowAt(t: Table, k: nat): (row: seq<Cell>)
    ensures |row| == |t.columns|
  {
    if k < |t.rows| then t.rows[k] else seq(|t.columns|, _ => NaN)
  }

  function JoinRow(ts: seq<Table>, k: nat): (row: seq<Cell>)
    ensures |row| == |AllColumns(ts)|
    decreases |ts|
  {
    if ts == [] then [] else JoinRow(ts[..|ts| - 1], k) + RowAt(ts[|ts| - 1], k)
  }

  /** `ww.concat_columns(ts)`: the blocks side by side, in order, on the first
      block's index; a label in two blocks raises ValueError. */
  function ConcatColumns(ts: seq<Table>): (r: Result<Table>)
    ensures r.Ok? <==> ts != [] && Distinct(AllColumns(ts))
    ensures r.Err? ==> r.error == ValueError(if ts == [] then NothingToConcatenate else DuplicateColumn)
    ensures r.Ok? ==> r.value.columns == AllColumns(ts) && r.value.index == ts[0].index
  {
    if ts == [] then Err(ValueError(NothingToConcatenate))
    else if !Distinct(AllColumns(ts)) then Err(ValueError(DuplicateColumn))
    else
      var n := |ts[0].rows|;
      Ok(Frame(AllColumns(ts), ts[0].index, seq(n, k requires 0 <= k < n => JoinRow(ts, k))))
  }
}
