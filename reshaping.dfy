/** The reshaping of one pipeline's class-probability table into metalearner
    features (`_preds_processor`): columns are renamed to their positions, the
    first of exactly two columns is dropped, and the rest are named after their
    position and the pipeline. */
module Reshaping {
  import opened Outcomes
  import opened Frames

  /** What `predict_proba` returns or the stored cross-validation data hold: a
      DataFrame, or some other object. */
  datatype Preds = DataFrame(table: Table) | NotADataFrame

  const NotADataFrameMessage := "Preds must be in the form of a pd.Dataframe"

  // ---------------------------------------------------------------------------
  // Column names
  // ---------------------------------------------------------------------------

  function DigitChar(d: nat): char
    requires d < 10
  {
    ('0' as int + d) as char
  }

  /** `str(n)` for a natural number: its decimal digits. */
  function NatToString(n: nat): (s: string)
    ensures |s| > 0 && forall i | 0 <= i < |s| :: '0' <= s[i] <= '9'
  {
    if n < 10 then [DigitChar(n)] else NatToString(n / 10) + [DigitChar(n % 10)]
  }

  /** The number a string of decimal digits denotes. */
  function DigitsValue(s: string): nat
    requires forall i | 0 <= i < |s| :: '0' <= s[i] <= '9'
  {
    if s == [] then 0 else DigitsValue(s[..|s| - 1]) * 10 + (s[|s| - 1] as int - '0' as int)
  }

  lemma {:induction false} DigitsRoundTrip(n: nat)
    ensures DigitsValue(NatToString(n)) == n
  {
    if n >= 10 {
      DigitsRoundTrip(n / 10);
      var s := NatToString(n);
      assert s[..|s| - 1] == NatToString(n / 10);
    }
  }

  /** The name `f"Col {i} {pipeline_name}.x"` given to kept column `i`. */
  function ColumnName(i: nat, pipelineName: string): string {
    "Col " + NatToString(i) + " " + pipelineName + ".x"
  }

  /** Splitting at the first space recovers both halves. */
  lemma SplitAtFirstSpace(u: string, v: string, w: string, z: string)
    requires ' ' !in u && ' ' !in w
    requires u + [' '] + v == w + [' '] + z
    ensures u == w && v == z
  {
    var a := u + [' '] + v;
    assert a[|u|] == ' ';
    assert |u| >= |w|;
    assert a[|w|] == ' ';
    assert |w| >= |u|;
    assert u == a[..|u|] && w == a[..|w|];
    assert v == a[|u| + 1..] && z == a[|w| + 1..];
  }

  /** A column name determines the position and the pipeline name it was made
      from, even when the pipeline name holds spaces or digits. */
  lemma ColumnNameInjective(i: nat, a: string, j: nat, b: string)
    requires ColumnName(i, a) == ColumnName(j, b)
    ensures i == j && a == b
  {
    var di, dj := NatToString(i), NatToString(j);
    var s, t := ColumnName(i, a), ColumnName(j, b);
    assert s == "Col " + (di + [' '] + (a + ".x"));
    assert t == "Col " + (dj + [' '] + (b + ".x"));
    assert s[4..] == di + [' '] + (a + ".x");
    assert t[4..] == dj + [' '] + (b + ".x");
    SplitAtFirstSpace(di, a + ".x", dj, b + ".x");
    assert a == (a + ".x")[..|a|] && b == (b + ".x")[..|b|];
    DigitsRoundTrip(i);
    DigitsRoundTrip(j);
  }

  // ---------------------------------------------------------------------------
  // The reshaping policy
  // ---------------------------------------------------------------------------

  /** The positional labels `0 .. n-1`. */
  function Positions(n: nat): seq<Label> {
    seq(n, i requires 0 <= i < n => IntLabel(i))
  }

  /** The caller's table after the in-place rename: its columns are now the
      positions, its cells and index as they were. */
  function Positional(t: Table): Table {
    Frame(Positions(|t.columns|), t.index, t.rows)
  }

  /** The positions of the columns kept from an `n`-column table: all of them,
      except that of two columns only the second is kept. */
  function KeptPositions(n: nat): (ps: seq<nat>)
    ensures forall j | 0 <= j < |ps| :: ps[j] < n
    ensures forall j, k | 0 <= j < k < |ps| :: ps[j] < ps[k]
  {
    if n == 2 then [1] else seq(n, i requires 0 <= i < n => i)
  }

  lemma NamesDistinct(ps: seq<nat>, pipelineName: string)
    requires forall j, k | 0 <= j < k < |ps| :: ps[j] < ps[k]
    ensures Distinct(seq(|ps|, j requires 0 <= j < |ps| => StrLabel(ColumnName(ps[j], pipelineName))))
  {
    forall j, k | 0 <= j < k < |ps|
      ensures ColumnName(ps[j], pipelineName) != ColumnName(ps[k], pipelineName)
    {
      if ColumnName(ps[j], pipelineName) == ColumnName(ps[k], pipelineName) {
        ColumnNameInjective(ps[j], pipelineName, ps[k], pipelineName);
      }
    }
  }

  /** What `_preds_processor` returns for a table with a pipeline's name. */
  function Reshape(t: Table, pipelineName: string): (r: Table)
    ensures |r.columns| == (if |t.columns| == 2 then 1 else |t.columns|)
    ensures r.index == t.index && |r.rows| == |t.rows|
  {
    var ps := KeptPositions(|t.columns|);
    NamesDistinct(ps, pipelineName);
    Frame(seq(|ps|, j requires 0 <= j < |ps| => StrLabel(ColumnName(ps[j], pipelineName))),
          t.index,
          seq(|t.rows|, k requires 0 <= k < |t.rows| =>
            seq(|ps|, j requires 0 <= j < |ps| => t.rows[k][ps[j]])))
  }

  /** Two columns (a binary problem): one column is left, the second input
      column, named `Col 1 <name>.x`. */
  lemma ReshapeTwoColumns(t: Table, pipelineName: string)
    requires |t.columns| == 2
    ensures Reshape(t, pipelineName).columns == [StrLabel(ColumnName(1, pipelineName))]
    ensures forall k | 0 <= k < |t.rows| :: Reshape(t, pipelineName).rows[k] == [t.rows[k][1]]
  {
  }

  /** Any other number of columns: all are kept in order, column `i` named
      `Col i <name>.x`, and the rows are unchanged. */
  lemma ReshapeOtherColumns(t: Table, pipelineName: string)
    requires |t.columns| != 2
    ensures Reshape(t, pipelineName).columns
         == seq(|t.columns|, i requires 0 <= i < |t.columns| => StrLabel(ColumnName(i, pipelineName)))
    ensures Reshape(t, pipelineName).rows == t.rows
  {
    var r := Reshape(t, pipelineName);
    forall k | 0 <= k < |t.rows|
      ensures r.rows[k] == t.rows[k]
    {
    }
  }

  /** The result depends only on the shape and cells, not on the column labels:
      reshaping the table the in-place rename left behind gives the same result. */
  lemma ReshapeIgnoresLabels(t: Table, pipelineName: string)
    ensures Reshape(Positional(t), pipelineName) == Reshape(t, pipelineName)
  {
  }

  /** Features of differently named pipelines never share a column name. */
  lemma ReshapeNamesDisjoint(t: Table, a: string, u: Table, b: string)
    requires a != b
    ensures forall c | c in Reshape(t, a).columns :: c !in Reshape(u, b).columns
  {
    forall c | c in Reshape(t, a).columns
      ensures c !in Reshape(u, b).columns
    {
      var i :| 0 <= i < |Reshape(t, a).columns| && Reshape(t, a).columns[i] == c;
      if c in Reshape(u, b).columns {
        var j :| 0 <= j < |Reshape(u, b).columns| && Reshape(u, b).columns[j] == c;
        ColumnNameInjective(KeptPositions(|t.columns|)[i], a, KeptPositions(|u.columns|)[j], b);
      }
    }
  }

  // ---------------------------------------------------------------------------
  // `_preds_processor`
  // ---------------------------------------------------------------------------

  /** The mapping `{column: i}` the loop over `enumerate(preds.columns)` builds. */
  method PositionalMapping(t: Table) returns (m: map<Label, Label>)
    ensures m.Keys == set c | c in t.columns
    ensures forall k | 0 <= k < |t.columns| :: m[t.columns[k]] == IntLabel(k)
  {
    var columns := t.columns;
    m := map[];
    for i := 0 to |columns|
      invariant m.Keys == set c | c in columns[..i]
      invariant forall k | 0 <= k < i :: m[columns[k]] == IntLabel(k)
    {
      assert columns[..i + 1] == columns[..i] + [columns[i]];
      m := m[columns[i] := IntLabel(i)];
    }
    assert columns[..|columns|] == columns;
  }

  /** `ww.rename(mapping)`: labels in the mapping are replaced, others kept. */
  function Rename(f: Frame, m: map<Label, Label>): Frame {
    Frame(seq(|f.columns|, j requires 0 <= j < |f.columns| =>
            if f.columns[j] in m then m[f.columns[j]] else f.columns[j]),
          f.index, f.rows)
  }

  /** `ww.drop(l)` for a label the table has. */
  function DropColumn(t: Table, l: Label): (r: Table)
    requires l in t.columns
    ensures |r.columns| == |t.columns| - 1
  {
    var k := IndexOf(t.columns, l);
    assert Distinct(t.columns[..k] + t.columns[k + 1..]) by {
      var cs := t.columns[..k] + t.columns[k + 1..];
      forall a, b | 0 <= a < b < |cs|
        ensures cs[a] != cs[b]
      {
        var a', b' := if a < k then a else a + 1, if b < k then b else b + 1;
        assert cs[a] == t.columns[a'] && cs[b] == t.columns[b'];
      }
    }
    Frame(t.columns[..k] + t.columns[k + 1..], t.index,
          seq(|t.rows|, r requires 0 <= r < |t.rows| => t.rows[r][..k] + t.rows[r][k + 1..]))
  }

  /** The mapping that names each kept positional column after its position
      and the pipeline. */
  function FeatureNames(kept: Table, pipelineName: string): map<Label, Label> {
    map c | c in kept.columns && c.IntLabel? && c.i >= 0 :: StrLabel(ColumnName(c.i, pipelineName))
  }

  /** The positional columns `_preds_processor` keeps: the second of two, or all. */
  function KeptTable(t: Table): Table {
    if |t.columns| == 2 then
      assert Positional(t).columns[0] == IntLabel(0);
      DropColumn(Positional(t), IntLabel(0))
    else Positional(t)
  }

  /** Renaming by the positional mapping gives the positional table. */
  lemma RenameToPositions(t: Table, m: map<Label, Label>)
    requires m.Keys == set c | c in t.columns
    requires forall k | 0 <= k < |t.columns| :: m[t.columns[k]] == IntLabel(k)
    ensures Rename(t, m) == Positional(t)
  {
    var r := Rename(t, m);
    forall k | 0 <= k < |t.columns|
      ensures r.columns[k] == IntLabel(k)
    {
      assert t.columns[k] in m;
    }
  }

  lemma KeptTableLayout(t: Table)
    ensures KeptTable(t).columns
         == seq(|KeptPositions(|t.columns|)|, j requires 0 <= j < |KeptPositions(|t.columns|)| =>
              IntLabel(KeptPositions(|t.columns|)[j]))
    ensures KeptTable(t).index == t.index && |KeptTable(t).rows| == |t.rows|
    ensures forall k | 0 <= k < |t.rows| ::
              (KeptTable(t).rows[k]
               == seq(|KeptPositions(|t.columns|)|, j requires 0 <= j < |KeptPositions(|t.columns|)| =>
                    t.rows[k][KeptPositions(|t.columns|)[j]]))
  {
    if |t.columns| == 2 {
      var p := Positional(t);
      assert p.columns == [IntLabel(0), IntLabel(1)];
      assert IndexOf(p.columns, IntLabel(0)) == 0;
      forall k | 0 <= k < |t.rows|
        ensures KeptTable(t).rows[k] == [t.rows[k][1]]
      {
        assert |t.rows[k]| == 2;
      }
    }
  }

  /** Naming the kept columns gives the reshaped table. */
  lemma KeptFeatures(t: Table, pipelineName: string)
    ensures Rename(KeptTable(t), FeatureNames(KeptTable(t), pipelineName)) == Reshape(t, pipelineName)
  {
    KeptTableLayout(t);
    var kept := KeptTable(t);
    var features := Rename(kept, FeatureNames(kept, pipelineName));
    var expected := Reshape(t, pipelineName);
    assert features.columns == expected.columns;
    assert features.rows == kept.rows;
    forall k | 0 <= k < |t.rows|
      ensures features.rows[k] == expected.rows[k]
    {
    }
  }

  /** The caller's table after the in-place positional rename, and the features. */
  datatype Processed = Processed(renamed: Table, features: Table)

  /** `_preds_processor`: rejects anything but a DataFrame; otherwise renames
      the caller's table to positions in place and returns its reshaping. */
  method PredsProcessor(preds: Preds, pipelineName: string) returns (r: Result<Processed>)
    ensures preds.NotADataFrame? ==> r == Err(ValueError(NotADataFrameMessage))
    ensures preds.DataFrame? ==>
              r == Ok(Processed(Positional(preds.table), Reshape(preds.table, pipelineName)))
  {
    if preds.NotADataFrame? {
      return Err(ValueError(NotADataFrameMessage));
    }
    var t := preds.table;
    var newColumns := PositionalMapping(t);
    var renamed: Table := Rename(t, newColumns);
    RenameToPositions(t, newColumns);
    var kept: Table := renamed;
    if |kept.columns| == 2 {
      kept := DropColumn(kept, kept.columns[0]);
    }
    assert kept == KeptTable(t);
    var features := Rename(kept, FeatureNames(kept, pipelineName));
    KeptFeatures(t, pipelineName);
    return Ok(Processed(renamed, features));
  }
}
