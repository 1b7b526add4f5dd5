/** What `fit` and `transform` of the stacking ensemble guarantee: which
    pipeline produced each feature block, on which rows, against which labels,
    and what repeated fits and the stored cross-validation data leave behind. */
module EnsembleFacts {
  import opened Outcomes
  import opened Frames
  import opened Reshaping
  import opened ProblemTypes
  import opened Ensemble

  /** Predictions come back on the rows they were asked for. */
  ghost predicate RowPreserving(l: Learner) {
    forall p, x :: l.predictProba(p, x).DataFrame? ==> l.predictProba(p, x).table.index == x.index
  }

  // ---------------------------------------------------------------------------
  // Predictions of a list of pipelines
  // ---------------------------------------------------------------------------

  /** The loop of `transform` succeeds exactly when every pipeline predicts a
      DataFrame, and otherwise raises the ValueError of `_preds_processor`. */
  lemma {:induction false} ReshapedPredictionsOutcome(l: Learner, pipelines: seq<Pipeline>, x: Table)
    ensures ReshapedPredictions(l, pipelines, x).Ok?
        <==> forall j | 0 <= j < |pipelines| :: l.predictProba(pipelines[j], x).DataFrame?
    ensures ReshapedPredictions(l, pipelines, x).Err?
        ==> ReshapedPredictions(l, pipelines, x).error == ValueError(NotADataFrameMessage)
    decreases |pipelines|
  {
    if pipelines != [] {
      var n := |pipelines| - 1;
      var init := pipelines[..n];
      ReshapedPredictionsOutcome(l, init, x);
      assert forall j | 0 <= j < n :: init[j] == pipelines[j];
    }
  }

  /** On success, block `j` is pipeline `j`'s reshaped prediction. */
  lemma {:induction false} ReshapedPredictionsBlocks(l: Learner, pipelines: seq<Pipeline>, x: Table)
    requires ReshapedPredictions(l, pipelines, x).Ok?
    ensures var bs := ReshapedPredictions(l, pipelines, x).value;
            |bs| == |pipelines| &&
            forall j | 0 <= j < |pipelines| ::
              l.predictProba(pipelines[j], x).DataFrame? &&
              bs[j] == Reshape(l.predictProba(pipelines[j], x).table, pipelines[j].name)
    decreases |pipelines|
  {
    if pipelines != [] {
      var n := |pipelines| - 1;
      var init := pipelines[..n];
      ReshapedPredictionsBlocks(l, init, x);
      assert forall j | 0 <= j < n :: init[j] == pipelines[j];
    }
  }

  /** Both of the above. */
  lemma ReshapedPredictionsMeaning(l: Learner, pipelines: seq<Pipeline>, x: Table)
    ensures ReshapedPredictions(l, pipelines, x).Ok?
        <==> forall j | 0 <= j < |pipelines| :: l.predictProba(pipelines[j], x).DataFrame?
    ensures ReshapedPredictions(l, pipelines, x).Err?
        ==> ReshapedPredictions(l, pipelines, x).error == ValueError(NotADataFrameMessage)
    ensures ReshapedPredictions(l, pipelines, x).Ok? ==>
              var bs := ReshapedPredictions(l, pipelines, x).value;
              |bs| == |pipelines| &&
              forall j | 0 <= j < |pipelines| ::
                bs[j] == Reshape(l.predictProba(pipelines[j], x).table, pipelines[j].name)
  {
    ReshapedPredictionsOutcome(l, pipelines, x);
    if ReshapedPredictions(l, pipelines, x).Ok? {
      ReshapedPredictionsBlocks(l, pipelines, x);
    }
  }

  // ---------------------------------------------------------------------------
  // The internal cross-validation path
  // ---------------------------------------------------------------------------

  /** Every split's positions index into both `x` and `y`. */
  predicate SplitsInBounds(splits: seq<Split>, x: Table, y: Series) {
    forall k | 0 <= k < |splits| ::
      InBounds(splits[k].train, |x.rows|) && InBounds(splits[k].valid, |x.rows|) &&
      InBounds(splits[k].train, |y.values|) && InBounds(splits[k].valid, |y.values|)
  }

  lemma SplitsInBoundsSnoc(init: seq<Split>, last: Split, x: Table, y: Series)
    requires SplitsInBounds(init, x, y)
    requires InBounds(last.train, |x.rows|) && InBounds(last.valid, |x.rows|)
    requires InBounds(last.train, |y.values|) && InBounds(last.valid, |y.values|)
    ensures SplitsInBounds(init + [last], x, y)
  {
    var all := init + [last];
    forall k | 0 <= k < |all|
      ensures InBounds(all[k].train, |x.rows|) && InBounds(all[k].valid, |x.rows|)
      ensures InBounds(all[k].train, |y.values|) && InBounds(all[k].valid, |y.values|)
    {
      if k < |init| {
        assert all[k] == init[k];
      }
    }
  }

  /** Pipeline `p` after being refit on the training rows of each split in turn. */
  function Refit(l: Learner, p: Pipeline, x: Table, y: Series, splits: seq<Split>): Pipeline
    requires SplitsInBounds(splits, x, y)
    decreases |splits|
  {
    if splits == [] then p
    else
      var n := |splits| - 1;
      l.fit(Refit(l, p, x, y, splits[..n]), ILoc(x, splits[n].train).value, ILocSeries(y, splits[n].train).value)
  }

  function RefitAll(l: Learner, ps: seq<Pipeline>, x: Table, y: Series, splits: seq<Split>): seq<Pipeline>
    requires SplitsInBounds(splits, x, y)
  {
    seq(|ps|, j requires 0 <= j < |ps| => Refit(l, ps[j], x, y, splits))
  }

  /** A successful fold, spelled out. */
  lemma FoldMeaning(l: Learner, clones: seq<Pipeline>, x: Table, y: Series, split: Split)
    requires Fold(l, clones, x, y, split).Ok?
    ensures InBounds(split.train, |x.rows|) && InBounds(split.valid, |x.rows|)
    ensures InBounds(split.train, |y.values|) && InBounds(split.valid, |y.values|)
    ensures var refit := FitAll(l, clones, ILoc(x, split.train).value, ILocSeries(y, split.train).value);
            var features := Features(l, refit, ILoc(x, split.valid).value);
            features.Ok? &&
            Fold(l, clones, x, y, split).value == (refit, features.value, ILocSeries(y, split.valid).value)
  {
  }

  /** The last fold of a successful fold loop, spelled out. */
  lemma CvFoldsLast(l: Learner, start: seq<Pipeline>, x: Table, y: Series, splits: seq<Split>)
    requires splits != [] && CvFolds(l, start, x, y, splits).Ok?
    ensures CvFolds(l, start, x, y, splits[..|splits| - 1]).Ok?
    ensures var acc := CvFolds(l, start, x, y, splits[..|splits| - 1]).value;
            var f := Fold(l, acc.clones, x, y, splits[|splits| - 1]);
            f.Ok? &&
            CvFolds(l, start, x, y, splits).value
              == Gathered(f.value.0, acc.blocks + [f.value.1], acc.labels + [f.value.2])
  {
  }

  /** The fold loop succeeds only on in-bounds splits; it then has one block
      and one label series per split, and the labels of fold `k` are `y` at
      its validation positions. */
  lemma {:induction false} CvFoldsLabels(l: Learner, start: seq<Pipeline>, x: Table, y: Series, splits: seq<Split>)
    requires CvFolds(l, start, x, y, splits).Ok?
    ensures SplitsInBounds(splits, x, y)
    ensures var g := CvFolds(l, start, x, y, splits).value;
            |g.clones| == |start| && |g.blocks| == |splits| && |g.labels| == |splits| &&
            forall k | 0 <= k < |splits| :: g.labels[k] == ILocSeries(y, splits[k].valid).value
    decreases |splits|
  {
    if splits != [] {
      var n := |splits| - 1;
      var init := splits[..n];
      assert init + [splits[n]] == splits;
      CvFoldsLast(l, start, x, y, splits);
      CvFoldsLabels(l, start, x, y, init);
      var acc := CvFolds(l, start, x, y, init).value;
      FoldMeaning(l, acc.clones, x, y, splits[n]);
      SplitsInBoundsSnoc(init, splits[n], x, y);
      var g := CvFolds(l, start, x, y, splits).value;
      forall k | 0 <= k < n
        ensures g.labels[k] == ILocSeries(y, splits[k].valid).value
      {
        assert g.labels[k] == acc.labels[k] && init[k] == splits[k];
      }
    }
  }

  /** The same clones are refit fold after fold: after the loop, clone `j` is
      `start[j]` refit on every split's training rows in turn. */
  lemma {:induction false} CvFoldsClones(l: Learner, start: seq<Pipeline>, x: Table, y: Series, splits: seq<Split>)
    requires CvFolds(l, start, x, y, splits).Ok?
    ensures SplitsInBounds(splits, x, y)
    ensures CvFolds(l, start, x, y, splits).value.clones == RefitAll(l, start, x, y, splits)
    decreases |splits|
  {
    CvFoldsLabels(l, start, x, y, splits);
    if splits == [] {
      assert RefitAll(l, start, x, y, splits) == start;
    } else {
      var n := |splits| - 1;
      var init := splits[..n];
      CvFoldsLast(l, start, x, y, splits);
      CvFoldsClones(l, start, x, y, init);
      var acc := CvFolds(l, start, x, y, init).value;
      FoldMeaning(l, acc.clones, x, y, splits[n]);
      var xTrain := ILoc(x, splits[n].train).value;
      var yTrain := ILocSeries(y, splits[n].train).value;
      var refit := FitAll(l, acc.clones, xTrain, yTrain);
      forall j | 0 <= j < |start|
        ensures refit[j] == Refit(l, start[j], x, y, splits)
      {
      }
    }
  }

  /** `block` is what `transform`'s loop and join give, on the validation rows of
      the last split of `upto`, for the clones `start` refit on every split of
      `upto` in turn. */
  ghost predicate FoldFeatures(l: Learner, start: seq<Pipeline>, x: Table, y: Series, upto: seq<Split>, block: Table) {
    upto != [] && SplitsInBounds(upto, x, y) &&
    var xValid := ILoc(x, upto[|upto| - 1].valid).value;
    var ps := RefitAll(l, start, x, y, upto);
    Features(l, ps, xValid) == Ok(block)
  }

  /** The fold loop over a prefix of the splits gathers a prefix of the blocks. */
  lemma {:induction false} CvFoldsPrefix(l: Learner, start: seq<Pipeline>, x: Table, y: Series, splits: seq<Split>, m: nat)
    requires m <= |splits| && CvFolds(l, start, x, y, splits).Ok?
    ensures CvFolds(l, start, x, y, splits[..m]).Ok?
    ensures |CvFolds(l, start, x, y, splits).value.blocks| == |splits|
    ensures CvFolds(l, start, x, y, splits[..m]).value.blocks == CvFolds(l, start, x, y, splits).value.blocks[..m]
    decreases |splits|
  {
    CvFoldsLabels(l, start, x, y, splits);
    var g := CvFolds(l, start, x, y, splits).value;
    if m == |splits| {
      assert splits[..m] == splits && g.blocks[..m] == g.blocks;
    } else {
      var n := |splits| - 1;
      var init := splits[..n];
      CvFoldsLast(l, start, x, y, splits);
      CvFoldsPrefix(l, start, x, y, init, m);
      var acc := CvFolds(l, start, x, y, init).value;
      assert init[..m] == splits[..m];
      assert g.blocks[..m] == acc.blocks[..m];
    }
  }

  /** The features of the last fold, as `transform` would build them. */
  lemma LastFoldFeatures(l: Learner, start: seq<Pipeline>, x: Table, y: Series, splits: seq<Split>)
    requires splits != [] && CvFolds(l, start, x, y, splits).Ok?
    ensures |CvFolds(l, start, x, y, splits).value.blocks| == |splits|
    ensures FoldFeatures(l, start, x, y, splits, CvFolds(l, start, x, y, splits).value.blocks[|splits| - 1])
  {
    var n := |splits| - 1;
    CvFoldsLabels(l, start, x, y, splits);
    CvFoldsLast(l, start, x, y, splits);
    CvFoldsClones(l, start, x, y, splits);
    var acc := CvFolds(l, start, x, y, splits[..n]).value;
    FoldMeaning(l, acc.clones, x, y, splits[n]);
  }

  /** The features of fold `k` are the reshaped predictions, on its validation
      rows, of the clones as refit through fold `k`, joined side by side. */
  lemma CvFoldsFeatures(l: Learner, start: seq<Pipeline>, x: Table, y: Series, splits: seq<Split>)
    requires CvFolds(l, start, x, y, splits).Ok?
    ensures |CvFolds(l, start, x, y, splits).value.blocks| == |splits|
    ensures forall k | 0 <= k < |splits| ::
              FoldFeatures(l, start, x, y, splits[..k + 1], CvFolds(l, start, x, y, splits).value.blocks[k])
  {
    CvFoldsLabels(l, start, x, y, splits);
    var g := CvFolds(l, start, x, y, splits).value;
    forall k | 0 <= k < |splits|
      ensures FoldFeatures(l, start, x, y, splits[..k + 1], g.blocks[k])
    {
      var upto := splits[..k + 1];
      CvFoldsPrefix(l, start, x, y, splits, k + 1);
      LastFoldFeatures(l, start, x, y, upto);
    }
  }

  /** The held-out values of `s`: its entries at each split's validation
      positions, split after split. */
  function HeldOut(s: seq<int>, splits: seq<Split>): seq<int>
    requires forall k | 0 <= k < |splits| :: InBounds(splits[k].valid, |s|)
    decreases |splits|
  {
    if splits == [] then []
    else HeldOut(s, splits[..|splits| - 1]) + Pick(s, splits[|splits| - 1].valid)
  }

  /** How many held-out rows the splits have. */
  function HeldOutCount(splits: seq<Split>): nat
    decreases |splits|
  {
    if splits == [] then 0 else HeldOutCount(splits[..|splits| - 1]) + |splits[|splits| - 1].valid|
  }

  lemma {:induction false} HeldOutLength(s: seq<int>, splits: seq<Split>)
    requires forall k | 0 <= k < |splits| :: InBounds(splits[k].valid, |s|)
    ensures |HeldOut(s, splits)| == HeldOutCount(splits)
    decreases |splits|
  {
    if splits != [] {
      HeldOutLength(s, splits[..|splits| - 1]);
    }
  }

  /** Stacking the folds' label series gives the held-out labels and index of `y`. */
  lemma {:induction false} StackedLabels(ys: seq<Series>, y: Series, splits: seq<Split>)
    requires |ys| == |splits|
    requires forall k | 0 <= k < |splits| :: InBounds(splits[k].valid, |y.values|)
    requires forall k | 0 <= k < |splits| :: ys[k] == ILocSeries(y, splits[k].valid).value
    ensures StackValues(ys) == HeldOut(y.values, splits)
    ensures StackSeriesIndex(ys) == HeldOut(y.index, splits)
    decreases |splits|
  {
    if splits != [] {
      var n := |splits| - 1;
      StackedLabels(ys[..n], y, splits[..n]);
    }
  }

  /** Stacking the folds' feature blocks gives the held-out index of `x`, when
      each block sits on its fold's validation rows. */
  lemma {:induction false} StackedBlocks(ts: seq<Table>, x: Table, splits: seq<Split>)
    requires |ts| == |splits|
    requires forall k | 0 <= k < |splits| :: InBounds(splits[k].valid, |x.rows|)
    requires forall k | 0 <= k < |splits| :: ts[k].index == Pick(x.index, splits[k].valid)
    ensures StackIndex(ts) == HeldOut(x.index, splits)
    decreases |splits|
  {
    if splits != [] {
      var n := |splits| - 1;
      StackedBlocks(ts[..n], x, splits[..n]);
    }
  }

  /** Joined features sit on the rows they were predicted for when predictions
      keep their rows. */
  lemma FeaturesRows(l: Learner, ps: seq<Pipeline>, x: Table)
    requires RowPreserving(l)
    requires Features(l, ps, x).Ok?
    ensures Features(l, ps, x).value.index == x.index
  {
    ReshapedPredictionsMeaning(l, ps, x);
  }

  /** On the internal cross-validation path the metalearner's labels are `y`'s
      held-out labels and index, fold after fold. */
  lemma CvPathLabels(l: Learner, pipelines: seq<Pipeline>, x: Table, y: Series, splits: seq<Split>)
    requires CvPath(l, pipelines, x, y, splits).Ok?
    ensures SplitsInBounds(splits, x, y) && splits != []
    ensures CvPath(l, pipelines, x, y, splits).value.1.values == HeldOut(y.values, splits)
    ensures CvPath(l, pipelines, x, y, splits).value.1.index == HeldOut(y.index, splits)
    ensures |CvPath(l, pipelines, x, y, splits).value.1.values| == HeldOutCount(splits)
  {
    var start := Clones(l, pipelines);
    CvFoldsLabels(l, start, x, y, splits);
    var g := CvFolds(l, start, x, y, splits).value;
    StackedLabels(g.labels, y, splits);
    HeldOutLength(y.values, splits);
  }

  /** When predictions keep their rows, a fold's features sit on that fold's
      validation rows of `x`. */
  lemma FoldBlockRows(l: Learner, start: seq<Pipeline>, x: Table, y: Series, upto: seq<Split>, block: Table)
    requires RowPreserving(l)
    requires FoldFeatures(l, start, x, y, upto, block)
    ensures InBounds(upto[|upto| - 1].valid, |x.rows|)
    ensures block.index == Pick(x.index, upto[|upto| - 1].valid)
  {
    FeaturesRows(l, RefitAll(l, start, x, y, upto), ILoc(x, upto[|upto| - 1].valid).value);
  }

  /** When predictions keep their rows, each fold's features sit on its
      validation rows of `x`. */
  lemma CvFoldsBlockRows(l: Learner, start: seq<Pipeline>, x: Table, y: Series, splits: seq<Split>)
    requires RowPreserving(l)
    requires CvFolds(l, start, x, y, splits).Ok?
    ensures SplitsInBounds(splits, x, y)
    ensures var g := CvFolds(l, start, x, y, splits).value;
            |g.blocks| == |splits| &&
            forall k | 0 <= k < |splits| :: g.blocks[k].index == Pick(x.index, splits[k].valid)
  {
    CvFoldsLabels(l, start, x, y, splits);
    CvFoldsFeatures(l, start, x, y, splits);
    BlocksOnValidRows(l, start, x, y, splits, CvFolds(l, start, x, y, splits).value.blocks);
  }

  /** Blocks that are each fold's features sit on that fold's validation rows. */
  lemma BlocksOnValidRows(l: Learner, start: seq<Pipeline>, x: Table, y: Series, splits: seq<Split>, blocks: seq<Table>)
    requires RowPreserving(l) && SplitsInBounds(splits, x, y) && |blocks| == |splits|
    requires forall k | 0 <= k < |splits| :: FoldFeatures(l, start, x, y, splits[..k + 1], blocks[k])
    ensures forall k | 0 <= k < |splits| :: blocks[k].index == Pick(x.index, splits[k].valid)
  {
    forall k | 0 <= k < |splits|
      ensures blocks[k].index == Pick(x.index, splits[k].valid)
    {
      var upto := splits[..k + 1];
      FoldBlockRows(l, start, x, y, upto, blocks[k]);
      assert upto[|upto| - 1] == splits[k];
    }
  }

  /** When predictions keep their rows, the metalearner's features on the
      internal cross-validation path sit on `x`'s held-out rows: one feature
      row per label, aligned row by row when `x` and `y` share their index. */
  lemma CvPathFeatureRows(l: Learner, pipelines: seq<Pipeline>, x: Table, y: Series, splits: seq<Split>)
    requires RowPreserving(l)
    requires CvPath(l, pipelines, x, y, splits).Ok?
    ensures SplitsInBounds(splits, x, y)
    ensures CvPath(l, pipelines, x, y, splits).value.0.index == HeldOut(x.index, splits)
    ensures |CvPath(l, pipelines, x, y, splits).value.0.rows| == |CvPath(l, pipelines, x, y, splits).value.1.values|
    ensures x.index == y.index ==>
              CvPath(l, pipelines, x, y, splits).value.0.index == CvPath(l, pipelines, x, y, splits).value.1.index
  {
    CvPathLabels(l, pipelines, x, y, splits);
    var start := Clones(l, pipelines);
    CvFoldsBlockRows(l, start, x, y, splits);
    var g := CvFolds(l, start, x, y, splits).value;
    StackedBlocks(g.blocks, x, splits);
    HeldOutLength(x.index, splits);
  }

  // ---------------------------------------------------------------------------
  // The stored cross-validation path
  // ---------------------------------------------------------------------------

  /** When the loop over a pipeline's stored pairs raises nothing, every stored
      prediction was a DataFrame: it now has positional column labels and the
      same cells, and its block is its reshaping. */
  lemma {:induction false} StoredPairsRenamed(name: string, pairs: seq<CvPair>)
    requires StoredPairs(name, pairs).1.Ok?
    ensures forall j | 0 <= j < |pairs| :: pairs[j].preds.DataFrame?
    ensures forall j | 0 <= j < |pairs| ::
              StoredPairs(name, pairs).0[j] == CvPair(pairs[j].x, DataFrame(Positional(pairs[j].preds.table)))
    ensures |StoredPairs(name, pairs).1.value| == |pairs|
    ensures forall j | 0 <= j < |pairs| :: StoredPairs(name, pairs).1.value[j] == Reshape(pairs[j].preds.table, name)
    decreases |pairs|
  {
    if pairs != [] {
      var n := |pairs| - 1;
      var init := pairs[..n];
      var prev := StoredPairs(name, init);
      assert prev.1.Ok?;
      StoredPairsRenamed(name, init);
      StoredPairsNext(name, pairs, n, prev.0, prev.1.value);
      assert pairs[..n + 1] == pairs;
      assert forall j | 0 <= j < n :: init[j] == pairs[j];
    }
  }

  lemma PositionalIdempotent(t: Table)
    ensures Positional(Positional(t)) == Positional(t)
  {
  }

  /** Processing a pipeline's stored pairs a second time, from what the first
      pass left behind, changes nothing and gives the same blocks or error. */
  lemma {:induction false} StoredPairsIdempotent(name: string, pairs: seq<CvPair>)
    ensures StoredPairs(name, StoredPairs(name, pairs).0) == StoredPairs(name, pairs)
    decreases |pairs|
  {
    if pairs != [] {
      var n := |pairs| - 1;
      var init := pairs[..n];
      var prev := StoredPairs(name, init);
      StoredPairsIdempotent(name, init);
      var after := StoredPairs(name, pairs).0;
      assert after[..n] == prev.0;
      match pairs[n].preds
      case NotADataFrame =>
      case DataFrame(t) =>
        PositionalIdempotent(t);
        ReshapeIgnoresLabels(t, name);
    }
  }

  lemma StoredPipelineIdempotent(entry: PipelineCv)
    ensures StoredPipeline(StoredPipeline(entry).0) == StoredPipeline(entry)
  {
    StoredPairsIdempotent(entry.name, entry.pairs);
  }

  lemma {:induction false} StoredBlocksIdempotent(cv: seq<PipelineCv>)
    ensures StoredBlocks(StoredBlocks(cv).0) == StoredBlocks(cv)
    decreases |cv|
  {
    if cv != [] {
      var one := StoredPipeline(cv[0]);
      StoredPipelineIdempotent(cv[0]);
      StoredBlocksFirst(cv);
      var after := StoredBlocks(cv).0;
      assert after[0] == one.0;
      StoredBlocksFirst(after);
      if one.1.Err? {
        assert after[1..] == cv[1..];
      } else {
        StoredBlocksIdempotent(cv[1..]);
        assert after[1..] == StoredBlocks(cv[1..]).0;
      }
    }
  }

  /** Running the stored path again on the stored data it renamed in place
      leaves that data as it is and assembles the same training data (or
      raises the same error): the in-place rename does not change later fits. */
  lemma StoredPathIdempotent(cv: seq<PipelineCv>, y: Series)
    ensures StoredPath(StoredPath(cv, y).0, y) == StoredPath(cv, y)
  {
    StoredBlocksIdempotent(cv);
  }

  /** On the stored path the metalearner's labels are `y` itself. If the joined
      features have `y`'s row count they are used as they are; otherwise they
      are re-selected by `y`'s index, and when the joined index has no
      repeated label the result sits exactly on `y`'s index. */
  lemma StoredPathLabels(cv: seq<PipelineCv>, y: Series)
    requires StoredPath(cv, y).1.Ok?
    ensures StoredBlocks(cv).1.Ok? && ConcatColumns(StoredBlocks(cv).1.value).Ok?
    ensures StoredPath(cv, y).1.value.1 == y
    ensures var joined := ConcatColumns(StoredBlocks(cv).1.value).value;
            |joined.rows| == |y.values| ==> StoredPath(cv, y).1.value.0 == joined
    ensures var joined := ConcatColumns(StoredBlocks(cv).1.value).value;
            Distinct(joined.index) ==>
              |StoredPath(cv, y).1.value.0.rows| == |y.values| &&
              (|joined.rows| != |y.values| ==> StoredPath(cv, y).1.value.0.index == y.index)
  {
    var joined := ConcatColumns(StoredBlocks(cv).1.value).value;
    if Distinct(joined.index) && |joined.rows| != |y.values| {
      LocAlignsToLabels(joined, y.index);
    }
  }

  /** Without errors, the stored data keep their pipelines and pairs, and every
      stored prediction now has positional column labels. */
  lemma {:induction false} StoredBlocksRenamed(cv: seq<PipelineCv>)
    requires StoredBlocks(cv).1.Ok?
    ensures |StoredBlocks(cv).1.value| == |cv|
    ensures forall i | 0 <= i < |cv| ::
              StoredPairs(cv[i].name, cv[i].pairs).1.Ok? &&
              StoredBlocks(cv).0[i] == PipelineCv(cv[i].name, StoredPairs(cv[i].name, cv[i].pairs).0)
    decreases |cv|
  {
    if cv != [] {
      StoredBlocksFirst(cv);
      StoredBlocksRenamed(cv[1..]);
      forall i | 1 <= i < |cv|
        ensures cv[1..][i - 1] == cv[i]
      {
      }
    }
  }

  // ---------------------------------------------------------------------------
  // `fit`
  // ---------------------------------------------------------------------------

  /** Labels with the wrong number of classes are rejected with ValueError and
      the ensemble is left as it was. */
  lemma FitRejectsLabels(pt: ProblemType, l: Learner, s: State, x: Table, y: Series, splits: seq<Split>, forceRetrain: bool)
    requires (IsBinary(pt) && NUnique(y) != 2) || (IsMulticlass(pt) && 1 <= NUnique(y) <= 2)
    ensures FitSpec(pt, l, s, x, y, splits, forceRetrain).state == s
    ensures FitSpec(pt, l, s, x, y, splits, forceRetrain).result.Err?
    ensures FitSpec(pt, l, s, x, y, splits, forceRetrain).result.error.ValueError?
  {
  }

  /** Accepted labels: the input pipelines are fitted on all of (x, y) when they
      were not fitted yet or a retrain is forced, and are marked fitted either
      way. A failure after that leaves the metalearner and the classes as they
      were; a success records the training data and the sorted distinct labels
      it was trained on. */
  lemma FitOutcomeMeaning(pt: ProblemType, l: Learner, s: State, x: Table, y: Series, splits: seq<Split>, forceRetrain: bool)
    requires CheckClasses(pt, y).None?
    ensures var o := FitSpec(pt, l, s, x, y, splits, forceRetrain);
            o.state.inputPipelinesFitted &&
            o.state.inputPipelines
              == (if !s.inputPipelinesFitted || forceRetrain then FitAll(l, s.inputPipelines, x, y) else s.inputPipelines)
    ensures var o := FitSpec(pt, l, s, x, y, splits, forceRetrain);
            o.result.Err? ==> o.state.trainedOn == s.trainedOn && o.state.classes == s.classes
    ensures var o := FitSpec(pt, l, s, x, y, splits, forceRetrain);
            o.result.Ok? ==>
              o.state.trainedOn.Some? && StrictlyIncreasing(o.state.classes) &&
              forall c :: c in o.state.classes <==> c in o.state.trainedOn.value.1.values
  {
  }

  /** Which data the metalearner is trained on: with no stored data, or when a
      retrain is forced, the internal cross-validation path over the (re)fitted
      input pipelines, the stored data untouched; otherwise the stored path,
      with `y` as the labels. */
  lemma FitChoosesPath(pt: ProblemType, l: Learner, s: State, x: Table, y: Series, splits: seq<Split>, forceRetrain: bool)
    requires FitSpec(pt, l, s, x, y, splits, forceRetrain).result.Ok?
    ensures var o := FitSpec(pt, l, s, x, y, splits, forceRetrain);
            (s.cvValidData == [] || forceRetrain) ==>
              o.state.cvValidData == s.cvValidData &&
              CvPath(l, o.state.inputPipelines, x, y, splits) == Ok(o.state.trainedOn.value)
    ensures var o := FitSpec(pt, l, s, x, y, splits, forceRetrain);
            (s.cvValidData != [] && !forceRetrain) ==>
              StoredPath(s.cvValidData, y) == (o.state.cvValidData, Ok(o.state.trainedOn.value)) &&
              o.state.trainedOn.value.1 == y
  {
    if s.cvValidData != [] && !forceRetrain {
      StoredPathLabels(s.cvValidData, y);
    }
  }

  /** A second `fit` on the same data without forcing a retrain changes nothing
      and returns the same outcome: the input pipelines are not refit, the
      stored data are already renamed, and the metalearner gets the same data. */
  lemma FitIdempotent(pt: ProblemType, l: Learner, s: State, x: Table, y: Series, splits: seq<Split>)
    ensures var once := FitSpec(pt, l, s, x, y, splits, false);
            FitSpec(pt, l, once.state, x, y, splits, false) == once
  {
    if CheckClasses(pt, y).None? && s.cvValidData != [] {
      StoredPathIdempotent(s.cvValidData, y);
    }
  }

  lemma {:induction false} IncreasingCount(r: seq<int>)
    requires StrictlyIncreasing(r)
    ensures |set v | v in r| == |r|
    decreases |r|
  {
    if r != [] {
      var n := |r| - 1;
      IncreasingCount(r[..n]);
      assert (set v | v in r) == (set v | v in r[..n]) + {r[n]};
      assert r[n] !in r[..n];
    }
  }

  /** `np.unique` gives one entry per distinct value. */
  lemma SortedDistinctCount(vs: seq<int>)
    ensures |SortedDistinct(vs)| == |set v | v in vs|
  {
    var r := SortedDistinct(vs);
    IncreasingCount(r);
    assert (set v | v in r) == (set v | v in vs);
  }

  /** A binary ensemble fitted from stored data records exactly two classes. */
  lemma FitBinaryClasses(pt: ProblemType, l: Learner, s: State, x: Table, y: Series, splits: seq<Split>)
    requires IsBinary(pt) && s.cvValidData != []
    requires FitSpec(pt, l, s, x, y, splits, false).result.Ok?
    ensures |FitSpec(pt, l, s, x, y, splits, false).state.classes| == 2
  {
    FitChoosesPath(pt, l, s, x, y, splits, false);
    SortedDistinctCount(y.values);
  }

  // ---------------------------------------------------------------------------
  // `transform`
  // ---------------------------------------------------------------------------

  predicate DistinctNames(ps: seq<Pipeline>) {
    forall i, j | 0 <= i < j < |ps| :: ps[i].name != ps[j].name
  }

  lemma {:induction false} AllColumnsMember(ts: seq<Table>, c: Label)
    requires c in AllColumns(ts)
    ensures exists i :: 0 <= i < |ts| && c in ts[i].columns
    decreases |ts|
  {
    var n := |ts| - 1;
    if c !in ts[n].columns {
      AllColumnsMember(ts[..n], c);
      var i :| 0 <= i < n && c in ts[..n][i].columns;
      assert ts[..n][i] == ts[i];
    }
  }

  lemma DistinctConcat(a: seq<Label>, b: seq<Label>)
    requires Distinct(a) && Distinct(b)
    requires forall c | c in a :: c !in b
    ensures Distinct(a + b)
  {
    var ab := a + b;
    forall i, j | 0 <= i < j < |ab|
      ensures ab[i] != ab[j]
    {
      if i < |a| && j >= |a| {
        assert ab[i] in a && ab[j] == b[j - |a|];
      } else if i >= |a| {
        assert ab[i] == b[i - |a|] && ab[j] == b[j - |a|];
      }
    }
  }

  /** Reshaped blocks of differently named pipelines never share a column. */
  lemma {:induction false} ReshapedColumnsDistinct(bs: seq<Table>, sources: seq<Table>, ps: seq<Pipeline>)
    requires |bs| == |ps| && |sources| == |ps| && DistinctNames(ps)
    requires forall j | 0 <= j < |ps| :: bs[j] == Reshape(sources[j], ps[j].name)
    ensures Distinct(AllColumns(bs))
    decreases |bs|
  {
    if bs != [] {
      var n := |bs| - 1;
      ReshapedColumnsDistinct(bs[..n], sources[..n], ps[..n]);
      forall c | c in AllColumns(bs[..n])
        ensures c !in bs[n].columns
      {
        AllColumnsMember(bs[..n], c);
        var i :| 0 <= i < n && c in bs[..n][i].columns;
        ReshapeNamesDisjoint(sources[i], ps[i].name, sources[n], ps[n].name);
      }
      DistinctConcat(AllColumns(bs[..n]), bs[n].columns);
    }
  }

  /** Each pipeline's prediction on `x`, reshaped. */
  function ReshapedAll(l: Learner, ps: seq<Pipeline>, x: Table): seq<Table>
    requires forall j | 0 <= j < |ps| :: l.predictProba(ps[j], x).DataFrame?
  {
    var r := seq(|ps|, j requires 0 <= j < |ps| => Reshape(l.predictProba(ps[j], x).table, ps[j].name));
    assert forall j | 0 <= j < |r| :: WellFormed(r[j]) by {
      forall j | 0 <= j < |r|
        ensures WellFormed(r[j])
      {
        var t := Reshape(l.predictProba(ps[j], x).table, ps[j].name);
        assert r[j] == t;
      }
    }
    r
  }

  /** Differently named pipelines that all predict DataFrames give features
      whose columns are each pipeline's reshaped columns, in order, and which
      sit on the input's rows when predictions keep their rows. */
  lemma FeaturesLayout(l: Learner, ps: seq<Pipeline>, x: Table)
    requires ps != [] && DistinctNames(ps)
    requires forall j | 0 <= j < |ps| :: l.predictProba(ps[j], x).DataFrame?
    ensures Features(l, ps, x).Ok?
    ensures Features(l, ps, x).value.columns == AllColumns(ReshapedAll(l, ps, x))
    ensures RowPreserving(l) ==> Features(l, ps, x).value.index == x.index
  {
    ReshapedPredictionsMeaning(l, ps, x);
    var bs := ReshapedPredictions(l, ps, x).value;
    var sources := seq(|ps|, j requires 0 <= j < |ps| => l.predictProba(ps[j], x).table);
    ReshapedColumnsDistinct(bs, sources, ps);
    assert bs == ReshapedAll(l, ps, x);
  }

  /** What `transform` gives. Unfitted input pipelines are refused; every
      failure is a ValueError; a pipeline predicting something other than a
      DataFrame, or having no input pipelines at all, makes it fail. When the
      fitted pipelines are differently named and all predict DataFrames, it
      succeeds with their reshaped columns in input-pipeline order, on the
      input's rows when predictions keep their rows. */
  lemma TransformOutcome(e: EnsembleClassificationPipeline, l: Learner, x: Table)
    ensures !e.inputPipelinesFitted ==> e.Transform(l, x) == Err(ValueError(UnfittedMessage))
    ensures e.Transform(l, x).Err? ==> e.Transform(l, x).error.ValueError?
    ensures (e.inputPipelinesFitted &&
             (exists j | 0 <= j < |e.inputPipelines| :: l.predictProba(e.inputPipelines[j], x).NotADataFrame?)) ==>
              e.Transform(l, x) == Err(ValueError(NotADataFrameMessage))
    ensures e.inputPipelines == [] ==> e.Transform(l, x).Err?
    ensures (&& e.inputPipelinesFitted && e.inputPipelines != [] && DistinctNames(e.inputPipelines)
             && forall j | 0 <= j < |e.inputPipelines| :: l.predictProba(e.inputPipelines[j], x).DataFrame?) ==>
              && e.Transform(l, x).Ok?
              && e.Transform(l, x).value.columns == AllColumns(ReshapedAll(l, e.inputPipelines, x))
              && (RowPreserving(l) ==> e.Transform(l, x).value.index == x.index)
  {
    var ps := e.inputPipelines;
    ReshapedPredictionsOutcome(l, ps, x);
    if e.inputPipelinesFitted && ps != [] && DistinctNames(ps)
       && forall j | 0 <= j < |ps| :: l.predictProba(ps[j], x).DataFrame? {
      FeaturesLayout(l, ps, x);
    }
  }

  lemma {:induction false} AllColumnsOfSingles(ts: seq<Table>, cs: seq<Label>)
    requires |ts| == |cs|
    requires forall j | 0 <= j < |ts| :: ts[j].columns == [cs[j]]
    ensures AllColumns(ts) == cs
    decreases |ts|
  {
    if ts != [] {
      var n := |ts| - 1;
      AllColumnsOfSingles(ts[..n], cs[..n]);
      assert cs[..n] + [cs[n]] == cs;
    }
  }

  /** A binary ensemble: when every pipeline predicts two columns, the
      features are one column per pipeline, `Col 1 <name>.x`, in order. */
  lemma FeaturesBinaryColumns(l: Learner, ps: seq<Pipeline>, x: Table)
    requires ps != [] && DistinctNames(ps)
    requires forall j | 0 <= j < |ps| ::
               l.predictProba(ps[j], x).DataFrame? && |l.predictProba(ps[j], x).table.columns| == 2
    ensures Features(l, ps, x).Ok?
    ensures Features(l, ps, x).value.columns
         == seq(|ps|, j requires 0 <= j < |ps| => StrLabel(ColumnName(1, ps[j].name)))
  {
    FeaturesLayout(l, ps, x);
    var bs := ReshapedAll(l, ps, x);
    var cs := seq(|ps|, j requires 0 <= j < |ps| => StrLabel(ColumnName(1, ps[j].name)));
    forall j | 0 <= j < |ps|
      ensures bs[j].columns == [cs[j]]
    {
      ReshapeTwoColumns(l.predictProba(ps[j], x).table, ps[j].name);
    }
    AllColumnsOfSingles(bs, cs);
  }

  // ---------------------------------------------------------------------------
  // The metalearner's columns in a binary ensemble
  // ---------------------------------------------------------------------------

  /** `clone()` copies a pipeline's configuration, its name included, and
      fitting a pipeline does not rename it. */
  ghost predicate KeepsNames(l: Learner) {
    && (forall p :: l.clone(p).name == p.name)
    && (forall p, x, y :: l.fit(p, x, y).name == p.name)
  }

  /** Every DataFrame of predictions has two columns, one per class of a
      binary problem. */
  ghost predicate TwoClassPredictions(l: Learner) {
    forall p, x :: l.predictProba(p, x).DataFrame? ==> |l.predictProba(p, x).table.columns| == 2
  }

  /** The feature columns of a binary ensemble: `Col 1 <name>.x` per pipeline. */
  function BinaryColumns(ps: seq<Pipeline>): seq<Label> {
    seq(|ps|, j requires 0 <= j < |ps| => StrLabel(ColumnName(1, ps[j].name)))
  }

  /** Refitting a pipeline fold after fold keeps its name. */
  lemma {:induction false} RefitKeepsName(l: Learner, p: Pipeline, x: Table, y: Series, splits: seq<Split>)
    requires KeepsNames(l) && SplitsInBounds(splits, x, y)
    ensures Refit(l, p, x, y, splits).name == p.name
    decreases |splits|
  {
    if splits != [] {
      var n := |splits| - 1;
      assert SplitsInBounds(splits[..n], x, y);
      RefitKeepsName(l, p, x, y, splits[..n]);
    }
  }

  /** Whatever `transform` succeeds on, with two-column predictions, has one
      column `Col 1 <name>.x` per pipeline, in order. */
  lemma TransformBinaryColumns(l: Learner, ps: seq<Pipeline>, x: Table)
    requires TwoClassPredictions(l) && DistinctNames(ps)
    requires Features(l, ps, x).Ok?
    ensures Features(l, ps, x).value.columns == BinaryColumns(ps)
  {
    ReshapedPredictionsOutcome(l, ps, x);
    FeaturesBinaryColumns(l, ps, x);
  }

  /** A fold's features carry the input pipelines' names, one column each. */
  lemma FoldColumns(l: Learner, pipelines: seq<Pipeline>, x: Table, y: Series, upto: seq<Split>, block: Table)
    requires KeepsNames(l) && TwoClassPredictions(l) && DistinctNames(pipelines)
    requires FoldFeatures(l, Clones(l, pipelines), x, y, upto, block)
    ensures block.columns == BinaryColumns(pipelines)
  {
    var start := Clones(l, pipelines);
    var ps := RefitAll(l, start, x, y, upto);
    forall j | 0 <= j < |ps|
      ensures ps[j].name == pipelines[j].name
    {
      RefitKeepsName(l, start[j], x, y, upto);
    }
    assert BinaryColumns(ps) == BinaryColumns(pipelines);
    TransformBinaryColumns(l, ps, ILoc(x, upto[|upto| - 1].valid).value);
  }

  /** On the internal cross-validation path of a binary ensemble, the
      metalearner is trained on one column per input pipeline, named after it,
      in input-pipeline order. */
  lemma CvPathColumns(l: Learner, pipelines: seq<Pipeline>, x: Table, y: Series, splits: seq<Split>)
    requires KeepsNames(l) && TwoClassPredictions(l) && DistinctNames(pipelines)
    requires CvPath(l, pipelines, x, y, splits).Ok?
    ensures CvPath(l, pipelines, x, y, splits).value.0.columns == BinaryColumns(pipelines)
  {
    var start := Clones(l, pipelines);
    CvFoldsFeatures(l, start, x, y, splits);
    var g := CvFolds(l, start, x, y, splits).value;
    forall k | 0 <= k < |splits|
      ensures g.blocks[k].columns == BinaryColumns(pipelines)
    {
      FoldColumns(l, pipelines, x, y, splits[..k + 1], g.blocks[k]);
    }
    assert ConcatRows(g.blocks).Ok?;
    ConcatRowsSameColumns(g.blocks, BinaryColumns(pipelines));
  }

  /** In a binary ensemble, `transform` after `fit` yields exactly the columns
      the metalearner was trained on by the internal cross-validation path:
      one per input pipeline, named after it, in order. */
  lemma FitTransformColumns(pt: ProblemType, l: Learner, s: State, x: Table, y: Series, splits: seq<Split>,
                            forceRetrain: bool, xNew: Table)
    requires KeepsNames(l) && TwoClassPredictions(l) && DistinctNames(s.inputPipelines)
    ensures var o := FitSpec(pt, l, s, x, y, splits, forceRetrain);
            (Features(l, o.state.inputPipelines, xNew).Ok? ==>
               Features(l, o.state.inputPipelines, xNew).value.columns == BinaryColumns(s.inputPipelines))
    ensures var o := FitSpec(pt, l, s, x, y, splits, forceRetrain);
            (o.result.Ok? && (s.cvValidData == [] || forceRetrain) ==>
               o.state.trainedOn.value.0.columns == BinaryColumns(s.inputPipelines))
  {
    var o := FitSpec(pt, l, s, x, y, splits, forceRetrain);
    var ps := o.state.inputPipelines;
    if CheckClasses(pt, y).None? {
      FitOutcomeMeaning(pt, l, s, x, y, splits, forceRetrain);
      assert |ps| == |s.inputPipelines|;
      forall j | 0 <= j < |ps|
        ensures ps[j].name == s.inputPipelines[j].name
      {
      }
      assert BinaryColumns(ps) == BinaryColumns(s.inputPipelines);
      if Features(l, ps, xNew).Ok? {
        TransformBinaryColumns(l, ps, xNew);
      }
      if o.result.Ok? && (s.cvValidData == [] || forceRetrain) {
        FitChoosesPath(pt, l, s, x, y, splits, forceRetrain);
        CvPathColumns(l, ps, x, y, splits);
      }
    } else {
      assert ps == s.inputPipelines;
      if Features(l, ps, xNew).Ok? {
        TransformBinaryColumns(l, ps, xNew);
      }
    }
  }
}
