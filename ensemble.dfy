/** The stacking ensemble of classification pipelines: `fit` validates the
    labels, assembles the metalearner's training data from held-out predictions
    (computed fold by fold, or taken from stored cross-validation data) and fits
    the metalearner on it; `transform` builds the same features for new data. */
module Ensemble {
  import opened Outcomes
  import opened Frames
  import opened Reshaping
  import opened ProblemTypes

  /** An input pipeline: its name and an opaque stand-in for its configuration
      and learned state. */
  datatype Pipeline = Pipeline(name: string, state: int)

  /** The machine-learning calls the ensemble makes but does not define:
      `pipeline.clone()`, `pipeline.fit(X, y)` (the refit pipeline) and
      `pipeline.predict_proba(X)`. */
  datatype Learner = Learner(
    clone: Pipeline -> Pipeline,
    fit: (Pipeline, Table, Series) -> Pipeline,
    predictProba: (Pipeline, Table) -> Preds)

  /** One (train, valid) pair of row positions from the data splitter. */
  datatype Split = Split(train: seq<int>, valid: seq<int>)

  /** One stored held-out pair `(X, preds)`. */
  datatype CvPair = CvPair(x: Table, preds: Preds)

  /** A pipeline's entry in the stored cross-validation data. */
  datatype PipelineCv = PipelineCv(name: string, pairs: seq<CvPair>)

  // ---------------------------------------------------------------------------
  // Label validation and the recorded classes
  // ---------------------------------------------------------------------------

  /** `y.nunique()`. */
  function NUnique(y: Series): nat {
    |set v | v in y.values|
  }

  const BinaryClassesMessage := "Binary pipelines require y to have 2 unique classes!"
  const MulticlassClassesMessage := "Multiclass pipelines require y to have 3 or more unique classes!"

  /** The label-cardinality check at the start of `fit`. */
  function CheckClasses(pt: ProblemType, y: Series): (e: Option<Error>)
    ensures e.Some? <==> (IsBinary(pt) && NUnique(y) != 2) || (IsMulticlass(pt) && 1 <= NUnique(y) <= 2)
    ensures e.Some? ==> e.value.ValueError?
  {
    if IsBinary(pt) && NUnique(y) != 2 then Some(ValueError(BinaryClassesMessage))
    else if IsMulticlass(pt) && NUnique(y) in {1, 2} then Some(ValueError(MulticlassClassesMessage))
    else None
  }

  predicate StrictlyIncreasing(s: seq<int>) {
    forall i, j | 0 <= i < j < |s| :: s[i] < s[j]
  }

  function Insert(s: seq<int>, v: int): (r: seq<int>)
    requires StrictlyIncreasing(s)
    ensures StrictlyIncreasing(r)
    ensures forall x :: x in r <==> x in s || x == v
  {
    if s == [] then [v]
    else if v < s[0] then [v] + s
    else if v == s[0] then s
    else
      var rest := Insert(s[1..], v);
      assert forall x | x in rest :: s[0] < x by {
        forall x | x in rest
          ensures s[0] < x
        {
          if x in s[1..] {
            var k :| 0 <= k < |s[1..]| && s[1..][k] == x;
            assert s[k + 1] == x;
          }
        }
      }
      var r := [s[0]] + rest;
      assert forall i, j | 0 <= i < j < |r| :: r[i] < r[j] by {
        forall i, j | 0 <= i < j < |r|
          ensures r[i] < r[j]
        {
          assert r[j] == rest[j - 1] && rest[j - 1] in rest;
          if i > 0 {
            assert r[i] == rest[i - 1];
          }
        }
      }
      r
  }

  /** `np.unique(values)`: the distinct values in increasing order. */
  function SortedDistinct(vs: seq<int>): (r: seq<int>)
    ensures StrictlyIncreasing(r)
    ensures forall x :: x in r <==> x in vs
    decreases |vs|
  {
    if vs == [] then [] else Insert(SortedDistinct(vs[..|vs| - 1]), vs[|vs| - 1])
  }

  // ---------------------------------------------------------------------------
  // The internal cross-validation path
  // ---------------------------------------------------------------------------

  /** `_fit_input_pipelines`: every input pipeline fitted on all of (X, y). */
  function FitAll(l: Learner, pipelines: seq<Pipeline>, x: Table, y: Series): (r: seq<Pipeline>)
    ensures |r| == |pipelines|
  {
    seq(|pipelines|, i requires 0 <= i < |pipelines| => l.fit(pipelines[i], x, y))
  }

  /** The clones made once before the fold loop. */
  function Clones(l: Learner, pipelines: seq<Pipeline>): (r: seq<Pipeline>)
    ensures |r| == |pipelines|
  {
    seq(|pipelines|, i requires 0 <= i < |pipelines| => l.clone(pipelines[i]))
  }

  /** The loop of `transform`: each input pipeline's predictions on `x`, reshaped. */
  function ReshapedPredictions(l: Learner, pipelines: seq<Pipeline>, x: Table): Result<seq<Table>>
    decreases |pipelines|
  {
    if pipelines == [] then Ok([])
    else
      var n := |pipelines| - 1;
      var prev :- ReshapedPredictions(l, pipelines[..n], x);
      match l.predictProba(pipelines[n], x)
      case NotADataFrame => Err(ValueError(NotADataFrameMessage))
      case DataFrame(t) => Ok(prev + [Reshape(t, pipelines[n].name)])
  }

  /** The features `transform` builds from fitted pipelines: their reshaped
      predictions side by side, in order. */
  function Features(l: Learner, pipelines: seq<Pipeline>, x: Table): Result<Table> {
    var blocks :- ReshapedPredictions(l, pipelines, x);
    ConcatColumns(blocks)
  }

  /** What the fold loop has gathered: the clones as refit so far, one feature
      block per fold and the validation labels of each fold. */
  datatype Gathered = Gathered(clones: seq<Pipeline>, blocks: seq<Table>, labels: seq<Series>)

  /** One fold: the training and validation rows are selected, every clone is
      refit on the training rows, and the refit clones' reshaped predictions on
      the validation rows are joined, as `transform` would join them. Gives the
      refit clones, the fold's features and its validation labels. */
  function Fold(l: Learner, clones: seq<Pipeline>, x: Table, y: Series, split: Split)
    : Result<(seq<Pipeline>, Table, Series)>
  {
    var xTrain :- ILoc(x, split.train);
    var xValid :- ILoc(x, split.valid);
    var yTrain :- ILocSeries(y, split.train);
    var yValid :- ILocSeries(y, split.valid);
    var refit := FitAll(l, clones, xTrain, yTrain);
    var foldX :- Features(l, refit, xValid);
    Ok((refit, foldX, yValid))
  }

  /** The fold loop over `splits`, starting from the clones `start`. */
  function CvFolds(l: Learner, start: seq<Pipeline>, x: Table, y: Series, splits: seq<Split>)
    : Result<Gathered>
    decreases |splits|
  {
    if splits == [] then Ok(Gathered(start, [], []))
    else
      var n := |splits| - 1;
      var acc :- CvFolds(l, start, x, y, splits[..n]);
      var f :- Fold(l, acc.clones, x, y, splits[n]);
      Ok(Gathered(f.0, acc.blocks + [f.1], acc.labels + [f.2]))
  }

  /** The metalearner's training data on the internal cross-validation path. */
  function CvPath(l: Learner, pipelines: seq<Pipeline>, x: Table, y: Series, splits: seq<Split>)
    : Result<(Table, Series)>
  {
    var g :- CvFolds(l, Clones(l, pipelines), x, y, splits);
    var mx :- ConcatRows(g.blocks);
    var my :- ConcatSeries(g.labels);
    Ok((mx, my))
  }

  // ---------------------------------------------------------------------------
  // The stored cross-validation path
  // ---------------------------------------------------------------------------

  /** The loop over one pipeline's stored pairs: the pairs afterwards (those
      processed renamed in place, the rest as they were) and the blocks, or the
      first error. */
  function StoredPairs(name: string, pairs: seq<CvPair>): (r: (seq<CvPair>, Result<seq<Table>>))
    ensures |r.0| == |pairs|
    decreases |pairs|
  {
    if pairs == [] then ([], Ok([]))
    else
      var n := |pairs| - 1;
      var prev := StoredPairs(name, pairs[..n]);
      if prev.1.Err? then (prev.0 + [pairs[n]], prev.1)
      else
        match pairs[n].preds
        case NotADataFrame => (prev.0 + [pairs[n]], Err(ValueError(NotADataFrameMessage)))
        case DataFrame(t) =>
          (prev.0 + [CvPair(pairs[n].x, DataFrame(Positional(t)))], Ok(prev.1.value + [Reshape(t, name)]))
  }

  /** One stored pipeline: its entry afterwards, and its blocks stacked by rows. */
  function StoredPipeline(entry: PipelineCv): (PipelineCv, Result<Table>) {
    var pairs := StoredPairs(entry.name, entry.pairs);
    var after := PipelineCv(entry.name, pairs.0);
    match pairs.1
    case Err(e) => (after, Err(e))
    case Ok(blocks) => (after, ConcatRows(blocks))
  }

  /** Each stored pipeline's own outcome, as if it were processed alone. */
  function StoredOutcomes(cv: seq<PipelineCv>): (r: seq<(PipelineCv, Result<Table>)>)
    ensures |r| == |cv|
  {
    seq(|cv|, i requires 0 <= i < |cv| => StoredPipeline(cv[i]))
  }

  /** The loop over the stored pipelines, given each one's outcome: entries up
      to and including the first failing one are replaced by what processing
      left behind, later ones are left as they were; one stacked block per
      pipeline, or the first error. */
  function GatherStored(cv: seq<PipelineCv>, outs: seq<(PipelineCv, Result<Table>)>)
    : (r: (seq<PipelineCv>, Result<seq<Table>>))
    requires |outs| == |cv|
    ensures |r.0| == |cv|
    decreases |cv|
  {
    if cv == [] then ([], Ok([]))
    else
      match outs[0].1
      case Err(e) => ([outs[0].0] + cv[1..], Err(e))
      case Ok(t) =>
        var rest := GatherStored(cv[1..], outs[1..]);
        ([outs[0].0] + rest.0, Prepended([t], rest.1))
  }

  /** The loop over the stored pipelines: the stored data afterwards and the
      blocks, or the first error. */
  function StoredBlocks(cv: seq<PipelineCv>): (r: (seq<PipelineCv>, Result<seq<Table>>))
    ensures |r.0| == |cv|
  {
    GatherStored(cv, StoredOutcomes(cv))
  }

  /** The first step of the loop over the stored pipelines, spelled out. */
  lemma StoredBlocksFirst(cv: seq<PipelineCv>)
    requires cv != []
    ensures StoredPipeline(cv[0]).1.Err? ==>
              StoredBlocks(cv) == ([StoredPipeline(cv[0]).0] + cv[1..], Err(StoredPipeline(cv[0]).1.error))
    ensures StoredPipeline(cv[0]).1.Ok? ==>
              (StoredBlocks(cv)
               == ([StoredPipeline(cv[0]).0] + StoredBlocks(cv[1..]).0,
                   Prepended([StoredPipeline(cv[0]).1.value], StoredBlocks(cv[1..]).1)))
  {
    assert StoredOutcomes(cv)[1..] == StoredOutcomes(cv[1..]);
  }

  /** `ts` in front of a result's blocks, or its error. */
  function Prepended(ts: seq<Table>, r: Result<seq<Table>>): Result<seq<Table>> {
    match r
    case Ok(us) => Ok(ts + us)
    case Err(e) => Err(e)
  }

  /** The metalearner's training data on the stored path, with the stored data
      afterwards: the labels are `y`, and the features are re-selected by `y`'s
      index when their row count differs from `y`'s. */
  function StoredPath(cv: seq<PipelineCv>, y: Series): (seq<PipelineCv>, Result<(Table, Series)>) {
    var s := StoredBlocks(cv);
    if s.1.Err? then (s.0, Err(s.1.error))
    else
      match ConcatColumns(s.1.value)
      case Err(e) => (s.0, Err(e))
      case Ok(mx) =>
        if |mx.rows| != |y.values| then
          match Loc(mx, y.index)
          case Err(e) => (s.0, Err(e))
          case Ok(selected) => (s.0, Ok((selected, y)))
        else (s.0, Ok((mx, y)))
  }

  // ---------------------------------------------------------------------------
  // `fit` as a whole
  // ---------------------------------------------------------------------------

  /** The ensemble's state: its input pipelines, whether they are fitted, the
      stored cross-validation data, what the metalearner was last fitted on,
      and `_classes_`. */
  datatype State = State(
    inputPipelines: seq<Pipeline>,
    inputPipelinesFitted: bool,
    cvValidData: seq<PipelineCv>,
    trainedOn: Option<(Table, Series)>,
    classes: seq<int>)

  datatype FitOutcome = FitOutcome(state: State, result: Result<()>)

  /** The last step of `fit`: the metalearner is fitted on the assembled data and
      the sorted distinct labels are recorded. */
  function Finish(s: State, data: Result<(Table, Series)>): FitOutcome {
    match data
    case Err(e) => FitOutcome(s, Err(e))
    case Ok(d) => FitOutcome(s.(trainedOn := Some(d), classes := SortedDistinct(d.1.values)), Ok(()))
  }

  /** `fit(X, y, force_retrain)` from state `s`, the data splitter's folds given as `splits`. */
  function FitSpec(pt: ProblemType, l: Learner, s: State, x: Table, y: Series, splits: seq<Split>, forceRetrain: bool)
    : FitOutcome
  {
    match CheckClasses(pt, y)
    case Some(e) => FitOutcome(s, Err(e))
    case None =>
      var pipelines := if !s.inputPipelinesFitted || forceRetrain then FitAll(l, s.inputPipelines, x, y)
                       else s.inputPipelines;
      var s1 := s.(inputPipelines := pipelines, inputPipelinesFitted := true);
      if s.cvValidData != [] && !forceRetrain then
        var stored := StoredPath(s.cvValidData, y);
        Finish(s1.(cvValidData := stored.0), stored.1)
      else
        Finish(s1, CvPath(l, pipelines, x, y, splits))
  }

  // ---------------------------------------------------------------------------
  // The loops of `fit`
  // ---------------------------------------------------------------------------

  lemma {:induction false} ReshapedPredictionsErrorPersists(l: Learner, pipelines: seq<Pipeline>, x: Table, k: nat)
    requires k <= |pipelines| && ReshapedPredictions(l, pipelines[..k], x).Err?
    ensures ReshapedPredictions(l, pipelines, x) == ReshapedPredictions(l, pipelines[..k], x)
    decreases |pipelines|
  {
    if k < |pipelines| {
      var init := pipelines[..|pipelines| - 1];
      assert init[..k] == pipelines[..k];
      ReshapedPredictionsErrorPersists(l, init, x, k);
    } else {
      assert pipelines[..k] == pipelines;
    }
  }

  lemma {:induction false} CvFoldsErrorPersists(
    l: Learner, start: seq<Pipeline>, x: Table, y: Series, splits: seq<Split>, k: nat)
    requires k <= |splits| && CvFolds(l, start, x, y, splits[..k]).Err?
    ensures CvFolds(l, start, x, y, splits) == CvFolds(l, start, x, y, splits[..k])
    decreases |splits|
  {
    if k < |splits| {
      var init := splits[..|splits| - 1];
      assert init[..k] == splits[..k];
      CvFoldsErrorPersists(l, start, x, y, init, k);
    } else {
      assert splits[..k] == splits;
    }
  }

  /** The loop over the clones within one fold: each is refit on the training
      rows and its predictions on the validation rows are reshaped; the first
      prediction that is not a DataFrame ends the loop with its error. */
  method RefitAndPredict(l: Learner, clones: seq<Pipeline>, xTrain: Table, yTrain: Series, xValid: Table)
    returns (refit: seq<Pipeline>, foldX: Result<seq<Table>>)
    ensures foldX == ReshapedPredictions(l, FitAll(l, clones, xTrain, yTrain), xValid)
    ensures foldX.Ok? ==> refit == FitAll(l, clones, xTrain, yTrain)
  {
    var blocks: seq<Table> := [];
    refit := [];
    ghost var allRefit := FitAll(l, clones, xTrain, yTrain);
    for j := 0 to |clones|
      invariant refit == allRefit[..j]
      invariant ReshapedPredictions(l, refit, xValid) == Ok(blocks)
    {
      var pipeline := l.fit(clones[j], xTrain, yTrain);
      assert allRefit[..j + 1] == refit + [pipeline];
      assert (refit + [pipeline])[..j] == refit;
      var plPreds := l.predictProba(pipeline, xValid);
      var processed := PredsProcessor(plPreds, pipeline.name);
      if processed.Err? {
        ReshapedPredictionsErrorPersists(l, allRefit, xValid, j + 1);
        return refit, Err(processed.error);
      }
      blocks := blocks + [processed.value.features];
      refit := refit + [pipeline];
    }
    assert allRefit[..|clones|] == allRefit;
    foldX := Ok(blocks);
  }

  /** The internal cross-validation path of `fit` (lines that clone the input
      pipelines, loop over the folds and the clones, and stack the results). */
  method AssembleCv(l: Learner, pipelines: seq<Pipeline>, x: Table, y: Series, splits: seq<Split>)
    returns (r: Result<(Table, Series)>)
    ensures r == CvPath(l, pipelines, x, y, splits)
  {
    var predPls: seq<Pipeline> := [];
    for i := 0 to |pipelines|
      invariant predPls == Clones(l, pipelines[..i])
    {
      predPls := predPls + [l.clone(pipelines[i])];
    }
    assert pipelines[..|pipelines|] == pipelines;
    ghost var start := predPls;
    var metalearnerX: seq<Table> := [];
    var metalearnerY: seq<Series> := [];
    for f := 0 to |splits|
      invariant CvFolds(l, start, x, y, splits[..f]) == Ok(Gathered(predPls, metalearnerX, metalearnerY))
    {
      ghost var upto := splits[..f + 1];
      assert upto[..f] == splits[..f] && upto[f] == splits[f];
      var split := splits[f];
      var xTrain := ILoc(x, split.train);
      if xTrain.Err? {
        CvFoldsErrorPersists(l, start, x, y, splits, f + 1);
        return Err(xTrain.error);
      }
      var xValid := ILoc(x, split.valid);
      if xValid.Err? {
        CvFoldsErrorPersists(l, start, x, y, splits, f + 1);
        return Err(xValid.error);
      }
      var yTrain := ILocSeries(y, split.train);
      if yTrain.Err? {
        CvFoldsErrorPersists(l, start, x, y, splits, f + 1);
        return Err(yTrain.error);
      }
      var yValid := ILocSeries(y, split.valid);
      if yValid.Err? {
        CvFoldsErrorPersists(l, start, x, y, splits, f + 1);
        return Err(yValid.error);
      }
      var refit, foldX := RefitAndPredict(l, predPls, xTrain.value, yTrain.value, xValid.value);
      if foldX.Err? {
        CvFoldsErrorPersists(l, start, x, y, splits, f + 1);
        return Err(foldX.error);
      }
      var block := ConcatColumns(foldX.value);
      if block.Err? {
        CvFoldsErrorPersists(l, start, x, y, splits, f + 1);
        return Err(block.error);
      }
      predPls := refit;
      metalearnerX := metalearnerX + [block.value];
      metalearnerY := metalearnerY + [yValid.value];
    }
    assert splits[..|splits|] == splits;
    var mx := ConcatRows(metalearnerX);
    if mx.Err? {
      return Err(mx.error);
    }
    var my := ConcatSeries(metalearnerY);
    if my.Err? {
      return Err(my.error);
    }
    r := Ok((mx.value, my.value));
  }

  /** One step of the loop over stored pairs once an error has been raised:
      the next pair is left as it was and the error stands. */
  lemma StoredPairsErrorStep(name: string, pairs: seq<CvPair>)
    requires pairs != [] && StoredPairs(name, pairs[..|pairs| - 1]).1.Err?
    ensures StoredPairs(name, pairs)
         == (StoredPairs(name, pairs[..|pairs| - 1]).0 + [pairs[|pairs| - 1]], StoredPairs(name, pairs[..|pairs| - 1]).1)
  {
  }

  lemma {:induction false} StoredPairsErrorPersists(name: string, pairs: seq<CvPair>, k: nat)
    requires k <= |pairs| && StoredPairs(name, pairs[..k]).1.Err?
    ensures StoredPairs(name, pairs) == (StoredPairs(name, pairs[..k]).0 + pairs[k..], StoredPairs(name, pairs[..k]).1)
    decreases |pairs|
  {
    var before := StoredPairs(name, pairs[..k]);
    if k < |pairs| {
      var n := |pairs| - 1;
      var init := pairs[..n];
      var prev := StoredPairs(name, init);
      assert prev == (before.0 + init[k..], before.1) by {
        assert init[..k] == pairs[..k];
        StoredPairsErrorPersists(name, init, k);
      }
      assert StoredPairs(name, pairs) == (prev.0 + [pairs[n]], prev.1) by {
        StoredPairsErrorStep(name, pairs);
      }
      assert prev.0 + [pairs[n]] == before.0 + pairs[k..] by {
        assert init[k..] + [pairs[n]] == pairs[k..];
      }
    } else {
      assert pairs[..k] == pairs && pairs[k..] == [];
      assert before.0 + pairs[k..] == before.0;
    }
  }

  /** One step of the loop over stored pairs while no error has been raised. */
  lemma StoredPairsNext(name: string, pairs: seq<CvPair>, j: nat, renamed: seq<CvPair>, blocks: seq<Table>)
    requires j < |pairs| && StoredPairs(name, pairs[..j]) == (renamed, Ok(blocks))
    ensures pairs[j].preds.NotADataFrame? ==>
              StoredPairs(name, pairs[..j + 1]) == (renamed + [pairs[j]], Err(ValueError(NotADataFrameMessage)))
    ensures pairs[j].preds.DataFrame? ==>
              (StoredPairs(name, pairs[..j + 1])
               == (renamed + [CvPair(pairs[j].x, DataFrame(Positional(pairs[j].preds.table)))],
                   Ok(blocks + [Reshape(pairs[j].preds.table, name)])))
  {
    var upto := pairs[..j + 1];
    assert upto[..j] == pairs[..j] && upto[j] == pairs[j];
  }

  /** The loop over one stored pipeline's pairs: each pair's predictions are
      processed, which renames them in place. */
  method ProcessStoredPairs(name: string, pairs: seq<CvPair>)
    returns (after: seq<CvPair>, blocks: Result<seq<Table>>)
    ensures (after, blocks) == StoredPairs(name, pairs)
  {
    var plValidPreds: seq<Table> := [];
    var renamed: seq<CvPair> := [];
    for j := 0 to |pairs|
      invariant StoredPairs(name, pairs[..j]) == (renamed, Ok(plValidPreds))
    {
      var processed := PredsProcessor(pairs[j].preds, name);
      StoredPairsNext(name, pairs, j, renamed, plValidPreds);
      if processed.Err? {
        assert StoredPairs(name, pairs) == (renamed + pairs[j..], Err(processed.error)) by {
          StoredPairsErrorPersists(name, pairs, j + 1);
          assert pairs[j..] == [pairs[j]] + pairs[j + 1..];
          assert renamed + [pairs[j]] + pairs[j + 1..] == renamed + pairs[j..];
        }
        return renamed + pairs[j..], Err(processed.error);
      }
      renamed := renamed + [CvPair(pairs[j].x, DataFrame(processed.value.renamed))];
      plValidPreds := plValidPreds + [processed.value.features];
    }
    assert pairs[..|pairs|] == pairs;
    return renamed, Ok(plValidPreds);
  }

  /** One stored pipeline: its pairs are processed and the blocks stacked by rows. */
  method ProcessStoredPipeline(entry: PipelineCv) returns (after: PipelineCv, stacked: Result<Table>)
    ensures (after, stacked) == StoredPipeline(entry)
  {
    var pairs, blocks := ProcessStoredPairs(entry.name, entry.pairs);
    after := PipelineCv(entry.name, pairs);
    if blocks.Err? {
      return after, Err(blocks.error);
    }
    stacked := ConcatRows(blocks.value);
  }

  /** The loop over the stored pipelines: each one's pairs are processed and
      its blocks stacked by rows. Also gives the stored data as the in-place
      renames leave it. */
  method CollectStored(cv: seq<PipelineCv>)
    returns (done: seq<PipelineCv>, blocks: Result<seq<Table>>)
    ensures (done, blocks) == StoredBlocks(cv)
  {
    ghost var outs := StoredOutcomes(cv);
    var metalearnerX: seq<Table> := [];
    done := [];
    assert cv[0..] == cv && outs[0..] == outs;
    ghost var whole := GatherStored(cv, outs);
    if whole.1.Ok? {
      assert [] + whole.1.value == whole.1.value;
    }
    for i := 0 to |cv|
      invariant whole.0 == done + GatherStored(cv[i..], outs[i..]).0
      invariant whole.1 == Prepended(metalearnerX, GatherStored(cv[i..], outs[i..]).1)
    {
      assert cv[i..][1..] == cv[i + 1..] && outs[i..][0] == outs[i] && outs[i..][1..] == outs[i + 1..];
      var entry, stacked := ProcessStoredPipeline(cv[i]);
      assert outs[i] == (entry, stacked);
      if stacked.Err? {
        assert done + ([entry] + cv[i + 1..]) == done + [entry] + cv[i + 1..];
        return done + [entry] + cv[i + 1..], Err(stacked.error);
      }
      ghost var rest := GatherStored(cv[i + 1..], outs[i + 1..]);
      assert done + ([entry] + rest.0) == (done + [entry]) + rest.0;
      if rest.1.Ok? {
        assert metalearnerX + ([stacked.value] + rest.1.value) == (metalearnerX + [stacked.value]) + rest.1.value;
      }
      metalearnerX := metalearnerX + [stacked.value];
      done := done + [entry];
    }
    assert cv[|cv|..] == [];
    assert done + [] == done && metalearnerX + [] == metalearnerX;
    blocks := Ok(metalearnerX);
  }

  /** The stored cross-validation path of `fit`: the loop over the stored
      pipelines, then the join and the re-selection by `y`'s index. Also gives
      the stored data as the in-place renames leave it. */
  method AssembleStored(cv: seq<PipelineCv>, y: Series)
    returns (newCv: seq<PipelineCv>, r: Result<(Table, Series)>)
    ensures (newCv, r) == StoredPath(cv, y)
  {
    var blocks;
    newCv, blocks := CollectStored(cv);
    if blocks.Err? {
      return newCv, Err(blocks.error);
    }
    var joined := ConcatColumns(blocks.value);
    if joined.Err? {
      return newCv, Err(joined.error);
    }
    var mx := joined.value;
    if |mx.rows| != |y.values| {
      var selected := Loc(mx, y.index);
      if selected.Err? {
        return newCv, Err(selected.error);
      }
      mx := selected.value;
    }
    r := Ok((mx, y));
  }

  // ---------------------------------------------------------------------------
  // The ensemble object
  // ---------------------------------------------------------------------------

  const UnfittedMessage := "Input pipelines needs to be fitted before transform"

  class EnsembleClassificationPipeline {
    const problemType: ProblemType
    var inputPipelines: seq<Pipeline>
    /** `_all_input_pipelines_fitted`, kept by the base class. */
    var inputPipelinesFitted: bool
    /** `cv_valid_data`; empty when none was given. */
    var cvValidData: seq<PipelineCv>
    /** The data `component_graph.fit` was last called with. */
    var trainedOn: Option<(Table, Series)>
    /** `_classes_`. */
    var classes: seq<int>

    function Snapshot(): State
      reads this
    {
      State(inputPipelines, inputPipelinesFitted, cvValidData, trainedOn, classes)
    }

    constructor (problemType: ProblemType, inputPipelines: seq<Pipeline>, inputPipelinesFitted: bool,
                 cvValidData: seq<PipelineCv>)
      ensures this.problemType == problemType
      ensures Snapshot() == State(inputPipelines, inputPipelinesFitted, cvValidData, None, [])
    {
      this.problemType := problemType;
      this.inputPipelines := inputPipelines;
      this.inputPipelinesFitted := inputPipelinesFitted;
      this.cvValidData := cvValidData;
      this.trainedOn := None;
      this.classes := [];
    }

    /** `fit(X, y, data_splitter, force_retrain)`, the splitter's folds given as `splits`. */
    method Fit(l: Learner, x: Table, y: Series, splits: seq<Split>, forceRetrain: bool) returns (r: Result<()>)
      modifies this
      ensures FitOutcome(Snapshot(), r) == FitSpec(problemType, l, old(Snapshot()), x, y, splits, forceRetrain)
    {
      var check := CheckClasses(problemType, y);
      if check.Some? {
        return Err(check.value);
      }
      if !inputPipelinesFitted || forceRetrain {
        inputPipelines := FitAll(l, inputPipelines, x, y);
        inputPipelinesFitted := true;
      }
      var data: Result<(Table, Series)>;
      if cvValidData != [] && !forceRetrain {
        var newCv;
        newCv, data := AssembleStored(cvValidData, y);
        cvValidData := newCv;
      } else {
        data := AssembleCv(l, inputPipelines, x, y, splits);
      }
      if data.Err? {
        return Err(data.error);
      }
      trainedOn := Some(data.value);
      classes := SortedDistinct(data.value.1.values);
      r := Ok(());
    }

    /** `transform(X)`: fails unless the input pipelines are fitted; otherwise
        their reshaped predictions side by side, in input-pipeline order. */
    function Transform(l: Learner, x: Table): (r: Result<Table>)
      reads this
      ensures !inputPipelinesFitted ==> r == Err(ValueError(UnfittedMessage))
      ensures r.Ok? ==>
                && inputPipelinesFitted
                && ReshapedPredictions(l, inputPipelines, x).Ok?
                && r.value.columns == AllColumns(ReshapedPredictions(l, inputPipelines, x).value)
    {
      if !inputPipelinesFitted then Err(ValueError(UnfittedMessage))
      else Features(l, inputPipelines, x)
    }
  }
}
